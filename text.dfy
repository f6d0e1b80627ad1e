/** The string operations the handlers and the checkout form rely on:
    JavaScript's white space, `trim`, `split` on one character, the
    comma-separated tag lists, and the e-mail pattern of the checkout form. */
module Text {
  import opened Common

  /** JavaScript white space and line terminators: exactly the characters
      `String.prototype.trim` strips and `\s` matches in a regular expression. */
  predicate IsSpace(c: char) {
    || c == ' '
    || '\t' <= c <= '\r'
    || c == '\U{00A0}' || c == '\U{1680}'
    || '\U{2000}' <= c <= '\U{200A}'
    || c == '\U{2028}' || c == '\U{2029}' || c == '\U{202F}'
    || c == '\U{205F}' || c == '\U{3000}' || c == '\U{FEFF}'
  }

  predicate AllSpace(s: string) {
    forall k :: 0 <= k < |s| ==> IsSpace(s[k])
  }

  /** How many white-space characters `s` starts with. */
  function LeadingSpaces(s: string): (n: nat)
    ensures n <= |s|
    ensures forall k :: 0 <= k < n ==> IsSpace(s[k])
    ensures n < |s| ==> !IsSpace(s[n])
  {
    if s != [] && IsSpace(s[0]) then 1 + LeadingSpaces(s[1..]) else 0
  }

  /** How many white-space characters `s` ends with. */
  function TrailingSpaces(s: string): (n: nat)
    ensures n <= |s|
    ensures forall k :: |s| - n <= k < |s| ==> IsSpace(s[k])
    ensures n < |s| ==> !IsSpace(s[|s| - n - 1])
  {
    if s != [] && IsSpace(s[|s| - 1]) then 1 + TrailingSpaces(s[..|s| - 1]) else 0
  }

  /** `s.trim()`: a contiguous slice of `s` with only white space before
      and after it, neither end of which is white
      space; every character of it comes from `s`, and it is empty exactly
      when `s` is all white space. */
  function Trim(s: string): (r: string)
    ensures exists i :: 0 <= i <= |s| - |r| && r == s[i..i + |r|] && AllSpace(s[..i]) && AllSpace(s[i + |r|..])
    ensures r == [] || (!IsSpace(r[0]) && !IsSpace(r[|r| - 1]))
    ensures forall c :: c in r ==> c in s
    ensures r == [] <==> AllSpace(s)
  {
    var i := LeadingSpaces(s);
    var j := TrimmedEnd(s);
    SpaceAround(s, i, j, s[i..j]);
    s[i..j]
  }

  /** Where the trimmed slice ends: before the trailing white space, or at
      the end of an all-white-space string. */
  function TrimmedEnd(s: string): (j: nat)
    ensures LeadingSpaces(s) <= j <= |s|
    ensures forall k :: j <= k < |s| ==> IsSpace(s[k])
    ensures LeadingSpaces(s) < j ==> !IsSpace(s[j - 1])
    ensures LeadingSpaces(s) == j ==> j == |s|
  {
    if LeadingSpaces(s) == |s| then |s| else |s| - TrailingSpaces(s)
  }

  /** A slice with only white space on either side and no white space at
      its ends. */
  lemma SpaceAround(s: string, i: nat, j: nat, r: string)
    requires i <= j <= |s| && r == s[i..j]
    requires forall k :: 0 <= k < i ==> IsSpace(s[k])
    requires forall k :: j <= k < |s| ==> IsSpace(s[k])
    requires i < j ==> !IsSpace(s[i]) && !IsSpace(s[j - 1])
    requires i == j ==> j == |s|
    ensures exists i' :: 0 <= i' <= |s| - |r| && r == s[i'..i' + |r|] && AllSpace(s[..i']) && AllSpace(s[i' + |r|..])
    ensures r == [] || (!IsSpace(r[0]) && !IsSpace(r[|r| - 1]))
    ensures forall c :: c in r ==> c in s
    ensures r == [] <==> AllSpace(s)
  {
    assert forall k :: 0 <= k < i ==> s[..i][k] == s[k];
    assert forall k :: 0 <= k < |s| - j ==> s[j..][k] == s[j + k];
    if i == j {
      assert s[..i] == s;
    }
    assert r == s[i..i + |r|] && AllSpace(s[..i]) && AllSpace(s[i + |r|..]);
  }

  /** Trimming a string that does not begin or end with white space gives
      it back. */
  lemma TrimKeepsTrimmed(s: string)
    requires s == [] || (!IsSpace(s[0]) && !IsSpace(s[|s| - 1]))
    ensures Trim(s) == s
  {
    assert LeadingSpaces(s) == 0 && s[0..] == s;
    assert TrailingSpaces(s) == 0 && s[..|s|] == s;
  }

  /** `s.split(sep)` for a one-character separator: the pieces between the
      separators, in order; there is always at least one piece and no piece
      holds the separator. */
  function Split(s: string, sep: char): (pieces: seq<string>)
    ensures |pieces| >= 1
    ensures forall i :: 0 <= i < |pieces| ==> sep !in pieces[i]
    decreases |s|
  {
    if s == [] then [""]
    else
      var rest := Split(s[1..], sep);
      if s[0] == sep then [""] + rest
      else [[s[0]] + rest[0]] + rest[1..]
  }

  /** `pieces.join(sep)`. */
  function Join(pieces: seq<string>, sep: char): string
    requires |pieces| >= 1
  {
    if |pieces| == 1 then pieces[0] else pieces[0] + [sep] + Join(pieces[1..], sep)
  }

  /** Joining the pieces of a split gives back the original string. */
  lemma {:induction false} JoinSplit(s: string, sep: char)
    ensures Join(Split(s, sep), sep) == s
    decreases |s|
  {
    if s != [] {
      var rest := Split(s[1..], sep);
      JoinSplit(s[1..], sep);
      if s[0] == sep {
        assert Split(s, sep) == [""] + rest;
        assert ([""] + rest)[1..] == rest;
        assert s == [s[0]] + s[1..];
      } else if |rest| == 1 {
        assert Split(s, sep) == [[s[0]] + rest[0]];
        assert s == [s[0]] + s[1..];
      } else {
        var pieces := [[s[0]] + rest[0]] + rest[1..];
        assert Split(s, sep) == pieces;
        assert pieces[1..] == rest[1..];
        assert Join(rest, sep) == rest[0] + [sep] + Join(rest[1..], sep);
        assert s == [s[0]] + s[1..];
      }
    }
  }

  /** A piece without the separator splits to itself. */
  lemma {:induction false} SplitPiece(a: string, sep: char)
    requires sep !in a
    ensures Split(a, sep) == [a]
    decreases |a|
  {
    if a != [] {
      SplitPiece(a[1..], sep);
      assert [a[0]] + a[1..] == a;
    }
  }

  /** A piece followed by the separator splits off as the first piece. */
  lemma {:induction false} SplitAtSeparator(a: string, sep: char, b: string)
    requires sep !in a
    ensures Split(a + [sep] + b, sep) == [a] + Split(b, sep)
    decreases |a|
  {
    var s := a + [sep] + b;
    if a == [] {
      assert s[0] == sep && s[1..] == b;
    } else {
      assert s[0] == a[0];
      assert s[1..] == a[1..] + [sep] + b;
      SplitAtSeparator(a[1..], sep, b);
      assert [a[0]] + a[1..] == a;
    }
  }

  /** Splitting a join of separator-free pieces gives back the pieces. */
  lemma {:induction false} SplitJoin(pieces: seq<string>, sep: char)
    requires |pieces| >= 1
    requires forall i :: 0 <= i < |pieces| ==> sep !in pieces[i]
    ensures Split(Join(pieces, sep), sep) == pieces
    decreases |pieces|
  {
    if |pieces| == 1 {
      SplitPiece(pieces[0], sep);
    } else {
      SplitJoin(pieces[1..], sep);
      SplitAtSeparator(pieces[0], sep, Join(pieces[1..], sep));
      assert [pieces[0]] + pieces[1..] == pieces;
    }
  }

  /** `tags ? tags.split(',').map(tag => tag.trim()) : []`: nothing for a
      missing or empty field, otherwise one tag per comma-separated piece,
      each trimmed and free of commas. */
  function SplitTags(tags: Option<string>): (r: seq<string>)
    ensures !Truthy(tags) ==> r == []
    ensures Truthy(tags) ==> |r| == |Split(tags.value, ',')|
    ensures forall i :: 0 <= i < |r| ==> ',' !in r[i] && Trim(r[i]) == r[i]
    ensures Truthy(tags) ==> forall i :: 0 <= i < |r| ==> r[i] == Trim(Split(tags.value, ',')[i])
  {
    if !Truthy(tags) then []
    else
      var pieces := Split(tags.value, ',');
      TrimmedPieces(pieces);
      TrimAll(pieces)
  }

  /** `pieces.map(p => p.trim())`. */
  function TrimAll(pieces: seq<string>): (r: seq<string>)
    ensures |r| == |pieces| && forall i :: 0 <= i < |r| ==> r[i] == Trim(pieces[i])
  {
    seq(|pieces|, i requires 0 <= i < |pieces| => Trim(pieces[i]))
  }

  /** Trimming comma-free pieces gives comma-free, trimmed tags. */
  lemma TrimmedPieces(pieces: seq<string>)
    requires forall i :: 0 <= i < |pieces| ==> ',' !in pieces[i]
    ensures forall i :: 0 <= i < |pieces| ==>
      ',' !in TrimAll(pieces)[i] && Trim(TrimAll(pieces)[i]) == TrimAll(pieces)[i]
  {
    forall i | 0 <= i < |pieces|
      ensures ',' !in TrimAll(pieces)[i] && Trim(TrimAll(pieces)[i]) == TrimAll(pieces)[i]
    {
      TrimmedPiece(pieces[i]);
    }
  }

  /** The tags after an update: re-split from a non-empty field, kept
      otherwise. */
  function TagsAfterUpdate(current: seq<string>, field: Option<string>): (r: seq<string>)
    ensures !Truthy(field) ==> r == current
    ensures Truthy(field) ==> |r| == |Split(field.value, ',')|
    ensures Truthy(field) ==> forall i :: 0 <= i < |r| ==> ',' !in r[i] && Trim(r[i]) == r[i]
    ensures Truthy(field) ==> forall i :: 0 <= i < |r| ==> r[i] == Trim(Split(field.value, ',')[i])
    ensures Truthy(field) ==> r == SplitTags(field)
  {
    if Truthy(field) then SplitTags(field) else current
  }

  /** A trimmed piece is its own trim and gains no comma. */
  lemma TrimmedPiece(p: string)
    ensures Trim(Trim(p)) == Trim(p)
    ensures ',' !in p ==> ',' !in Trim(p)
  {
    var t := Trim(p);
    TrimKeepsTrimmed(t);
  }

  /** A list of trimmed, comma-free tags written out with commas reads back
      as the same list. */
  lemma TagsRoundTrip(tags: seq<string>)
    requires |tags| >= 1
    requires forall i :: 0 <= i < |tags| ==> ',' !in tags[i] && Trim(tags[i]) == tags[i]
    requires Join(tags, ',') != ""
    ensures SplitTags(Some(Join(tags, ','))) == tags
  {
    SplitJoin(tags, ',');
  }

  /** A run that the pattern `[^\s@]+` matches. */
  predicate Word(t: string) {
    |t| > 0 && forall k :: 0 <= k < |t| ==> !IsSpace(t[k]) && t[k] != '@'
  }

  /** `/^[^\s@]+@[^\s@]+\.[^\s@]+$/.test(s)`: the string splits at an `@`
      and at a later `.` into three runs without white space or `@`. */
  predicate MatchesEmailPattern(s: string) {
    exists at, dot ::
      0 < at < dot < |s| && s[at] == '@' && s[dot] == '.' &&
      Word(s[..at]) && Word(s[at + 1..dot]) && Word(s[dot + 1..])
  }

  /** The e-mail pattern, read character by character. */
  predicate EmailShape(s: string) {
    && (forall k :: 0 <= k < |s| ==> !IsSpace(s[k]))
    && exists at :: 0 < at < |s| && s[at] == '@'
         && (forall k :: 0 <= k < |s| && k != at ==> s[k] != '@')
         && exists dot :: at + 1 < dot < |s| - 1 && s[dot] == '.'
  }

  /** A string matches the e-mail pattern exactly when it has no white
      space, exactly one `@` with something before it, and after the `@` a
      `.` with at least one character on each side. */
  lemma EmailPatternShape(s: string)
    ensures MatchesEmailPattern(s) <==> EmailShape(s)
  {
    if MatchesEmailPattern(s) {
      var at, dot :| 0 < at < dot < |s| && s[at] == '@' && s[dot] == '.' &&
        Word(s[..at]) && Word(s[at + 1..dot]) && Word(s[dot + 1..]);
      WordsHaveShape(s, at, dot);
    }
    if EmailShape(s) {
      var at :| 0 < at < |s| && s[at] == '@'
        && (forall k :: 0 <= k < |s| && k != at ==> s[k] != '@')
        && exists dot :: at + 1 < dot < |s| - 1 && s[dot] == '.';
      var dot :| at + 1 < dot < |s| - 1 && s[dot] == '.';
      ShapeHasWords(s, at, dot);
    }
  }

  /** Three words around an `@` and a `.` leave no white space and no
      other `@`. */
  lemma WordsHaveShape(s: string, at: int, dot: int)
    requires 0 < at < dot < |s| && s[at] == '@' && s[dot] == '.'
    requires Word(s[..at]) && Word(s[at + 1..dot]) && Word(s[dot + 1..])
    ensures EmailShape(s)
  {
    forall k | 0 <= k < |s| && k != at ensures !IsSpace(s[k]) && s[k] != '@' {
      if k < at {
        assert s[k] == s[..at][k];
      } else if k == dot {
      } else if k < dot {
        assert s[k] == s[at + 1..dot][k - at - 1];
      } else {
        assert s[k] == s[dot + 1..][k - dot - 1];
      }
    }
    assert |s[dot + 1..]| > 0;
  }

  /** The three runs of a string of the right shape are words. */
  lemma ShapeHasWords(s: string, at: int, dot: int)
    requires forall k :: 0 <= k < |s| ==> !IsSpace(s[k])
    requires 0 < at && at + 1 < dot < |s| - 1 && s[at] == '@' && s[dot] == '.'
    requires forall k :: 0 <= k < |s| && k != at ==> s[k] != '@'
    ensures MatchesEmailPattern(s)
  {
    assert Word(s[..at]);
    assert Word(s[at + 1..dot]);
    assert Word(s[dot + 1..]);
  }
}
