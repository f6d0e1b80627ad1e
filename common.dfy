/** Vocabulary shared by the storefront model: optional values, the outcome
    of a route handler, identifiers, and JavaScript's `x || fallback` idiom
    as the handlers use it on parsed request fields. */
module Common {

  datatype Option<+T> = None | Some(value: T)

  /** What a route handler sends back: a value with status 200, or an HTTP
      error status with its message. */
  datatype Reply<+T> = Ok(value: T) | Fail(status: int, message: string)

  /** Document identities, compared as their string forms. */
  type UserId = string
  type ProductId = string

  /** A date stored on a document; only ever copied, never interpreted. */
  type Time = int

  /** `parseInt(x) || fallback`: NaN (None) and 0 are falsy and give the
      fallback; any other parsed integer, negative ones included, is kept. */
  function IntOr(parsed: Option<int>, fallback: int): (r: int)
    ensures r == fallback || (parsed == Some(r) && r != 0)
    ensures fallback != 0 ==> r != 0
    ensures parsed.Some? && parsed.value != 0 ==> r == parsed.value
  {
    if parsed.Some? && parsed.value != 0 then parsed.value else fallback
  }

  /** JavaScript truthiness of an optional string: present and non-empty. */
  predicate Truthy(s: Option<string>) {
    s.Some? && s.value != ""
  }

  /** `s || fallback` for an optional string. */
  function StrOr(s: Option<string>, fallback: string): string {
    if Truthy(s) then s.value else fallback
  }

  /** The position of the first element satisfying `p`, as JavaScript's
      `find`, `findIndex` and `indexOf` meet it. */
  function FirstIndex<T>(s: seq<T>, p: T -> bool): (r: Option<nat>)
    ensures r.Some? ==> r.value < |s| && p(s[r.value])
    ensures r.Some? ==> forall j :: 0 <= j < r.value ==> !p(s[j])
    ensures r.None? <==> forall j :: 0 <= j < |s| ==> !p(s[j])
  {
    if s == [] then None
    else if p(s[0]) then Some(0)
    else match FirstIndex(s[1..], p)
      case None => None
      case Some(i) => Some(i + 1)
  }

  /** The first element satisfying `p` is the one `FirstIndex` finds. */
  lemma FirstIndexAt<T>(s: seq<T>, p: T -> bool, i: nat)
    requires i < |s| && p(s[i])
    requires forall j :: 0 <= j < i ==> !p(s[j])
    ensures FirstIndex(s, p) == Some(i)
  {
  }
}
