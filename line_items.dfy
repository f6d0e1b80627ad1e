/** The line item shared by carts and orders: a product reference, a
    quantity and the unit price captured when the line was written, with the
    sums both documents derive from their lines. */
module LineItems {
  import opened Common

  datatype LineItem = LineItem(product: ProductId, quantity: int, price: int)

  function LineTotal(item: LineItem): int {
    item.price * item.quantity
  }

  /** `items.reduce((sum, item) => sum + item.price * item.quantity, 0)`,
      folded from the left as `reduce` does. */
  function Subtotal(items: seq<LineItem>): (r: int)
    ensures items == [] ==> r == 0
    ensures (forall i :: 0 <= i < |items| ==> LineTotal(items[i]) >= 0) ==> r >= 0
  {
    if items == [] then 0 else Subtotal(items[..|items| - 1]) + LineTotal(items[|items| - 1])
  }

  /** `items.reduce((sum, item) => sum + item.quantity, 0)`. */
  function TotalQuantity(items: seq<LineItem>): (r: int)
    ensures items == [] ==> r == 0
    ensures (forall i :: 0 <= i < |items| ==> items[i].quantity >= 0) ==> r >= 0
  {
    if items == [] then 0 else TotalQuantity(items[..|items| - 1]) + items[|items| - 1].quantity
  }

  /** The schema's `min: 1` on every line's quantity. */
  predicate PositiveQuantities(items: seq<LineItem>) {
    forall x :: x in items ==> x.quantity >= 1
  }

  /** No two lines name the same product. */
  predicate DistinctProducts(items: seq<LineItem>) {
    forall i, j :: 0 <= i < j < |items| ==> items[i].product != items[j].product
  }

  /** The subtotal of two runs of lines is the sum of their subtotals. */
  lemma {:induction false} SubtotalAppend(a: seq<LineItem>, b: seq<LineItem>)
    ensures Subtotal(a + b) == Subtotal(a) + Subtotal(b)
    decreases |b|
  {
    if b == [] {
      assert a + b == a;
    } else {
      var c := a + b;
      assert c[..|c| - 1] == a + b[..|b| - 1];
      assert c[|c| - 1] == b[|b| - 1];
      SubtotalAppend(a, b[..|b| - 1]);
    }
  }

  /** Replacing one line changes the subtotal by the difference of the two
      line totals, whatever the other lines are. */
  lemma SubtotalUpdate(items: seq<LineItem>, i: nat, item: LineItem)
    requires i < |items|
    ensures Subtotal(items[i := item]) == Subtotal(items) - LineTotal(items[i]) + LineTotal(item)
  {
    var u := items[i := item];
    assert items == items[..i] + [items[i]] + items[i + 1..];
    assert u == items[..i] + [item] + items[i + 1..];
    SubtotalAppend(items[..i] + [items[i]], items[i + 1..]);
    SubtotalAppend(items[..i], [items[i]]);
    SubtotalAppend(items[..i] + [item], items[i + 1..]);
    SubtotalAppend(items[..i], [item]);
    assert Subtotal([items[i]]) == LineTotal(items[i]) by { assert [items[i]][..0] == []; }
    assert Subtotal([item]) == LineTotal(item) by { assert [item][..0] == []; }
  }

  /** When every quantity is at least 1 there are at least as many units as
      lines, and no units only when there are no lines. */
  lemma {:induction false} TotalQuantityBound(items: seq<LineItem>)
    ensures PositiveQuantities(items) ==> TotalQuantity(items) >= |items|
    ensures PositiveQuantities(items) ==> (TotalQuantity(items) == 0 <==> items == [])
  {
    if items != [] {
      TotalQuantityBound(items[..|items| - 1]);
    }
  }

  /** The lines kept by a product filter, in their original order:
      `items.filter(item => keep(item.product))`. */
  function Retain(items: seq<LineItem>, keep: ProductId -> bool): (r: seq<LineItem>)
    ensures |r| <= |items|
    ensures forall i :: 0 <= i < |r| ==> keep(r[i].product)
  {
    if items == [] then []
    else
      var rest := Retain(items[1..], keep);
      if !keep(items[0].product) then rest
      else
        [items[0]] + rest
  }

  /** The filter keeps exactly the lines that pass it, so lines with
      positive quantities stay positive. */
  lemma {:induction false} RetainMembers(items: seq<LineItem>, keep: ProductId -> bool)
    ensures forall x :: x in Retain(items, keep) <==> x in items && keep(x.product)
    ensures PositiveQuantities(items) ==> PositiveQuantities(Retain(items, keep))
  {
    if items != [] {
      RetainMembers(items[1..], keep);
      assert items == [items[0]] + items[1..];
    }
  }

  /** Filtering never makes two lines name the same product. */
  lemma {:induction false} RetainDistinct(items: seq<LineItem>, keep: ProductId -> bool)
    requires DistinctProducts(items)
    ensures DistinctProducts(Retain(items, keep))
  {
    if items != [] {
      var rest := Retain(items[1..], keep);
      RetainDistinct(items[1..], keep);
      RetainMembers(items[1..], keep);
      if keep(items[0].product) {
        var r := Retain(items, keep);
        assert r == [items[0]] + rest;
        forall i | 1 <= i < |r| ensures r[i].product != r[0].product {
          assert r[i] in items[1..];
          var j :| 0 <= j < |items| - 1 && items[1..][j] == r[i];
          assert items[j + 1] == r[i];
        }
      }
    }
  }

  /** Filtering distributes over concatenation: the kept lines stay in
      their original order. */
  lemma {:induction false} RetainAppend(a: seq<LineItem>, b: seq<LineItem>, keep: ProductId -> bool)
    ensures Retain(a + b, keep) == Retain(a, keep) + Retain(b, keep)
    decreases |a|
  {
    if a == [] {
      assert a + b == b;
    } else {
      assert (a + b)[0] == a[0];
      assert (a + b)[1..] == a[1..] + b;
      RetainAppend(a[1..], b, keep);
    }
  }

  /** A filter drops a line exactly when some line fails it: keeping every
      line returns the same list, and the same length means nothing was
      dropped. */
  lemma RetainAll(items: seq<LineItem>, keep: ProductId -> bool)
    ensures Retain(items, keep) == items <==> forall i :: 0 <= i < |items| ==> keep(items[i].product)
    ensures |Retain(items, keep)| == |items| ==> Retain(items, keep) == items
  {
    if forall i :: 0 <= i < |items| ==> keep(items[i].product) {
      RetainKeepsAll(items, keep);
    } else {
      var i :| 0 <= i < |items| && !keep(items[i].product);
      RetainShortens(items, keep, i);
    }
  }

  /** A filter every line passes returns its input. */
  lemma {:induction false} RetainKeepsAll(items: seq<LineItem>, keep: ProductId -> bool)
    requires forall i :: 0 <= i < |items| ==> keep(items[i].product)
    ensures Retain(items, keep) == items
  {
    if items != [] {
      assert forall i :: 0 <= i < |items| - 1 ==> items[1..][i] == items[i + 1];
      RetainKeepsAll(items[1..], keep);
      assert items == [items[0]] + items[1..];
    }
  }

  /** A filter some line fails returns fewer lines. */
  lemma {:induction false} RetainShortens(items: seq<LineItem>, keep: ProductId -> bool, i: nat)
    requires i < |items| && !keep(items[i].product)
    ensures |Retain(items, keep)| < |items|
  {
    if i > 0 {
      assert items[1..][i - 1] == items[i];
      RetainShortens(items[1..], keep, i - 1);
    }
  }

  /** Filtering twice by the same test is filtering once. */
  lemma RetainIdempotent(items: seq<LineItem>, keep: ProductId -> bool)
    ensures Retain(Retain(items, keep), keep) == Retain(items, keep)
  {
    RetainAll(Retain(items, keep), keep);
  }

  /** The loop behind `calculateTotals`'s `reduce`: it sums the line totals
      from the first line to the last. */
  method SumLines(items: seq<LineItem>) returns (sum: int)
    ensures sum == Subtotal(items)
  {
    sum := 0;
    var i := 0;
    while i < |items|
      invariant 0 <= i <= |items|
      invariant sum == Subtotal(items[..i])
    {
      assert items[..i + 1][..i] == items[..i];
      sum := sum + items[i].price * items[i].quantity;
      i := i + 1;
    }
    assert items[..|items|] == items;
  }
}
