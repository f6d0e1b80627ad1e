/** The per-user shopping cart document: an ordered list of lines, one per
    product, with the money fields derived from them, and the in-place
    operations the cart routes call on it. */
module CartModel {
  import opened Common
  import opened LineItems

  /** Index of the first line for product `p`, as `items.find(...)` meets it. */
  function FindLine(items: seq<LineItem>, p: ProductId): (r: Option<nat>)
    ensures r.Some? ==> r.value < |items| && items[r.value].product == p
    ensures r.Some? ==> forall j :: 0 <= j < r.value ==> items[j].product != p
    ensures r.None? <==> forall j :: 0 <= j < |items| ==> items[j].product != p
  {
    if items == [] then None
    else if items[0].product == p then Some(0)
    else match FindLine(items[1..], p)
      case None => None
      case Some(i) => Some(i + 1)
  }

  predicate Contains(items: seq<LineItem>, p: ProductId) {
    FindLine(items, p).Some?
  }

  /** The lines after `addItem(p, quantity, price)`. A product already in
      the cart gets `quantity` more units on its first line, which keeps its
      old price and its place; a new product gets one new line at the end,
      priced at `price`. No other line changes. */
  function AddLine(items: seq<LineItem>, p: ProductId, quantity: int, price: int): (r: seq<LineItem>)
    ensures |r| == if Contains(items, p) then |items| else |items| + 1
    ensures forall j :: 0 <= j < |items| ==>
      r[j].product == items[j].product && r[j].price == items[j].price
    ensures forall j :: 0 <= j < |items| && items[j].product != p ==> r[j] == items[j]
    ensures forall j :: 0 <= j < |items| && FindLine(items, p) != Some(j) ==> r[j] == items[j]
    ensures Contains(items, p) ==>
      r[FindLine(items, p).value].quantity == items[FindLine(items, p).value].quantity + quantity
    ensures !Contains(items, p) ==> r[|items|] == LineItem(p, quantity, price)
    ensures DistinctProducts(items) ==> DistinctProducts(r)
    ensures PositiveQuantities(items) && quantity >= 1 ==> PositiveQuantities(r)
  {
    match FindLine(items, p)
    case Some(i) => items[i := items[i].(quantity := items[i].quantity + quantity)]
    case None => items + [LineItem(p, quantity, price)]
  }

  /** The lines after `removeItem(p)`: every line for `p` goes, and every
      other line stays. */
  function RemoveLines(items: seq<LineItem>, p: ProductId): (r: seq<LineItem>)
    ensures forall x :: x in r <==> x in items && x.product != p
    ensures |r| <= |items|
  {
    RetainMembers(items, q => q != p);
    Retain(items, q => q != p)
  }

  /** The lines after `updateQuantity(p, quantity)`: nothing changes when
      `p` has no line; a quantity of 0 or less removes the product; otherwise
      the first line for `p` takes the new quantity. */
  function UpdatedLines(items: seq<LineItem>, p: ProductId, quantity: int): (r: seq<LineItem>)
    ensures !Contains(items, p) ==> r == items
    ensures quantity > 0 ==> |r| == |items|
    ensures quantity <= 0 ==> forall x :: x in r <==> x in items && x.product != p
  {
    match FindLine(items, p)
    case None => items
    case Some(i) =>
      if quantity <= 0 then RemoveLines(items, p)
      else items[i := items[i].(quantity := quantity)]
  }

  /** After a removal no line names `p`, the other lines are kept in their
      order, and removing an absent product leaves the lines as they were. */
  lemma RemoveLinesSpec(items: seq<LineItem>, p: ProductId, other: seq<LineItem>)
    ensures forall x :: x in RemoveLines(items, p) <==> x in items && x.product != p
    ensures !Contains(items, p) ==> RemoveLines(items, p) == items
    ensures RemoveLines(items + other, p) == RemoveLines(items, p) + RemoveLines(other, p)
  {
    RetainAll(items, q => q != p);
    RetainAppend(items, other, q => q != p);
    RetainMembers(items, q => q != p);
  }

  /** Setting a quantity of 0 or less has the same result as removing the
      product, whether or not it is in the cart. */
  lemma UpdateToZeroIsRemove(items: seq<LineItem>, p: ProductId, quantity: int)
    requires quantity <= 0
    ensures UpdatedLines(items, p, quantity) == RemoveLines(items, p)
  {
    RetainAll(items, q => q != p);
  }

  /** A positive quantity on a present product replaces that line's
      quantity and nothing else; the cart keeps its length. */
  lemma UpdatePositiveSetsQuantity(items: seq<LineItem>, p: ProductId, quantity: int)
    requires quantity > 0 && Contains(items, p)
    ensures var r := UpdatedLines(items, p, quantity);
      var i := FindLine(items, p).value;
      && |r| == |items|
      && r[i] == LineItem(p, quantity, items[i].price)
      && forall j :: 0 <= j < |items| && j != i ==> r[j] == items[j]
  {
  }

  /** The subtotal after an add grows by `quantity` units at the line's
      price: the stored snapshot when the product was already there, the
      given price otherwise. */
  lemma AddLineSubtotal(items: seq<LineItem>, p: ProductId, quantity: int, price: int)
    ensures Subtotal(AddLine(items, p, quantity, price)) ==
      Subtotal(items) + quantity * (if Contains(items, p) then items[FindLine(items, p).value].price else price)
  {
    match FindLine(items, p)
    case Some(i) =>
      var item := items[i].(quantity := items[i].quantity + quantity);
      assert AddLine(items, p, quantity, price) == items[i := item];
      SubtotalUpdate(items, i, item);
      MoreUnits(items[i], quantity);
    case None =>
      var line := LineItem(p, quantity, price);
      assert AddLine(items, p, quantity, price) == items + [line];
      SubtotalAppend(items, [line]);
      assert [line][..0] == [];
  }

  /** A line with `quantity` more units costs `quantity` more unit prices. */
  lemma MoreUnits(item: LineItem, quantity: int)
    ensures LineTotal(item.(quantity := item.quantity + quantity)) == LineTotal(item) + quantity * item.price
  {
  }

  /** Adding a new product twice gives one line holding both quantities, at
      the price of the first add. */
  lemma AddTwiceOneLine(items: seq<LineItem>, p: ProductId, q1: int, q2: int, price1: int, price2: int)
    requires !Contains(items, p)
    ensures var r := AddLine(AddLine(items, p, q1, price1), p, q2, price2);
      |r| == |items| + 1 && r[|items|] == LineItem(p, q1 + q2, price1)
  {
    var once := AddLine(items, p, q1, price1);
    assert FindLine(once, p) == Some(|items|);
  }

  /** `getSummary()`'s record. */
  datatype Summary = Summary(
    itemCount: int, totalItems: int,
    subtotal: int, shippingCost: int, tax: int, total: int,
    currency: string)

  class Cart {
    const user: UserId
    var items: seq<LineItem>
    var subtotal: int
    var shippingCost: int
    var tax: int
    var total: int
    var currency: string

    /** The money fields agree with the lines. */
    predicate TotalsConsistent()
      reads this
    {
      subtotal == Subtotal(items) && total == subtotal + shippingCost + tax
    }

    /** The cart's invariant: one line per product, every quantity at least
      1, and consistent totals. */
    predicate Valid()
      reads this
    {
      DistinctProducts(items) && PositiveQuantities(items) && TotalsConsistent()
    }

    /** `new Cart({ user })` with the schema defaults. */
    constructor (user: UserId)
      ensures Valid()
      ensures this.user == user && items == []
      ensures subtotal == 0 && shippingCost == 0 && tax == 0 && total == 0
      ensures currency == "USD"
    {
      this.user := user;
      items := [];
      subtotal, shippingCost, tax, total := 0, 0, 0, 0;
      currency := "USD";
    }

    /** `calculateTotals()`: the subtotal is the sum of the line totals and
      the total adds shipping and tax. */
    method CalculateTotals()
      modifies this
      ensures TotalsConsistent()
      ensures items == old(items) && shippingCost == old(shippingCost) && tax == old(tax)
      ensures currency == old(currency)
    {
      subtotal := SumLines(items);
      total := subtotal + shippingCost + tax;
    }

    /** `addItem(p, quantity, price)`. */
    method AddItem(p: ProductId, quantity: int, price: int)
      requires Valid() && quantity >= 1
      modifies this
      ensures Valid()
      ensures items == AddLine(old(items), p, quantity, price)
      ensures shippingCost == old(shippingCost) && tax == old(tax) && currency == old(currency)
    {
      var existing := FindLine(items, p);
      var lines: seq<LineItem>;
      if existing.Some? {
        var i := existing.value;
        lines := items[i := items[i].(quantity := items[i].quantity + quantity)];
      } else {
        lines := items + [LineItem(p, quantity, price)];
      }
      assert lines == AddLine(items, p, quantity, price);
      items := lines;
      CalculateTotals();
    }

    /** `removeItem(p)`. */
    method RemoveItem(p: ProductId)
      requires Valid()
      modifies this
      ensures Valid()
      ensures items == RemoveLines(old(items), p)
      ensures shippingCost == old(shippingCost) && tax == old(tax) && currency == old(currency)
    {
      RetainMembers(items, q => q != p);
      RetainDistinct(items, q => q != p);
      items := RemoveLines(items, p);
      CalculateTotals();
    }

    /** `updateQuantity(p, quantity)`; a product not in the cart leaves the
      whole document untouched. */
    method UpdateQuantity(p: ProductId, quantity: int)
      requires Valid()
      modifies this
      ensures Valid()
      ensures items == UpdatedLines(old(items), p, quantity)
      ensures shippingCost == old(shippingCost) && tax == old(tax) && currency == old(currency)
      ensures !Contains(old(items), p) ==> unchanged(this)
    {
      var found := FindLine(items, p);
      if found.Some? {
        if quantity <= 0 {
          RemoveItem(p);
          return;
        }
        var i := found.value;
        items := items[i := items[i].(quantity := quantity)];
        CalculateTotals();
      }
    }

    /** `clearCart()`: no lines and every money field zero. */
    method ClearCart()
      modifies this
      ensures Valid()
      ensures items == [] && subtotal == 0 && shippingCost == 0 && tax == 0 && total == 0
      ensures currency == old(currency)
    {
      items := [];
      subtotal, shippingCost, tax, total := 0, 0, 0, 0;
    }

    /** `getSummary()`: the number of lines, the number of units, and the
      stored money fields as they are. In a valid cart there are at least as
      many units as lines, and no units only when there are no lines. */
    function GetSummary(): (s: Summary)
      reads this
      ensures s.itemCount == |items| && s.totalItems == TotalQuantity(items)
      ensures s.subtotal == subtotal && s.shippingCost == shippingCost
      ensures s.tax == tax && s.total == total && s.currency == currency
      ensures Valid() ==> s.totalItems >= s.itemCount
      ensures Valid() ==> (s.totalItems == 0 <==> s.itemCount == 0)
    {
      TotalQuantityBound(items);
      Summary(|items|, TotalQuantity(items), subtotal, shippingCost, tax, total, currency)
    }
  }
}
