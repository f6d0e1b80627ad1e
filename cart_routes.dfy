/** The cart routes: each loads the requesting user's cart (or finds none),
    checks the request against the catalog, and then either refuses it or
    changes the cart through the cart's own operations. The catalog is the
    map from product id to product document the routes look products up in;
    a stored cart of `null` is a user without a cart document. */
module CartRoutes {
  import opened Common
  import opened LineItems
  import opened CartModel
  import opened ProductModel

  type Catalog = map<ProductId, Product>

  /** The products a cart line may keep on loading: they exist, are active
      and have stock left. */
  function Available(catalog: Catalog): (ids: set<ProductId>)
    reads catalog.Values
    ensures forall id :: id in ids <==> id in catalog && catalog[id].isActive && catalog[id].stock > 0
  {
    set id | id in catalog && catalog[id].isActive && catalog[id].stock > 0
  }

  /** The lines GET /api/cart keeps: those whose product is available, in
      their original order. */
  function Reconciled(items: seq<LineItem>, catalog: Catalog): (r: seq<LineItem>)
    reads catalog.Values
    ensures forall x :: x in r <==> x in items && x.product in Available(catalog)
    ensures |r| <= |items|
  {
    var available := Available(catalog);
    RetainMembers(items, id => id in available);
    Retain(items, id => id in available)
  }

  /** Reconciliation keeps exactly the lines of available products, in
      order; it never adds lines or breaks the cart's invariants; a line is
      dropped exactly when its product is unavailable; and reconciling twice
      is reconciling once. */
  lemma ReconciledSpec(items: seq<LineItem>, other: seq<LineItem>, catalog: Catalog)
    ensures forall x :: x in Reconciled(items, catalog) <==>
      x in items && x.product in catalog && catalog[x.product].isActive && catalog[x.product].stock > 0
    ensures Reconciled(items + other, catalog) == Reconciled(items, catalog) + Reconciled(other, catalog)
    ensures Reconciled(items, catalog) == items <==> forall i :: 0 <= i < |items| ==> items[i].product in Available(catalog)
    ensures |Reconciled(items, catalog)| == |items| ==> Reconciled(items, catalog) == items
    ensures Reconciled(Reconciled(items, catalog), catalog) == Reconciled(items, catalog)
  {
    var available := Available(catalog);
    RetainAppend(items, other, id => id in available);
    RetainAll(items, id => id in available);
    RetainIdempotent(items, id => id in available);
    RetainMembers(items, id => id in available);
  }

  /** GET /api/cart. A user without a cart gets a new, empty one. Otherwise
      the lines of unavailable products are dropped and the totals
      recomputed; a cart with nothing to drop is returned untouched. */
  method GetCart(stored: Cart?, user: UserId, catalog: Catalog) returns (cart: Cart)
    requires stored != null ==> stored.Valid() && stored.user == user
    modifies stored
    ensures cart.Valid() && cart.user == user
    ensures stored == null ==>
      && fresh(cart) && cart.items == [] && cart.subtotal == 0 && cart.shippingCost == 0
      && cart.tax == 0 && cart.total == 0 && cart.currency == "USD"
    ensures stored != null ==> cart == stored && cart.items == Reconciled(old(stored.items), catalog)
    ensures stored != null ==> cart.shippingCost == old(stored.shippingCost) && cart.tax == old(stored.tax)
    ensures stored != null ==> cart.currency == old(stored.currency)
    ensures stored != null && |Reconciled(old(stored.items), catalog)| == |old(stored.items)| ==> unchanged(stored)
  {
    if stored == null {
      // A new cart has no lines, so the filter below has nothing to drop.
      cart := new Cart(user);
      return;
    }
    cart := stored;
    var valid := Reconciled(cart.items, catalog);
    if |valid| != |cart.items| {
      var available := Available(catalog);
      RetainMembers(cart.items, id => id in available);
      RetainDistinct(cart.items, id => id in available);
      cart.items := valid;
      cart.CalculateTotals();
    } else {
      ReconciledSpec(cart.items, [], catalog);
    }
  }

  /** The checks of POST /api/cart/add, in their order: a product id and a
      quantity of at least 1 are required (400); the product must exist and
      be active (404); its stock must cover the requested quantity (400),
      without counting what the cart already holds. An accepted request
      carries the product's current price. */
  function AddCheck(catalog: Catalog, productId: ProductId, quantity: int): (r: Reply<int>)
    reads catalog.Values
    ensures r.Ok? <==>
      productId != "" && quantity >= 1 && productId in catalog
      && catalog[productId].isActive && catalog[productId].stock >= quantity
    ensures r.Ok? ==> r.value == catalog[productId].price
    ensures r.Fail? ==> (r.status == 404 <==>
      productId != "" && quantity >= 1 && !(productId in catalog && catalog[productId].isActive))
    ensures r.Fail? ==> r.status == 400 || r.status == 404
  {
    if productId == "" then Fail(400, "Product ID is required")
    else if quantity < 1 then Fail(400, "Quantity must be at least 1")
    else if productId !in catalog || !catalog[productId].isActive then Fail(404, "Product not found or unavailable")
    else if catalog[productId].stock < quantity then Fail(400, "Insufficient stock available")
    else Ok(catalog[productId].price)
  }

  /** POST /api/cart/add. A refused request touches no cart. An accepted
      one adds to the user's cart, created empty if there was none, at the
      product's current price. */
  method AddToCart(stored: Cart?, user: UserId, catalog: Catalog, productId: ProductId, quantity: int)
    returns (r: Reply<Cart>)
    requires stored != null ==> stored.Valid() && stored.user == user
    modifies stored
    ensures AddCheck(catalog, productId, quantity).Fail? ==>
      r == Fail(AddCheck(catalog, productId, quantity).status, AddCheck(catalog, productId, quantity).message)
      && (stored != null ==> unchanged(stored))
    ensures AddCheck(catalog, productId, quantity).Ok? ==>
      && r.Ok? && r.value.Valid() && r.value.user == user
      && (stored == null ==> fresh(r.value))
      && (stored != null ==> r.value == stored)
      && r.value.items == AddLine(if stored == null then [] else old(stored.items),
                                  productId, quantity, catalog[productId].price)
      && (stored == null ==> r.value.shippingCost == 0 && r.value.tax == 0 && r.value.currency == "USD")
      && (stored != null ==> r.value.shippingCost == old(stored.shippingCost)
                             && r.value.tax == old(stored.tax) && r.value.currency == old(stored.currency))
  {
    var check := AddCheck(catalog, productId, quantity);
    if check.Fail? {
      return Fail(check.status, check.message);
    }
    var cart: Cart;
    if stored == null {
      cart := new Cart(user);
    } else {
      cart := stored;
    }
    cart.AddItem(productId, quantity, check.value);
    return Ok(cart);
  }

  /** The add check looks only at the requested quantity: a cart already
      holding the whole stock of an active product still accepts one more
      unit, and the line then exceeds the stock. */
  lemma AddMayExceedStock(catalog: Catalog, items: seq<LineItem>, p: ProductId)
    requires p != "" && p in catalog && catalog[p].isActive && catalog[p].stock >= 1
    requires Contains(items, p) && items[FindLine(items, p).value].quantity == catalog[p].stock
    ensures AddCheck(catalog, p, 1).Ok?
    ensures AddLine(items, p, 1, AddCheck(catalog, p, 1).value)[FindLine(items, p).value].quantity > catalog[p].stock
  {
  }

  /** The checks of PUT /api/cart/update, in their order: a product id and a
      quantity of at least 0 are required (400); the user must have a cart
      (404); a positive quantity needs the product to exist with enough
      stock (400), while 0 skips the lookup. Whether the product is active is
      not checked. */
  function UpdateCheck(cartFound: bool, catalog: Catalog, productId: ProductId, quantity: int): (r: Reply<()>)
    reads catalog.Values
    ensures r.Ok? <==>
      productId != "" && quantity >= 0 && cartFound
      && (quantity > 0 ==> productId in catalog && catalog[productId].stock >= quantity)
    ensures r.Fail? ==> (r.status == 404 <==> productId != "" && quantity >= 0 && !cartFound)
    ensures r.Fail? ==> r.status == 400 || r.status == 404
  {
    if productId == "" then Fail(400, "Product ID is required")
    else if quantity < 0 then Fail(400, "Quantity must be 0 or greater")
    else if !cartFound then Fail(404, "Cart not found")
    else if quantity > 0 && (productId !in catalog || catalog[productId].stock < quantity) then
      Fail(400, "Insufficient stock available")
    else Ok(())
  }

  /** PUT /api/cart/update: a refused request leaves the cart as it was; an
      accepted one sets the quantity (0 removes the product, and a product
      not in the cart changes nothing). */
  method UpdateCart(stored: Cart?, catalog: Catalog, productId: ProductId, quantity: int) returns (r: Reply<()>)
    requires stored != null ==> stored.Valid()
    modifies stored
    ensures r == UpdateCheck(stored != null, catalog, productId, quantity)
    ensures r.Fail? && stored != null ==> unchanged(stored)
    ensures r.Ok? ==>
      && stored != null && stored.Valid()
      && stored.items == UpdatedLines(old(stored.items), productId, quantity)
      && stored.shippingCost == old(stored.shippingCost) && stored.tax == old(stored.tax)
      && stored.currency == old(stored.currency)
    ensures r.Ok? && !Contains(old(stored.items), productId) ==> unchanged(stored)
  {
    r := UpdateCheck(stored != null, catalog, productId, quantity);
    if r.Ok? {
      stored.UpdateQuantity(productId, quantity);
    }
  }

  /** DELETE /api/cart/remove/:productId: 404 without a cart, otherwise
      every line for the product goes. */
  method RemoveFromCart(stored: Cart?, productId: ProductId) returns (r: Reply<()>)
    requires stored != null ==> stored.Valid()
    modifies stored
    ensures stored == null <==> r == Fail(404, "Cart not found")
    ensures stored != null ==> r.Ok? && stored.Valid() && stored.items == RemoveLines(old(stored.items), productId)
    ensures stored != null ==>
      && stored.shippingCost == old(stored.shippingCost) && stored.tax == old(stored.tax)
      && stored.currency == old(stored.currency)
  {
    if stored == null {
      return Fail(404, "Cart not found");
    }
    stored.RemoveItem(productId);
    return Ok(());
  }

  /** DELETE /api/cart/clear: 404 without a cart, otherwise the cart is
      emptied and every money field is 0. */
  method ClearCart(stored: Cart?) returns (r: Reply<()>)
    modifies stored
    ensures stored == null <==> r == Fail(404, "Cart not found")
    ensures stored != null ==>
      && r.Ok? && stored.Valid() && stored.items == []
      && stored.subtotal == 0 && stored.shippingCost == 0 && stored.tax == 0 && stored.total == 0
    ensures stored != null ==> stored.currency == old(stored.currency)
  {
    if stored == null {
      return Fail(404, "Cart not found");
    }
    stored.ClearCart();
    return Ok(());
  }

  /** GET /api/cart/summary: a user without a cart gets all-zero figures in
      `USD`; otherwise the cart's own summary. Either way there are at least
      as many units as lines, and no units exactly when there are no lines. */
  function CartSummary(stored: Cart?): (s: Summary)
    reads stored
    ensures stored == null ==> s == Summary(0, 0, 0, 0, 0, 0, "USD")
    ensures stored != null ==> s == stored.GetSummary()
    ensures stored != null ==> s.itemCount == |stored.items| && s.total == stored.total
    ensures stored == null || stored.Valid() ==> s.totalItems >= s.itemCount
    ensures stored == null || stored.Valid() ==> (s.totalItems == 0 <==> s.itemCount == 0)
  {
    if stored == null then Summary(0, 0, 0, 0, 0, 0, "USD")
    else stored.GetSummary()
  }
}
