/** The order document: its closed enumerations and defaults, the totals it
    recomputes from its lines, and the customer-facing status timeline. */
module OrderModel {
  import opened Common
  import opened LineItems

  datatype PaymentMethod = Stripe | PayPal | BankTransfer

  function PaymentMethodName(m: PaymentMethod): string {
    match m
    case Stripe => "stripe"
    case PayPal => "paypal"
    case BankTransfer => "bank_transfer"
  }

  /** The enum check on `paymentMethod`: the three names and nothing else. */
  function ParsePaymentMethod(s: string): (r: Option<PaymentMethod>)
    ensures r.Some? ==> PaymentMethodName(r.value) == s
    ensures r.None? <==> forall m: PaymentMethod :: PaymentMethodName(m) != s
  {
    match s
    case "stripe" => Some(Stripe)
    case "paypal" => Some(PayPal)
    case "bank_transfer" => Some(BankTransfer)
    case _ => None
  }

  datatype PaymentStatus = PaymentPending | PaymentProcessing | Completed | Failed | Refunded

  function PaymentStatusName(s: PaymentStatus): string {
    match s
    case PaymentPending => "pending"
    case PaymentProcessing => "processing"
    case Completed => "completed"
    case Failed => "failed"
    case Refunded => "refunded"
  }

  /** The enum check on `paymentStatus`: the five names and nothing else. */
  function ParsePaymentStatus(s: string): (r: Option<PaymentStatus>)
    ensures r.Some? ==> PaymentStatusName(r.value) == s
    ensures r.None? <==> forall p: PaymentStatus :: PaymentStatusName(p) != s
  {
    match s
    case "pending" => Some(PaymentPending)
    case "processing" => Some(PaymentProcessing)
    case "completed" => Some(Completed)
    case "failed" => Some(Failed)
    case "refunded" => Some(Refunded)
    case _ => None
  }

  datatype OrderStatus = Pending | Confirmed | Processing | Shipped | Delivered | Cancelled

  function OrderStatusName(s: OrderStatus): string {
    match s
    case Pending => "pending"
    case Confirmed => "confirmed"
    case Processing => "processing"
    case Shipped => "shipped"
    case Delivered => "delivered"
    case Cancelled => "cancelled"
  }

  /** The enum check on `orderStatus`: the six names and nothing else. */
  function ParseOrderStatus(s: string): (r: Option<OrderStatus>)
    ensures r.Some? ==> OrderStatusName(r.value) == s
    ensures r.None? <==> forall o: OrderStatus :: OrderStatusName(o) != s
  {
    match s
    case "pending" => Some(Pending)
    case "confirmed" => Some(Confirmed)
    case "processing" => Some(Processing)
    case "shipped" => Some(Shipped)
    case "delivered" => Some(Delivered)
    case "cancelled" => Some(Cancelled)
    case _ => None
  }

  /** The nine address fields an order is shipped to. */
  datatype ShippingAddress = ShippingAddress(
    firstName: string, lastName: string, email: string, phone: string,
    address: string, city: string, state: string, country: string, zipCode: string)

  /** Every address field is required: none may be empty. */
  predicate AddressComplete(a: ShippingAddress) {
    a.firstName != "" && a.lastName != "" && a.email != "" && a.phone != "" &&
    a.address != "" && a.city != "" && a.state != "" && a.country != "" && a.zipCode != ""
  }

  /** One step of the status timeline. */
  datatype TimelineEntry = TimelineEntry(status: string, date: Option<Time>, description: string)

  /** How far along the fulfilment path a status is: a pending or cancelled
      order has no step past placement, a confirmed or processing one has
      one, a shipped one two, a delivered one three. */
  function Stage(s: OrderStatus): nat {
    match s
    case Pending => 0
    case Cancelled => 0
    case Confirmed => 1
    case Processing => 1
    case Shipped => 2
    case Delivered => 3
  }

  const PlacedStep := "Order Placed"
  const ConfirmedStep := "Order Confirmed"
  const ShippedStep := "Order Shipped"
  const DeliveredStep := "Order Delivered"

  const PlacedNote := "Your order has been placed successfully"
  const ConfirmedNote := "Your order has been confirmed and is being processed"
  const ShippedNote := "Your order has been shipped"
  const DeliveredNote := "Your order has been delivered"

  /** `getStatusTimeline()`: the "placed" step, dated at creation, when the
      creation time is set; then one step per stage the status has reached,
      each dated at the last update. */
  function Timeline(status: OrderStatus, createdAt: Option<Time>, updatedAt: Option<Time>): (t: seq<TimelineEntry>)
    ensures |t| == (if createdAt.Some? then 1 else 0) + Stage(status)
    ensures createdAt.Some? ==>
      t[0] == TimelineEntry(PlacedStep, createdAt, PlacedNote)
    ensures forall i :: (if createdAt.Some? then 1 else 0) <= i < |t| ==> t[i].date == updatedAt
    ensures var o := if createdAt.Some? then 1 else 0;
      && (Stage(status) >= 1 ==> t[o].status == ConfirmedStep && t[o].description == ConfirmedNote)
      && (Stage(status) >= 2 ==> t[o + 1].status == ShippedStep && t[o + 1].description == ShippedNote)
      && (Stage(status) >= 3 ==> t[o + 2].status == DeliveredStep && t[o + 2].description == DeliveredNote)
  {
    var placed := if createdAt.Some? then
      [TimelineEntry(PlacedStep, createdAt, PlacedNote)] else [];
    var confirmed := if Stage(status) >= 1 then
      [TimelineEntry(ConfirmedStep, updatedAt, ConfirmedNote)] else [];
    var shipped := if Stage(status) >= 2 then
      [TimelineEntry(ShippedStep, updatedAt, ShippedNote)] else [];
    var delivered := if Stage(status) >= 3 then
      [TimelineEntry(DeliveredStep, updatedAt, DeliveredNote)] else [];
    placed + confirmed + shipped + delivered
  }

  /** With the creation time set: one entry for a pending or cancelled
      order, two for a confirmed or processing one, three for a shipped one,
      four for a delivered one. */
  lemma TimelineLength(status: OrderStatus, createdAt: Time, updatedAt: Option<Time>)
    ensures var n := |Timeline(status, Some(createdAt), updatedAt)|;
      && (status == Pending || status == Cancelled ==> n == 1)
      && (status == Confirmed || status == Processing ==> n == 2)
      && (status == Shipped ==> n == 3)
      && (status == Delivered ==> n == 4)
  {
  }

  /** The timeline only grows along the fulfilment path: a status no
      further along than another has a prefix of the other's timeline, so
      every timeline is a prefix of the delivered one. */
  lemma TimelineMonotone(s1: OrderStatus, s2: OrderStatus, createdAt: Option<Time>, updatedAt: Option<Time>)
    requires Stage(s1) <= Stage(s2)
    ensures Timeline(s1, createdAt, updatedAt) <= Timeline(s2, createdAt, updatedAt)
    ensures Timeline(s1, createdAt, updatedAt) <= Timeline(Delivered, createdAt, updatedAt)
  {
    TimelinePrefix(s1, s2, createdAt, updatedAt);
    TimelinePrefix(s1, Delivered, createdAt, updatedAt);
  }

  /** A status no further along has a prefix of the other's timeline. */
  lemma TimelinePrefix(s1: OrderStatus, s2: OrderStatus, createdAt: Option<Time>, updatedAt: Option<Time>)
    requires Stage(s1) <= Stage(s2)
    ensures Timeline(s1, createdAt, updatedAt) <= Timeline(s2, createdAt, updatedAt)
  {
    var t1, t2 := Timeline(s1, createdAt, updatedAt), Timeline(s2, createdAt, updatedAt);
    assert t1 == t2[..|t1|];
  }

  class Order {
    const user: UserId
    var items: seq<LineItem>
    var shippingAddress: ShippingAddress
    var paymentMethod: PaymentMethod
    var paymentStatus: PaymentStatus
    var subtotal: int
    var shippingCost: int
    var tax: int
    var total: int
    var currency: string
    var orderStatus: OrderStatus
    var isGift: bool
    var createdAt: Option<Time>
    var updatedAt: Option<Time>

    /** The schema's `min: 1` on line quantities and its required address
      fields. */
    predicate Valid()
      reads this
    {
      PositiveQuantities(items) && AddressComplete(shippingAddress)
    }

    /** A new order with the schema defaults: payment and order status
      pending, no shipping cost or tax, `USD`, not a gift, and no timestamps
      until it is first stored. */
    constructor (user: UserId, items: seq<LineItem>, shippingAddress: ShippingAddress,
                 paymentMethod: PaymentMethod, subtotal: int, total: int)
      requires PositiveQuantities(items) && AddressComplete(shippingAddress)
      ensures Valid()
      ensures this.user == user && this.items == items && this.shippingAddress == shippingAddress
      ensures this.paymentMethod == paymentMethod && this.subtotal == subtotal && this.total == total
      ensures paymentStatus == PaymentPending && orderStatus == Pending
      ensures shippingCost == 0 && tax == 0 && currency == "USD" && !isGift
      ensures createdAt.None? && updatedAt.None?
    {
      this.user, this.items, this.shippingAddress := user, items, shippingAddress;
      this.paymentMethod, this.subtotal, this.total := paymentMethod, subtotal, total;
      paymentStatus, orderStatus := PaymentPending, Pending;
      shippingCost, tax, currency, isGift := 0, 0, "USD", false;
      createdAt, updatedAt := None, None;
    }

    /** `calculateTotals()`: the subtotal is the sum of the line totals and
      the total adds shipping and tax; nothing else changes. */
    method CalculateTotals()
      modifies this
      ensures subtotal == Subtotal(items) && total == subtotal + shippingCost + tax
      ensures items == old(items) && shippingCost == old(shippingCost) && tax == old(tax)
      ensures shippingAddress == old(shippingAddress) && paymentMethod == old(paymentMethod)
      ensures paymentStatus == old(paymentStatus) && orderStatus == old(orderStatus)
      ensures currency == old(currency) && isGift == old(isGift)
      ensures createdAt == old(createdAt) && updatedAt == old(updatedAt)
      ensures Valid() <==> old(Valid())
    {
      subtotal := SumLines(items);
      total := subtotal + shippingCost + tax;
    }

    /** `getStatusTimeline()`: pushes the steps this order has reached,
      in fulfilment order. */
    method GetStatusTimeline() returns (timeline: seq<TimelineEntry>)
      ensures timeline == Timeline(orderStatus, createdAt, updatedAt)
    {
      var stage := Stage(orderStatus);
      timeline := [];
      if createdAt.Some? {
        timeline := timeline + [TimelineEntry(PlacedStep, createdAt, PlacedNote)];
      }
      ghost var placed := timeline;
      if orderStatus == Confirmed || orderStatus == Processing || orderStatus == Shipped || orderStatus == Delivered {
        timeline := timeline + [TimelineEntry(ConfirmedStep, updatedAt, ConfirmedNote)];
      }
      assert timeline == placed + (if stage >= 1 then [TimelineEntry(ConfirmedStep, updatedAt, ConfirmedNote)] else []);
      ghost var confirmed := timeline;
      if orderStatus == Shipped || orderStatus == Delivered {
        timeline := timeline + [TimelineEntry(ShippedStep, updatedAt, ShippedNote)];
      }
      assert timeline == confirmed + (if stage >= 2 then [TimelineEntry(ShippedStep, updatedAt, ShippedNote)] else []);
      ghost var shipped := timeline;
      if orderStatus == Delivered {
        timeline := timeline + [TimelineEntry(DeliveredStep, updatedAt, DeliveredNote)];
      }
      assert timeline == shipped + (if stage >= 3 then [TimelineEntry(DeliveredStep, updatedAt, DeliveredNote)] else []);
    }
  }
}
