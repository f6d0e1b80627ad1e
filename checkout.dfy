/** The checkout form: the shipping-address check run before an order is
    placed, and the order data built from the loaded cart once it passes. */
module Checkout {
  import opened Common
  import opened Text
  import opened LineItems
  import opened OrderModel

  /** The form's fields. */
  datatype Field = FirstName | LastName | Email | Phone | Address | City | State | Country | ZipCode

  /** The required fields in the order the form checks them. */
  const RequiredFields: seq<Field> := [FirstName, LastName, Email, Phone, Address, City, State, Country, ZipCode]

  /** Where a field comes in the checking order. */
  function FieldIndex(f: Field): (i: nat)
    ensures i < |RequiredFields| && RequiredFields[i] == f
  {
    match f
    case FirstName => 0
    case LastName => 1
    case Email => 2
    case Phone => 3
    case Address => 4
    case City => 5
    case State => 6
    case Country => 7
    case ZipCode => 8
  }

  /** Every field is required exactly once. */
  lemma RequiredFieldsDistinct()
    ensures forall i :: 0 <= i < |RequiredFields| ==> FieldIndex(RequiredFields[i]) == i
  {
  }

  function FieldValue(info: ShippingAddress, f: Field): string {
    match f
    case FirstName => info.firstName
    case LastName => info.lastName
    case Email => info.email
    case Phone => info.phone
    case Address => info.address
    case City => info.city
    case State => info.state
    case Country => info.country
    case ZipCode => info.zipCode
  }

  /** The field name as the form's message spells it: non-empty, in lower
      case, words separated by single spaces. */
  function FieldLabel(f: Field): (r: string)
    ensures r != [] && r[0] != ' ' && r[|r| - 1] != ' '
    ensures forall k :: 0 <= k < |r| ==> r[k] == ' ' || 'a' <= r[k] <= 'z'
  {
    match f
    case FirstName => "first name"
    case LastName => "last name"
    case Email => "email"
    case Phone => "phone"
    case Address => "address"
    case City => "city"
    case State => "state"
    case Country => "country"
    case ZipCode => "zip code"
  }

  /** Different fields are reported under different labels. */
  lemma FieldLabelsDistinct(f: Field, g: Field)
    requires f != g
    ensures FieldLabel(f) != FieldLabel(g)
  {
  }

  /** A field the form treats as not filled in: one made of white space
      only, which is exactly one that trims to nothing (`TrimmedEmpty`). */
  predicate Blank(info: ShippingAddress, f: Field) {
    AllSpace(FieldValue(info, f))
  }

  /** A field is blank exactly when trimming leaves nothing of it, and a
      blank field is empty or white space. */
  lemma TrimmedEmpty(info: ShippingAddress, f: Field)
    ensures Blank(info, f) <==> Trim(FieldValue(info, f)) == ""
  {
  }

  /** Where the first blank field of `fields` is, if any. */
  function FirstBlank(info: ShippingAddress, fields: seq<Field>): Option<nat> {
    FirstIndex(fields, (f: Field) => Blank(info, f))
  }

  /** The outcome of the check: passed, a field left blank, or an e-mail
      address the pattern refuses. */
  datatype FormCheck = Passed | Missing(field: Field) | BadEmail {
    /** The message the form shows for a refusal: none for a form that
        passes, the blank field's label after a fixed prefix, or the e-mail
        message. */
    function Message(): (m: string)
      ensures m == [] <==> Passed?
      ensures Missing? ==> |m| > |FillIn| && m[..|FillIn|] == FillIn && m[|FillIn|..] == FieldLabel(field)
    {
      match this
      case Passed => ""
      case Missing(f) => FillIn + FieldLabel(f)
      case BadEmail => BadEmailNote
    }
  }

  const FillIn := "Please fill in "
  const BadEmailNote := "Please enter a valid email address"

  /** Different refusals show different messages. */
  lemma MessagesDistinct(a: FormCheck, b: FormCheck)
    requires a != b
    ensures a.Message() != b.Message()
  {
    if a.Missing? && b.Missing? {
      FieldLabelsDistinct(a.field, b.field);
    } else if a.Missing? && b.BadEmail? {
      assert a.Message()[7] == 'f' && b.Message()[7] == 'e';
    } else if a.BadEmail? && b.Missing? {
      assert a.Message()[7] == 'e' && b.Message()[7] == 'f';
    }
  }

  /** Every field is filled in. */
  predicate AllFilled(info: ShippingAddress) {
    forall f: Field :: !Blank(info, f)
  }

  /** Every field is filled in exactly when none of the required fields,
      taken in order, is blank. */
  lemma AllFilledRequired(info: ShippingAddress)
    ensures AllFilled(info) <==> forall j :: 0 <= j < |RequiredFields| ==> !Blank(info, RequiredFields[j])
  {
    if forall j :: 0 <= j < |RequiredFields| ==> !Blank(info, RequiredFields[j]) {
      forall f: Field ensures !Blank(info, f) {
        assert RequiredFields[FieldIndex(f)] == f;
      }
    }
  }

  /** `validateForm`: the first blank field in the checking order is
      reported; only when all nine are filled in is the e-mail pattern
      tried. The form passes exactly when every field is filled in and the
      e-mail matches. */
  function Validation(info: ShippingAddress): (r: FormCheck)
    ensures r == Passed <==> AllFilled(info) && MatchesEmailPattern(info.email)
    ensures r == BadEmail ==> AllFilled(info) && !MatchesEmailPattern(info.email)
    ensures r.Missing? ==> Blank(info, r.field)
    ensures r.Missing? ==> forall g: Field :: FieldIndex(g) < FieldIndex(r.field) ==> !Blank(info, g)
  {
    match FirstBlank(info, RequiredFields)
    case Some(i) =>
      FirstBlankField(info, i);
      Missing(RequiredFields[i])
    case None =>
      AllFilledRequired(info);
      if MatchesEmailPattern(info.email) then Passed else BadEmail
  }

  /** The first blank field in the checking order is blank, the form is not
      all filled in, and every field whose position is below it is filled
      in. */
  lemma FirstBlankField(info: ShippingAddress, i: nat)
    requires FirstBlank(info, RequiredFields) == Some(i)
    ensures i < |RequiredFields| && Blank(info, RequiredFields[i]) && !AllFilled(info)
    ensures FieldIndex(RequiredFields[i]) == i
    ensures forall g: Field :: FieldIndex(g) < i ==> !Blank(info, g)
  {
    RequiredFieldsDistinct();
    forall g: Field | FieldIndex(g) < i ensures !Blank(info, g) {
      assert RequiredFields[FieldIndex(g)] == g;
    }
  }

  /** The scan `validateForm` runs: the required fields in order, stopping
      at the first blank one, then the e-mail pattern. */
  method ValidateForm(info: ShippingAddress) returns (r: FormCheck)
    ensures r == Validation(info)
  {
    for i := 0 to |RequiredFields|
      invariant forall j :: 0 <= j < i ==> !Blank(info, RequiredFields[j])
    {
      if Blank(info, RequiredFields[i]) {
        FirstIndexAt(RequiredFields, (f: Field) => Blank(info, f), i);
        return Missing(RequiredFields[i]);
      }
    }
    assert FirstBlank(info, RequiredFields) == None;
    if !MatchesEmailPattern(info.email) {
      return BadEmail;
    }
    return Passed;
  }

  /** A form with every field filled in gives an address with every
      required field present. */
  lemma FilledAddressComplete(info: ShippingAddress)
    requires AllFilled(info)
    ensures AddressComplete(info)
  {
    assert !Blank(info, FirstName) && !Blank(info, LastName) && !Blank(info, Email);
    assert !Blank(info, Phone) && !Blank(info, Address) && !Blank(info, City);
    assert !Blank(info, State) && !Blank(info, Country) && !Blank(info, ZipCode);
  }

  /** The cart as the checkout page loaded it. */
  datatype CartView = CartView(items: seq<LineItem>, subtotal: int, shippingCost: int, tax: int, total: int)

  /** The order data `handleCheckout` assembles. */
  datatype OrderData = OrderData(
    items: seq<LineItem>, shippingAddress: ShippingAddress, paymentMethod: PaymentMethod,
    subtotal: int, shippingCost: int, tax: int, total: int)

  /** `handleCheckout`: nothing happens unless the form passes; then the
      order data carries the cart's lines and money fields unchanged, the
      form as the shipping address, and the `stripe` payment method. An
      order built from it has every address field filled in. */
  function CheckoutOrderData(cart: CartView, info: ShippingAddress): (r: Option<OrderData>)
    ensures r.Some? <==> Validation(info) == Passed
    ensures r.Some? ==>
      && r.value.items == cart.items && r.value.subtotal == cart.subtotal
      && r.value.shippingCost == cart.shippingCost && r.value.tax == cart.tax
      && r.value.total == cart.total && r.value.shippingAddress == info
      && PaymentMethodName(r.value.paymentMethod) == "stripe"
    ensures r.Some? ==> AddressComplete(r.value.shippingAddress)
  {
    if Validation(info) != Passed then None
    else
      FilledAddressComplete(info);
      Some(OrderData(cart.items, info, Stripe, cart.subtotal, cart.shippingCost, cart.tax, cart.total))
  }
}
