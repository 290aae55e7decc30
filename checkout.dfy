/** The checkout screen: the final total with or without a pickup point, the
    one-field address update, and the validation and record of a placed order. */
module Checkout {
  import opened Wrappers
  import opened Cart

  datatype Address = Address(fullName: string, addressLine1: string, addressLine2: string, city: string,
                             state: string, postalCode: string, country: string, phoneNumber: string)

  datatype AddressField = FullName | AddressLine1 | AddressLine2 | City | State | PostalCode | Country | PhoneNumber

  function Get(a: Address, f: AddressField): string {
    match f
    case FullName => a.fullName
    case AddressLine1 => a.addressLine1
    case AddressLine2 => a.addressLine2
    case City => a.city
    case State => a.state
    case PostalCode => a.postalCode
    case Country => a.country
    case PhoneNumber => a.phoneNumber
  }

  /** `handleInputChange(field, value)`: exactly that field takes the value. */
  function HandleInputChange(a: Address, f: AddressField, value: string): (r: Address)
    ensures Get(r, f) == value
    ensures forall g: AddressField | g != f :: Get(r, g) == Get(a, g)
  {
    match f
    case FullName => a.(fullName := value)
    case AddressLine1 => a.(addressLine1 := value)
    case AddressLine2 => a.(addressLine2 := value)
    case City => a.(city := value)
    case State => a.(state := value)
    case PostalCode => a.(postalCode := value)
    case Country => a.(country := value)
    case PhoneNumber => a.(phoneNumber := value)
  }

  /** The sum of every passed line's delivery fee (the `reduce` from 0). */
  function DeliveryFees(items: seq<Line>): int {
    if items == [] then 0 else items[0].deliveryFee + DeliveryFees(items[1..])
  }

  /** `calculateTotalPriceWithDelivery` as written: the passed-in total plus,
      unless a pickup point is used, every line's delivery fee. */
  function FinalTotalAsWritten(baseTotal: int, items: seq<Line>, usePickupPoint: bool): (r: int)
    ensures usePickupPoint ==> r == baseTotal
    ensures !usePickupPoint ==> r == baseTotal + DeliveryFees(items)
  {
    baseTotal + (if usePickupPoint then 0 else DeliveryFees(items))
  }

  /** The merchandise part of the selected lines: price times quantity, no fees. */
  function Merchandise(items: seq<Line>): int {
    if items == [] then 0 else items[0].price * items[0].quantity + Merchandise(items[1..])
  }

  lemma {:induction false} CostIsMerchandisePlusFees(items: seq<Line>)
    ensures SumCost(items) == Merchandise(items) + DeliveryFees(items)
  {
    if items != [] {
      CostIsMerchandisePlusFees(items[1..]);
    }
  }

  /** The cart's total already holds each selected line's delivery fee, so the
      as-written checkout total charges every fee twice without a pickup point,
      and still once with one. */
  lemma AsWrittenChargesFeesTwice(lines: seq<Line>, usePickupPoint: bool)
    ensures var items := SelectedItems(lines);
      FinalTotalAsWritten(TotalPrice(lines), items, usePickupPoint)
      == Merchandise(items) + (if usePickupPoint then 1 else 2) * DeliveryFees(items)
  {
    CostIsMerchandisePlusFees(SelectedItems(lines));
  }

  /** One selected $500 line with a $10 fee: the cart shows $510 and the
      as-written checkout total is $520 instead of $510. */
  lemma AsWrittenCounterexample()
    ensures var lines := [Line("1", "Nameera by Farooq", "Bridal Lehenga", 500, 1, 10, true)];
      TotalPrice(lines) == 510 && FinalTotalAsWritten(TotalPrice(lines), SelectedItems(lines), false) == 520
  {
    var lines := [Line("1", "Nameera by Farooq", "Bridal Lehenga", 500, 1, 10, true)];
    assert SelectedItems(lines) == lines by {
      assert lines[0].selected;
      assert lines[1..] == [];
    }
  }

  /** The checkout total with each delivery fee charged once, or not at all with
      a pickup point: the fees already inside the cart's total are taken out
      again when a pickup point is used. */
  function FinalTotal(baseTotal: int, items: seq<Line>, usePickupPoint: bool): int {
    if usePickupPoint then baseTotal - DeliveryFees(items) else baseTotal
  }

  /** For what the cart passes on, `FinalTotal` is the merchandise total plus the
      delivery fees, which a pickup point waives. */
  lemma FinalTotalChargesFeesOnce(lines: seq<Line>, usePickupPoint: bool)
    ensures var items := SelectedItems(lines);
      FinalTotal(TotalPrice(lines), items, usePickupPoint)
      == Merchandise(items) + (if usePickupPoint then 0 else DeliveryFees(items))
  {
    CostIsMerchandisePlusFees(SelectedItems(lines));
  }

  /** All shipping fields except the second address line are non-empty. */
  predicate AddressComplete(a: Address) {
    a.fullName != "" && a.addressLine1 != "" && a.city != "" && a.state != ""
    && a.postalCode != "" && a.country != "" && a.phoneNumber != ""
  }

  /** The second address line never decides validation. */
  lemma AddressLine2IsOptional(a: Address, line2: string)
    ensures AddressComplete(a.(addressLine2 := line2)) == AddressComplete(a)
  {
  }

  datatype OrderError = MissingAddressField | MissingPaymentMethod

  datatype Order = Order(cartItems: seq<Line>, totalPrice: int, shippingAddress: Address,
                         paymentMethod: string, status: string, usePickupPoint: bool)

  /** The validation and the record of `handlePlaceOrder` for a given total:
      the address check comes first, then the payment method (`null` or empty
      is missing). */
  function OrderFor(items: seq<Line>, total: int, address: Address, paymentMethod: Option<string>,
                    usePickupPoint: bool): Result<Order, OrderError>
  {
    if !AddressComplete(address) then Err(MissingAddressField)
    else if paymentMethod.None? || paymentMethod.value == "" then Err(MissingPaymentMethod)
    else Ok(Order(items, total, address, paymentMethod.value, "Pending", usePickupPoint))
  }

  /** `handlePlaceOrder` as written: a missing required address field is
      reported first, then a missing payment method; a placed order records the
      items, the as-written final total, the address, the payment method, the
      pickup flag and the status "Pending". */
  function PlaceOrder(items: seq<Line>, baseTotal: int, address: Address, paymentMethod: Option<string>,
                      usePickupPoint: bool): (r: Result<Order, OrderError>)
    ensures r == Err(MissingAddressField) <==> !AddressComplete(address)
    ensures r == Err(MissingPaymentMethod) <==>
      AddressComplete(address) && (paymentMethod.None? || paymentMethod.value == "")
    ensures r.Ok? ==> r.value == Order(items, FinalTotalAsWritten(baseTotal, items, usePickupPoint), address,
                                       paymentMethod.value, "Pending", usePickupPoint)
  {
    OrderFor(items, FinalTotalAsWritten(baseTotal, items, usePickupPoint), address, paymentMethod, usePickupPoint)
  }

  /** The order with the corrected total: the same validation, and a placed
      order records `FinalTotal`, which charges each delivery fee once. */
  function PlaceOrderCorrected(items: seq<Line>, baseTotal: int, address: Address, paymentMethod: Option<string>,
                               usePickupPoint: bool): (r: Result<Order, OrderError>)
    ensures r == Err(MissingAddressField) <==> !AddressComplete(address)
    ensures r == Err(MissingPaymentMethod) <==>
      AddressComplete(address) && (paymentMethod.None? || paymentMethod.value == "")
    ensures r.Ok? ==> r.value == Order(items, FinalTotal(baseTotal, items, usePickupPoint), address,
                                       paymentMethod.value, "Pending", usePickupPoint)
  {
    OrderFor(items, FinalTotal(baseTotal, items, usePickupPoint), address, paymentMethod, usePickupPoint)
  }

  /** The two orders succeed and fail together, and the as-written one records
      exactly one more charge of the delivery fees, with or without a pickup
      point. */
  lemma PlacedOrdersDifferByFees(items: seq<Line>, baseTotal: int, address: Address,
                                 paymentMethod: Option<string>, usePickupPoint: bool)
    ensures var asWritten := PlaceOrder(items, baseTotal, address, paymentMethod, usePickupPoint);
      var corrected := PlaceOrderCorrected(items, baseTotal, address, paymentMethod, usePickupPoint);
      asWritten.Ok? == corrected.Ok?
      && (asWritten.Ok? ==> asWritten.value.totalPrice == corrected.value.totalPrice + DeliveryFees(items))
  {
  }
}
