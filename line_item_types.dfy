/** The line item: one priced component of a booking, as the pricing engine
    builds it and as the breakdown components read it back from a transaction. */
module LineItemTypes {
  import opened Support

  /** The two values an `includeFor` array may hold. */
  datatype Role = Customer | Provider

  // Line-item codes. The booking-unit codes are the ones a booking unit type may
  // take; the commission codes are the ones the commission components expect.
  const LINE_ITEM_NIGHT: string := "line-item/night"
  const LINE_ITEM_DAY: string := "line-item/day"
  const LINE_ITEM_UNITS: string := "line-item/units"
  const LINE_ITEM_PROVIDER_COMMISSION: string := "line-item/provider-commission"
  const LINE_ITEM_CUSTOMER_COMMISSION: string := "line-item/customer-commission"

  /** Money is an integer amount of the currency's minor unit (cents). */
  type Money = int

  /** A line item. Optional fields are the ones a JavaScript object may leave
      out; `reversal` is set on the refund items of a transaction. */
  datatype LineItem = LineItem(
    code: string,
    unitPrice: Money,
    quantity: Option<int>,
    percentage: Option<int>,
    seats: Option<int>,
    units: Option<int>,
    lineTotal: Option<Money>,
    includeFor: seq<Role>,
    reversal: bool)

  predicate PricedByQuantity(item: LineItem) {
    item.quantity.Some?
  }

  predicate PricedByPercentage(item: LineItem) {
    item.percentage.Some?
  }

  predicate PricedBySeatsAndUnits(item: LineItem) {
    item.seats.Some? && item.units.Some?
  }

  /** The documented rule: a line item has `quantity` or `percentage` or both
      `seats` and `units`. */
  predicate HasPricingMethod(item: LineItem) {
    PricedByQuantity(item) || PricedByPercentage(item) || PricedBySeatsAndUnits(item)
  }

  /** Stronger than the rule: exactly one of the three ways of pricing applies,
      and no stray `seats` or `units` field is present either. */
  predicate SinglePricingMethod(item: LineItem) {
    && HasPricingMethod(item)
    && (PricedByQuantity(item) ==> item.percentage.None? && item.seats.None? && item.units.None?)
    && (PricedByPercentage(item) ==> item.quantity.None? && item.seats.None? && item.units.None?)
  }

  predicate IncludesFor(item: LineItem, role: Role) {
    role in item.includeFor
  }

  /** A refund of the commission with the given code: an item with that code
      and `reversal` set. */
  predicate IsReversalOf(code: string, item: LineItem) {
    item.code == code && item.reversal
  }

  /** `lineItems.find(item => item.code === code && item.reversal)`, as an index. */
  function FirstReversal(code: string, items: seq<LineItem>): (r: Option<nat>)
    ensures r.Some? ==> r.value < |items| && IsReversalOf(code, items[r.value])
    ensures r.Some? ==> forall j :: 0 <= j < r.value ==> !IsReversalOf(code, items[j])
    ensures r.None? <==> forall j :: 0 <= j < |items| ==> !IsReversalOf(code, items[j])
  {
    FindIndex(items, item => IsReversalOf(code, item))
  }
}
