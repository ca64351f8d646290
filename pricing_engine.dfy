/** The pricing engine: from a listing and a booking window, the line items a
    booking is charged with — the booking itself, the provider's commission and
    the customer's commission. */
module PricingEngine {
  import opened Support
  import opened Calendar
  import opened LineItemTypes
  import opened ListingData
  import opened LineItemHelpers

  /** The booking unit every booking is priced in. */
  const bookingUnitType: string := LINE_ITEM_NIGHT
  const PROVIDER_COMMISSION_PERCENTAGE: int := -25
  const CUSTOMER_COMMISSION_PERCENTAGE: int := -15
  /** The largest number of line items a transaction may carry. */
  const MAX_LINE_ITEMS: nat := 50

  /** The booking data the engine reads: the booking's start and end. */
  datatype BookingData = BookingData(startDate: Instant, endDate: Instant)

  /** `publicData && publicData.numberOfHours`: the listing's session length,
      when the listing has public data that sets one. */
  function SessionHour(listing: Listing): Option<nat> {
    match listing.publicData
    case None => None
    case Some(pd) => pd.numberOfHours
  }

  /** The booking line item: the listing's price per unit, for as many units
      as the session length when it is truthy, else as the nights booked. */
  function BookingLineItem(listing: Listing, bookingData: BookingData): LineItem {
    var sessionHour := SessionHour(listing);
    var quantity :=
      if !Truthy(sessionHour) then QuantityFromDates(bookingData.startDate, bookingData.endDate)
      else sessionHour.value;
    LineItem(bookingUnitType, listing.price, Some(quantity), None, None, None, None,
             [Customer, Provider], false)
  }

  /** transactionLineItems: booking, provider commission and customer
      commission, in that order. Each commission is priced on a total computed
      from the booking item alone. */
  function TransactionLineItems(listing: Listing, bookingData: BookingData): (r: seq<LineItem>)
    ensures |r| == 3 <= MAX_LINE_ITEMS
    ensures r[0].code == bookingUnitType
    ensures r[1].code == LINE_ITEM_PROVIDER_COMMISSION
    ensures r[2].code == LINE_ITEM_CUSTOMER_COMMISSION
    ensures forall k :: 0 <= k < |r| ==> SinglePricingMethod(r[k]) && r[k].lineTotal.None? && !r[k].reversal
    ensures PricedByQuantity(r[0]) && PricedByPercentage(r[1]) && PricedByPercentage(r[2])
    ensures r[1].percentage == Some(PROVIDER_COMMISSION_PERCENTAGE) && r[2].percentage == Some(CUSTOMER_COMMISSION_PERCENTAGE)
    ensures r[1].percentage.value < 0 && r[2].percentage.value < 0
    ensures r[0].unitPrice == listing.price
    ensures r[0].includeFor == [Customer, Provider]
    ensures r[1].includeFor == [Provider] && r[2].includeFor == [Customer]
  {
    var booking := BookingLineItem(listing, bookingData);
    TotalOfQuantityItem(booking);
    CustomerTotalOfCustomerItems([booking]);
    var providerCommission :=
      LineItem(LINE_ITEM_PROVIDER_COMMISSION, TotalFromLineItems([booking]).value, None,
               Some(PROVIDER_COMMISSION_PERCENTAGE), None, None, None, [Provider], false);
    var customerCommission :=
      LineItem(LINE_ITEM_CUSTOMER_COMMISSION, TotalForCustomer([booking]).value, None,
               Some(CUSTOMER_COMMISSION_PERCENTAGE), None, None, None, [Customer], false);
    [booking, providerCommission, customerCommission]
  }

  /** A truthy session length is the booking quantity, and the booking dates
      are then not consulted at all. */
  lemma SessionHourOverridesDates(listing: Listing, b1: BookingData, b2: BookingData)
    requires Truthy(SessionHour(listing))
    ensures TransactionLineItems(listing, b1)[0].quantity == SessionHour(listing)
    ensures TransactionLineItems(listing, b1) == TransactionLineItems(listing, b2)
  {
  }

  /** Without a truthy session length the quantity is the number of nights
      between the booking dates. */
  lemma DatesGiveQuantity(listing: Listing, bookingData: BookingData)
    requires !Truthy(SessionHour(listing))
    ensures TransactionLineItems(listing, bookingData)[0].quantity
         == Some(QuantityFromDates(bookingData.startDate, bookingData.endDate))
  {
  }

  /** Both commissions are priced on the booking's total, unit price times
      quantity: the provider's from the booking item's total, the customer's
      from the customer total of the same single item. */
  lemma CommissionsPricedOnBookingTotal(listing: Listing, bookingData: BookingData)
    ensures var r := TransactionLineItems(listing, bookingData);
      && r[1].unitPrice == r[0].unitPrice * r[0].quantity.value
      && r[2].unitPrice == r[1].unitPrice
  {
    var booking := BookingLineItem(listing, bookingData);
    TotalOfQuantityItem(booking);
    CustomerTotalOfCustomerItems([booking]);
  }

  /** Only the booking item and the provider commission count for the
      provider; only the booking item and the customer commission count for
      the customer. */
  lemma RolesSeeTheirCommissionOnly(listing: Listing, bookingData: BookingData)
    ensures var r := TransactionLineItems(listing, bookingData);
      && (forall k :: 0 <= k < |r| && IncludesFor(r[k], Provider) <==> k == 0 || k == 1)
      && (forall k :: 0 <= k < |r| && IncludesFor(r[k], Customer) <==> k == 0 || k == 2)
  {
  }
}
