/** The provider-commission refund row: shown to the provider only, with the
    total of the first reversed provider-commission item. */
module ProviderCommissionRefund {
  import opened Support
  import opened LineItemTypes

  /** TeacherLineItemProviderCommissionRefundMaybe: None when the row is not
      shown, Some(t) when it shows the refund item's line total `t`. */
  function RefundAmount(isProvider: bool, items: seq<LineItem>): (r: Option<Option<Money>>)
    ensures r.Some? <==> isProvider && FirstReversal(LINE_ITEM_PROVIDER_COMMISSION, items).Some?
    ensures r.Some? ==> r.value == items[FirstReversal(LINE_ITEM_PROVIDER_COMMISSION, items).value].lineTotal
  {
    match FirstReversal(LINE_ITEM_PROVIDER_COMMISSION, items)
    case None => None
    case Some(k) => if isProvider then Some(items[k].lineTotal) else None
  }
}
