/** The customer-commission refund row: shown to the customer only, with the
    total of the first reversed customer-commission item. */
module CustomerCommissionRefund {
  import opened Support
  import opened LineItemTypes

  /** TeacherLineItemCustomerCommissionRefundMaybe: None when the row is not
      shown, Some(t) when it shows the refund item's line total `t`. */
  function RefundAmount(isCustomer: bool, items: seq<LineItem>): (r: Option<Option<Money>>)
    ensures r.Some? <==> isCustomer && FirstReversal(LINE_ITEM_CUSTOMER_COMMISSION, items).Some?
    ensures r.Some? ==> r.value == items[FirstReversal(LINE_ITEM_CUSTOMER_COMMISSION, items).value].lineTotal
  {
    match FirstReversal(LINE_ITEM_CUSTOMER_COMMISSION, items)
    case None => None
    case Some(k) => if isCustomer then Some(items[k].lineTotal) else None
  }
}
