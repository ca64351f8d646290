/** The units row of the breakdown: the quantity of the booked units, shown
    only when bookings are priced in generic units. */
module LineItemUnits {
  import opened Support
  import opened LineItemTypes

  /** The item the row reads: the booking-unit item itself, not a refund of it. */
  predicate IsUnitPurchase(unitType: string, item: LineItem) {
    item.code == unitType && !item.reversal
  }

  /** TeacherLineItemUnitsMaybe: Ok(None) when the row is not shown, Ok(Some(q))
      when it shows quantity `q` (absent when the item has none), and an error
      when the unit type is units but no units item is found. */
  function UnitsQuantity(unitType: string, items: seq<LineItem>): (r: Result<Option<Option<int>>>)
    ensures unitType != LINE_ITEM_UNITS ==> r == Ok(None)
    ensures r.Err? <==>
      unitType == LINE_ITEM_UNITS && forall k :: 0 <= k < |items| ==> !IsUnitPurchase(unitType, items[k])
    ensures r.Err? ==> r.error == LineItemMissing(unitType)
    ensures unitType == LINE_ITEM_UNITS && r.Ok? ==> r.value.Some?
    ensures r.Ok? && r.value.Some? ==>
      exists k :: 0 <= k < |items| && IsUnitPurchase(unitType, items[k])
        && (forall j :: 0 <= j < k ==> !IsUnitPurchase(unitType, items[j]))
        && r.value.value == items[k].quantity
  {
    if unitType != LINE_ITEM_UNITS then Ok(None)
    else
      match FindIndex(items, item => IsUnitPurchase(unitType, item))
      case None => Err(LineItemMissing(unitType))
      case Some(k) => Ok(Some(items[k].quantity))
  }
}
