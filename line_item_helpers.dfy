/** The three helpers the pricing engine imports from `lineItemHelpers`, whose
    source is not part of this model. They are given only the meaning their
    names promise: sums of line totals over integer minor units, and a count of
    calendar nights between two dates. */
module LineItemHelpers {
  import opened Support
  import opened Calendar
  import opened LineItemTypes

  /** The total of one line item where it is a product of integers: unit price
      times quantity, or unit price times seats times units. A percentage item's
      total involves rounding that is not modelled, and an item with no pricing
      method has no total: both give None. */
  function LineTotal(item: LineItem): Option<Money> {
    if PricedByQuantity(item) then Some(item.unitPrice * item.quantity.value)
    else if PricedBySeatsAndUnits(item) then Some(item.unitPrice * item.seats.value * item.units.value)
    else None
  }

  /** calculateTotalFromLineItems: the sum of the items' line totals; defined
      exactly when every item has a modelled total. */
  function TotalFromLineItems(items: seq<LineItem>): (r: Option<Money>)
    ensures r.Some? <==> forall k :: 0 <= k < |items| ==> LineTotal(items[k]).Some?
  {
    if |items| == 0 then Some(0)
    else match (LineTotal(items[0]), TotalFromLineItems(items[1..]))
      case (Some(a), Some(b)) => Some(a + b)
      case _ => None
  }

  /** The items whose `includeFor` names the customer, in their order. */
  function CustomerItems(items: seq<LineItem>): (r: seq<LineItem>)
    ensures |r| <= |items|
    ensures forall k :: 0 <= k < |r| ==> IncludesFor(r[k], Customer)
  {
    if |items| == 0 then []
    else (if IncludesFor(items[0], Customer) then [items[0]] else []) + CustomerItems(items[1..])
  }

  /** The filter keeps each customer item as often as it occurs, and no other
      item. */
  lemma {:induction false} CustomerItemsCounts(items: seq<LineItem>)
    ensures forall x :: multiset(CustomerItems(items))[x] == (if IncludesFor(x, Customer) then multiset(items)[x] else 0)
    ensures forall x :: x in CustomerItems(items) <==> x in items && IncludesFor(x, Customer)
  {
    if |items| > 0 {
      CustomerItemsCounts(items[1..]);
      assert items == [items[0]] + items[1..];
      assert multiset(items) == multiset{items[0]} + multiset(items[1..]);
    }
  }

  /** Filtering keeps the order: the customer items of a concatenation are
      those of the first part followed by those of the second. */
  lemma {:induction false} CustomerItemsOfAppend(a: seq<LineItem>, b: seq<LineItem>)
    ensures CustomerItems(a + b) == CustomerItems(a) + CustomerItems(b)
  {
    if |a| == 0 {
      assert a + b == b;
    } else {
      assert (a + b)[0] == a[0];
      assert (a + b)[1..] == a[1..] + b;
      CustomerItemsOfAppend(a[1..], b);
    }
  }

  /** calculateTotalForCustomer: the total of the items included for the
      customer; defined exactly when each of those has a modelled total. */
  function TotalForCustomer(items: seq<LineItem>): (r: Option<Money>)
    ensures r.Some? <==> forall k :: 0 <= k < |items| && IncludesFor(items[k], Customer) ==> LineTotal(items[k]).Some?
  {
    var customerItems := CustomerItems(items);
    CustomerItemsCounts(items);
    assert (forall k :: 0 <= k < |customerItems| ==> LineTotal(customerItems[k]).Some?) <==>
      (forall k :: 0 <= k < |items| && IncludesFor(items[k], Customer) ==> LineTotal(items[k]).Some?) by {
      if forall k :: 0 <= k < |customerItems| ==> LineTotal(customerItems[k]).Some? {
        forall k | 0 <= k < |items| && IncludesFor(items[k], Customer) ensures LineTotal(items[k]).Some? {
          assert items[k] in customerItems;
        }
      }
      if forall k :: 0 <= k < |items| && IncludesFor(items[k], Customer) ==> LineTotal(items[k]).Some? {
        forall k | 0 <= k < |customerItems| ensures LineTotal(customerItems[k]).Some? {
          assert customerItems[k] in items;
        }
      }
    }
    TotalFromLineItems(customerItems)
  }

  /** Customer totals add up over concatenation. */
  lemma {:induction false} TotalForCustomerOfAppend(a: seq<LineItem>, b: seq<LineItem>)
    requires TotalForCustomer(a).Some? && TotalForCustomer(b).Some?
    ensures TotalForCustomer(a + b) == Some(TotalForCustomer(a).value + TotalForCustomer(b).value)
  {
    var ca, cb := CustomerItems(a), CustomerItems(b);
    CustomerItemsOfAppend(a, b);
    TotalOfAppend(ca, cb);
  }

  /** calculateQuantityFromDates for the nightly unit: the number of calendar
      nights from the start date to the end date. */
  function QuantityFromDates(startDate: Instant, endDate: Instant): (r: int)
    ensures AddDays(startDate, r).day == endDate.day
  {
    endDate.day - startDate.day
  }

  /** Totals add up over concatenation. */
  lemma {:induction false} TotalOfAppend(a: seq<LineItem>, b: seq<LineItem>)
    requires TotalFromLineItems(a).Some? && TotalFromLineItems(b).Some?
    ensures TotalFromLineItems(a + b) == Some(TotalFromLineItems(a).value + TotalFromLineItems(b).value)
  {
    if |a| == 0 {
      assert a + b == b;
    } else {
      assert (a + b)[1..] == a[1..] + b;
      TotalOfAppend(a[1..], b);
    }
  }

  /** When every item is included for the customer, the customer total is the
      plain total of the items. */
  lemma {:induction false} CustomerTotalOfCustomerItems(items: seq<LineItem>)
    requires forall k :: 0 <= k < |items| ==> IncludesFor(items[k], Customer)
    ensures CustomerItems(items) == items
    ensures TotalForCustomer(items) == TotalFromLineItems(items)
  {
    if |items| > 0 {
      CustomerTotalOfCustomerItems(items[1..]);
      assert [items[0]] + items[1..] == items;
    }
  }

  /** A single item priced by quantity totals unit price times quantity. */
  lemma TotalOfQuantityItem(item: LineItem)
    requires PricedByQuantity(item)
    ensures TotalFromLineItems([item]) == Some(item.unitPrice * item.quantity.value)
  {
    assert [item][1..] == [];
  }
}
