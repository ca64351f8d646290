/** The booking breakdown: the rows shown for a transaction, in their fixed
    order, and the commission-fee note. Rows drawn by components whose source
    is not part of this model enter as flags saying whether they render. */
module BookingBreakdown {
  import opened Support
  import opened LineItemTypes
  import LineItemBookingPeriod
  import LineItemUnits
  import ProviderCommissionRefund
  import CustomerCommissionRefund

  datatype RoleFlags = RoleFlags(isCustomer: bool, isProvider: bool)

  /** `isCustomer` and `isProvider` from the viewer's transaction role. */
  function RoleFlagsOf(userRole: string): (r: RoleFlags)
    ensures r.isCustomer <==> userRole == "customer"
    ensures r.isProvider <==> userRole == "provider"
    ensures !(r.isCustomer && r.isProvider)
  {
    RoleFlags(userRole == "customer", userRole == "provider")
  }

  /** The find predicate: a commission item of the viewer's own side that is
      not a refund. */
  predicate MatchesCommission(flags: RoleFlags, item: LineItem) {
    var hasCustomerCommission := flags.isCustomer && item.code == LINE_ITEM_CUSTOMER_COMMISSION;
    var hasProviderCommission := flags.isProvider && item.code == LINE_ITEM_PROVIDER_COMMISSION;
    (hasCustomerCommission || hasProviderCommission) && !item.reversal
  }

  /** hasCommissionLineItem, as the index of the item found. */
  function CommissionLineItem(userRole: string, items: seq<LineItem>): (r: Option<nat>)
    ensures r.Some? ==> r.value < |items| && !items[r.value].reversal
    ensures r.Some? && userRole == "customer" ==> items[r.value].code == LINE_ITEM_CUSTOMER_COMMISSION
    ensures r.Some? && userRole == "provider" ==> items[r.value].code == LINE_ITEM_PROVIDER_COMMISSION
    ensures r.Some? ==> userRole == "customer" || userRole == "provider"
  {
    var flags := RoleFlagsOf(userRole);
    FindIndex(items, item => MatchesCommission(flags, item))
  }

  /** Stated on the role string alone: the customer's commission for a
      customer, the provider's for a provider, never a refund. */
  predicate IsOwnCommission(userRole: string, item: LineItem) {
    && !item.reversal
    && ((userRole == "customer" && item.code == LINE_ITEM_CUSTOMER_COMMISSION) ||
        (userRole == "provider" && item.code == LINE_ITEM_PROVIDER_COMMISSION))
  }

  /** The note is shown exactly when the viewer's own commission is among the
      line items and is not a refund. */
  lemma CommissionNoteShownIff(userRole: string, items: seq<LineItem>)
    ensures CommissionLineItem(userRole, items).Some? <==>
      exists k :: 0 <= k < |items| && IsOwnCommission(userRole, items[k])
  {
    var flags := RoleFlagsOf(userRole);
    if k :| 0 <= k < |items| && IsOwnCommission(userRole, items[k]) {
      assert MatchesCommission(flags, items[k]);
    }
  }

  /** One row of the breakdown. */
  datatype Row =
    | PeriodRow(period: LineItemBookingPeriod.PeriodView)
    | UnitsRow(quantity: Option<int>)
    | BasePriceRow
    | UnknownItemsRow
    | SubTotalRow
    | RefundRow
    | CustomerCommissionRow
    | CustomerCommissionRefundRow(amount: Option<Money>)
    | ProviderCommissionRow
    | ProviderCommissionRefundRow(amount: Option<Money>)
    | TotalPriceRow
    | CommissionFeeNote

  /** The position of each kind of row in the breakdown. */
  function Rank(row: Row): nat {
    match row
    case PeriodRow(_) => 0
    case UnitsRow(_) => 1
    case BasePriceRow => 2
    case UnknownItemsRow => 3
    case SubTotalRow => 4
    case RefundRow => 5
    case CustomerCommissionRow => 6
    case CustomerCommissionRefundRow(_) => 7
    case ProviderCommissionRow => 8
    case ProviderCommissionRefundRow(_) => 9
    case TotalPriceRow => 10
    case CommissionFeeNote => 11
  }

  /** Rows in strictly increasing rank: the fixed order, each kind at most once. */
  predicate InOrder(rows: seq<Row>) {
    forall i, j :: 0 <= i < j < |rows| ==> Rank(rows[i]) < Rank(rows[j])
  }

  /** Whether each row drawn by a component outside this model renders. */
  datatype UnseenRows = UnseenRows(
    basePrice: bool,
    unknownItems: bool,
    subTotal: bool,
    refund: bool,
    customerCommission: bool,
    providerCommission: bool,
    totalPrice: bool)

  function When(shown: bool, row: Row): Option<Row> {
    if shown then Some(row) else None
  }

  /** The rows that render, in slot order. */
  function Rendered(slots: seq<Option<Row>>): seq<Row> {
    if |slots| == 0 then []
    else (if slots[0].Some? then [slots[0].value] else []) + Rendered(slots[1..])
  }

  /** When every filled slot holds a row of rank `base` plus its position,
      the rendered rows are in order, have rank at least `base`, and are
      exactly the filled slots. */
  lemma {:induction false} RenderedInOrder(slots: seq<Option<Row>>, base: nat)
    requires forall k :: 0 <= k < |slots| && slots[k].Some? ==> Rank(slots[k].value) == base + k
    ensures InOrder(Rendered(slots))
    ensures forall i :: 0 <= i < |Rendered(slots)| ==> Rank(Rendered(slots)[i]) >= base
    ensures forall row :: row in Rendered(slots) <==> exists k :: 0 <= k < |slots| && slots[k] == Some(row)
  {
    if |slots| > 0 {
      var tail := slots[1..];
      assert forall k :: 0 <= k < |tail| && tail[k].Some? ==> Rank(tail[k].value) == base + 1 + k by {
        forall k | 0 <= k < |tail| && tail[k].Some? ensures Rank(tail[k].value) == base + 1 + k {
          assert tail[k] == slots[k + 1];
        }
      }
      RenderedInOrder(tail, base + 1);
      forall row ensures row in Rendered(slots) <==> exists k :: 0 <= k < |slots| && slots[k] == Some(row) {
        if row in Rendered(tail) {
          var k :| 0 <= k < |tail| && tail[k] == Some(row);
          assert slots[k + 1] == Some(row);
        }
        if k :| 0 <= k < |slots| && slots[k] == Some(row) {
          if k > 0 {
            assert tail[k - 1] == Some(row);
          }
        }
      }
    }
  }

  /** What each component renders, gathered for the slots. */
  datatype Parts = Parts(
    period: LineItemBookingPeriod.PeriodView,
    units: Option<Option<int>>,
    unseen: UnseenRows,
    customerRefund: Option<Option<Money>>,
    providerRefund: Option<Option<Money>>,
    note: bool)

  /** Slot `k` of the layout: the row the k-th component renders, if any. */
  function Slot(parts: Parts, k: nat): (r: Option<Row>)
    ensures r.Some? ==> Rank(r.value) == k
  {
    if k == 0 then Some(PeriodRow(parts.period))
    else if k == 1 then (if parts.units.Some? then Some(UnitsRow(parts.units.value)) else None)
    else if k == 2 then When(parts.unseen.basePrice, BasePriceRow)
    else if k == 3 then When(parts.unseen.unknownItems, UnknownItemsRow)
    else if k == 4 then When(parts.unseen.subTotal, SubTotalRow)
    else if k == 5 then When(parts.unseen.refund, RefundRow)
    else if k == 6 then When(parts.unseen.customerCommission, CustomerCommissionRow)
    else if k == 7 then
      (if parts.customerRefund.Some? then Some(CustomerCommissionRefundRow(parts.customerRefund.value)) else None)
    else if k == 8 then When(parts.unseen.providerCommission, ProviderCommissionRow)
    else if k == 9 then
      (if parts.providerRefund.Some? then Some(ProviderCommissionRefundRow(parts.providerRefund.value)) else None)
    else if k == 10 then When(parts.unseen.totalPrice, TotalPriceRow)
    else if k == 11 then When(parts.note, CommissionFeeNote)
    else None
  }

  /** The twelve slots in the order the component lays them out. */
  function Slots(parts: Parts): (r: seq<Option<Row>>)
    ensures |r| == 12
    ensures forall k :: 0 <= k < |r| ==> r[k] == Slot(parts, k)
  {
    seq(12, k requires 0 <= k => Slot(parts, k))
  }

  /** The rows that render, in layout order: exactly the rows the twelve
      components render. */
  function Layout(parts: Parts): (r: seq<Row>)
    ensures InOrder(r)
    ensures forall row :: row in r <==> exists k :: 0 <= k < 12 && Slot(parts, k) == Some(row)
    ensures |r| > 0 && r[0] == PeriodRow(parts.period)
    ensures CommissionFeeNote in r <==> parts.note
  {
    var slots := Slots(parts);
    RenderedInOrder(slots, 0);
    assert forall row :: row in Rendered(slots) <==> exists k :: 0 <= k < 12 && Slot(parts, k) == Some(row) by {
      forall row ensures row in Rendered(slots) <==> exists k :: 0 <= k < 12 && Slot(parts, k) == Some(row) {
        if k :| 0 <= k < 12 && Slot(parts, k) == Some(row) {
          assert slots[k] == Some(row);
        }
      }
    }
    assert Rendered(slots)[0] == slots[0].value;
    assert CommissionFeeNote in Rendered(slots) <==> parts.note by {
      if CommissionFeeNote in Rendered(slots) {
        var k :| 0 <= k < |slots| && slots[k] == Some(CommissionFeeNote);
        assert Rank(slots[k].value) == k;
      }
      if parts.note {
        assert slots[11] == Some(CommissionFeeNote);
      }
    }
    Rendered(slots)
  }

  /** A row is in the layout exactly when the slot of its own rank holds it. */
  lemma InLayoutIff(parts: Parts, row: Row)
    ensures row in Layout(parts) <==> Slot(parts, Rank(row)) == Some(row)
  {
    if row in Layout(parts) {
      var k :| 0 <= k < 12 && Slot(parts, k) == Some(row);
      assert Rank(row) == k;
    } else {
      assert Rank(row) < 12;
    }
  }

  /** The units row and the two refund rows are in the layout exactly when
      their components render them, holding what those components show. */
  lemma LayoutShowsParts(parts: Parts)
    ensures forall q :: UnitsRow(q) in Layout(parts) <==> parts.units == Some(q)
    ensures forall a :: CustomerCommissionRefundRow(a) in Layout(parts) <==> parts.customerRefund == Some(a)
    ensures forall a :: ProviderCommissionRefundRow(a) in Layout(parts) <==> parts.providerRefund == Some(a)
  {
    forall q ensures UnitsRow(q) in Layout(parts) <==> parts.units == Some(q) {
      InLayoutIff(parts, UnitsRow(q));
    }
    forall a ensures CustomerCommissionRefundRow(a) in Layout(parts) <==> parts.customerRefund == Some(a) {
      InLayoutIff(parts, CustomerCommissionRefundRow(a));
    }
    forall a ensures ProviderCommissionRefundRow(a) in Layout(parts) <==> parts.providerRefund == Some(a) {
      InLayoutIff(parts, ProviderCommissionRefundRow(a));
    }
  }

  /** Whether the component outside this model that draws `row` renders;
      false for the rows drawn by modelled components. */
  function UnseenShown(unseen: UnseenRows, row: Row): bool {
    match row
    case BasePriceRow => unseen.basePrice
    case UnknownItemsRow => unseen.unknownItems
    case SubTotalRow => unseen.subTotal
    case RefundRow => unseen.refund
    case CustomerCommissionRow => unseen.customerCommission
    case ProviderCommissionRow => unseen.providerCommission
    case TotalPriceRow => unseen.totalPrice
    case _ => false
  }

  /** The rows drawn by components outside this model. */
  predicate IsUnseenRow(row: Row) {
    row.BasePriceRow? || row.UnknownItemsRow? || row.SubTotalRow? || row.RefundRow? ||
    row.CustomerCommissionRow? || row.ProviderCommissionRow? || row.TotalPriceRow?
  }

  /** Each row drawn by a component outside this model is in the layout
      exactly when that component renders. */
  lemma LayoutShowsUnseen(parts: Parts, row: Row)
    requires IsUnseenRow(row)
    ensures row in Layout(parts) <==> UnseenShown(parts.unseen, row)
  {
    InLayoutIff(parts, row);
  }

  /** TeacherBookingBreakdown: the rows, in order. The units row throws when
      the units item is missing, and then the whole breakdown does. */
  function Breakdown(
    userRole: string,
    unitType: string,
    dateType: Option<string>,
    booking: LineItemBookingPeriod.BookingTimes,
    items: seq<LineItem>,
    unseen: UnseenRows): (r: Result<seq<Row>>)
    ensures r.Err? <==> LineItemUnits.UnitsQuantity(unitType, items).Err?
    ensures r.Err? ==> r.error == LineItemMissing(unitType)
    ensures r.Ok? ==> InOrder(r.value)
    ensures r.Ok? ==> |r.value| > 0 && r.value[0] == PeriodRow(LineItemBookingPeriod.BookingPeriod(booking, unitType, dateType))
    ensures r.Ok? ==> (CommissionFeeNote in r.value <==> CommissionLineItem(userRole, items).Some?)
    ensures r.Ok? ==> forall q :: UnitsRow(q) in r.value <==>
      LineItemUnits.UnitsQuantity(unitType, items) == Ok(Some(q))
    ensures r.Ok? ==> forall a :: CustomerCommissionRefundRow(a) in r.value <==>
      CustomerCommissionRefund.RefundAmount(RoleFlagsOf(userRole).isCustomer, items) == Some(a)
    ensures r.Ok? ==> forall a :: ProviderCommissionRefundRow(a) in r.value <==>
      ProviderCommissionRefund.RefundAmount(RoleFlagsOf(userRole).isProvider, items) == Some(a)
    ensures r.Ok? ==> forall row :: IsUnseenRow(row) ==> (row in r.value <==> UnseenShown(unseen, row))
  {
    match LineItemUnits.UnitsQuantity(unitType, items)
    case Err(e) => Err(e)
    case Ok(units) =>
      var flags := RoleFlagsOf(userRole);
      var parts := Parts(
        LineItemBookingPeriod.BookingPeriod(booking, unitType, dateType),
        units,
        unseen,
        CustomerCommissionRefund.RefundAmount(flags.isCustomer, items),
        ProviderCommissionRefund.RefundAmount(flags.isProvider, items),
        CommissionLineItem(userRole, items).Some?);
      LayoutShowsParts(parts);
      assert forall row :: IsUnseenRow(row) ==> (row in Layout(parts) <==> UnseenShown(unseen, row)) by {
        forall row | IsUnseenRow(row) ensures row in Layout(parts) <==> UnseenShown(unseen, row) {
          LayoutShowsUnseen(parts, row);
        }
      }
      Ok(Layout(parts))
  }
}
