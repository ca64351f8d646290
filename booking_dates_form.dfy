/** The booking form: turns the chosen day and the selected start and end hours
    into the booking window sent to the pricing engine, and derives the session
    length and the single end-time option it offers. */
module BookingDatesForm {
  import opened Support
  import opened Calendar
  import opened ListingData
  import opened LineItemHelpers
  import PricingEngine

  /** The session length used when the listing sets none. */
  const DEFAULT_SESSION_HOUR: nat := 8

  /** The `{startDate, endDate}` object, as values: empty when no date is chosen. */
  datatype Window = NoWindow | Window(startDate: Instant, endDate: Instant)

  /** What getDateTimeBooking returns for a chosen date holding `date` (None:
      no date chosen), start hour `from` and end hour `to` (None: not selected).
      setHours on the chosen date happens before the copy for the end is
      taken, so the end is the day after the start, not after the chosen date. */
  function DateTimeBooking(date: Option<Instant>, from: Option<nat>, to: Option<nat>): (r: Window)
    ensures r.NoWindow? <==> date.None?
    ensures r.Window? && from.Some? ==> r.startDate == WithHours(date.value, from.value)
    ensures r.Window? && from.None? ==> r.startDate == date.value
    ensures r.Window? && to.None? ==> r.endDate == AddDays(r.startDate, 1)
    ensures r.Window? && to.Some? ==>
      && r.endDate.hour == to.value % HoursPerDay
      && r.endDate.day == r.startDate.day + 1 + to.value / HoursPerDay
  {
    match date
    case None => NoWindow
    case Some(d) =>
      var start := if from.Some? then WithHours(d, from.value) else d;
      var next := AddDays(start, 1);
      Window(start, if to.Some? then WithHours(next, to.value) else next)
  }

  /** getDateTimeBooking on Date objects. With a start hour, the caller's date
      itself is moved to that hour and the start is a fresh copy; without one,
      the start is the caller's date object itself. The end is always fresh. */
  method GetDateTimeBooking(date: Date?, from: Option<nat>, to: Option<nat>)
    returns (startDate: Date?, endDate: Date?)
    modifies date
    ensures date == null ==> startDate == null && endDate == null
    ensures date != null ==> startDate != null && endDate != null
    ensures date != null ==>
      DateTimeBooking(Some(old(date.Value())), from, to) == Window(startDate.Value(), endDate.Value())
    ensures date != null ==> date.Value() == startDate.Value()
    ensures from.None? ==> startDate == date
    ensures from.Some? && date != null ==> fresh(startDate)
    ensures date != null ==> fresh(endDate)
  {
    if date == null {
      return null, null;
    }
    if from.Some? {
      date.SetHours(from.value);
      startDate := new Date.Copy(date.Value());
    } else {
      startDate := date;
    }
    var temp := new Date.Copy(date.Value());
    temp.AdvanceOneDay();
    if to.Some? {
      temp.SetHours(to.value);
    }
    endDate := new Date.Copy(temp.Value());
  }

  /** handleOnChange: line items are requested for exactly the window, and
      only when there is one and no request is already in progress. The
      chosen date object is left moved to the start hour, when one is set. */
  method HandleOnChange(date: Date?, startTime: Option<nat>, endTime: Option<nat>, fetchInProgress: bool)
    returns (request: Option<PricingEngine.BookingData>)
    modifies date
    ensures request.Some? <==> date != null && !fetchInProgress
    ensures date != null ==>
      date.Value() == (if startTime.Some? then WithHours(old(date.Value()), startTime.value) else old(date.Value()))
    ensures request.Some? ==>
      DateTimeBooking(Some(old(date.Value())), startTime, endTime)
        == Window(request.value.startDate, request.value.endDate)
  {
    var startDate, endDate := GetDateTimeBooking(date, startTime, endTime);
    if startDate != null && endDate != null && !fetchInProgress {
      request := Some(PricingEngine.BookingData(startDate.Value(), endDate.Value()));
    } else {
      request := None;
    }
  }

  /** handleFormSubmit: forwards the window when a date is chosen. Without one
      the source calls `preventDefault` on the submitted form values, which
      have no such method, so the call throws. With a date, the date object
      is left moved to the start hour, when one is set. */
  method HandleFormSubmit(date: Date?, startTime: Option<nat>, endTime: Option<nat>)
    returns (submitted: Result<PricingEngine.BookingData>)
    modifies date
    ensures submitted.Ok? <==> date != null
    ensures date != null ==>
      date.Value() == (if startTime.Some? then WithHours(old(date.Value()), startTime.value) else old(date.Value()))
    ensures submitted.Ok? ==>
      DateTimeBooking(Some(old(date.Value())), startTime, endTime)
        == Window(submitted.value.startDate, submitted.value.endDate)
  {
    if date == null {
      submitted := Err(TypeError("e.preventDefault is not a function"));
    } else {
      var startDate, endDate := GetDateTimeBooking(date, startTime, endTime);
      submitted := Ok(PricingEngine.BookingData(startDate.Value(), endDate.Value()));
    }
  }

  /** sessionHour: the listing's truthy `numberOfHours`, else 8. A listing
      without public data makes the read throw. */
  function SessionHour(listing: Option<Listing>): (r: Result<nat>)
    ensures r.Err? <==> listing.Some? && listing.value.publicData.None?
    ensures r.Ok? ==> r.value >= 1
    ensures r.Ok? && listing.Some? && Truthy(PricingEngine.SessionHour(listing.value)) ==>
      r.value == PricingEngine.SessionHour(listing.value).value
    ensures r.Ok? && (listing.None? || !Truthy(PricingEngine.SessionHour(listing.value))) ==>
      r.value == DEFAULT_SESSION_HOUR
  {
    match listing
    case None => Ok(DEFAULT_SESSION_HOUR)
    case Some(l) =>
      match l.publicData
      case None => Err(TypeError("publicData is undefined"))
      case Some(pd) => Ok(if Truthy(pd.numberOfHours) then pd.numberOfHours.value else DEFAULT_SESSION_HOUR)
  }

  /** The start-time options: the single hour 8 for an eight-hour session,
      otherwise the options generated for the session length by a helper that
      is not part of this model (passed in as `generated`). */
  function StartTimeOptions(sessionHour: nat, generated: seq<nat>): seq<nat> {
    if sessionHour == DEFAULT_SESSION_HOUR then [8] else generated
  }

  /** The single end-time option: the start hour plus the session length. With
      no start hour the key is not a number and no option is offered; an option
      whose key parses to 0 is not offered either. */
  function EndTimeOption(startTime: Option<nat>, sessionHour: nat): (r: Option<nat>)
    ensures r.Some? <==> startTime.Some? && startTime.value + sessionHour != 0
    ensures r.Some? ==> r.value - startTime.value == sessionHour
  {
    match startTime
    case None => None
    case Some(s) => if s + sessionHour != 0 then Some(s + sessionHour) else None
  }

  /** The form and the engine agree on the session length: when the listing's
      `numberOfHours` is truthy, the form's session length is the engine's
      booking quantity. */
  lemma FormSessionIsEngineQuantity(listing: Listing, bookingData: PricingEngine.BookingData)
    requires listing.publicData.Some?
    requires Truthy(PricingEngine.SessionHour(listing))
    ensures SessionHour(Some(listing)).Ok?
    ensures PricingEngine.TransactionLineItems(listing, bookingData)[0].quantity
         == Some(SessionHour(Some(listing)).value)
  {
    PricingEngine.SessionHourOverridesDates(listing, bookingData, bookingData);
  }

  /** A window made by the form spans one night, plus one more for every 24
      hours in the end hour; priced by dates, that is the booking quantity. */
  lemma {:induction false} FormWindowNights(listing: Listing, date: Instant, from: Option<nat>, to: Option<nat>)
    requires !Truthy(PricingEngine.SessionHour(listing))
    ensures var w := DateTimeBooking(Some(date), from, to);
      var nights := 1 + (if to.Some? then to.value / HoursPerDay else 0);
      && QuantityFromDates(w.startDate, w.endDate) == nights
      && PricingEngine.TransactionLineItems(listing, PricingEngine.BookingData(w.startDate, w.endDate))[0].quantity
         == Some(nights)
  {
    var w := DateTimeBooking(Some(date), from, to);
    PricingEngine.DatesGiveQuantity(listing, PricingEngine.BookingData(w.startDate, w.endDate));
  }

  /** Without a session length the form offers only 8:00 to 16:00, and the
      window it then makes is priced as exactly one night. */
  lemma DefaultSessionIsOneNight(listing: Listing, date: Instant)
    requires listing.publicData.Some? && !Truthy(PricingEngine.SessionHour(listing))
    ensures SessionHour(Some(listing)) == Ok(DEFAULT_SESSION_HOUR)
    ensures forall generated :: StartTimeOptions(DEFAULT_SESSION_HOUR, generated) == [8]
    ensures EndTimeOption(Some(8), DEFAULT_SESSION_HOUR) == Some(16)
    ensures var w := DateTimeBooking(Some(date), Some(8), Some(16));
      PricingEngine.TransactionLineItems(listing, PricingEngine.BookingData(w.startDate, w.endDate))[0].quantity
        == Some(1)
  {
    FormWindowNights(listing, date, Some(8), Some(16));
  }
}
