/** The booking-period row of the breakdown: which instants are shown as the
    booking's start and end, and with which formats. */
module LineItemBookingPeriod {
  import opened Support
  import opened Calendar
  import opened LineItemTypes

  /** The date type that asks for dates without times. */
  const DATE_TYPE_DATE: string := "date"

  /** The weekday/time part of each end: the long weekday alone, or the short
      weekday with hour and minute. */
  datatype TimeFormat = LongWeekday | ShortWeekdayHourMinute

  /** The date part of each end: short month and numeric day. */
  datatype DateFormat = MonthShortDayNumeric

  /** The booking's attributes: the reserved start and end, and the optional
      times to show instead of them. */
  datatype BookingTimes = BookingTimes(
    start: Instant,
    end: Instant,
    displayStart: Option<Instant>,
    displayEnd: Option<Instant>)

  /** What the row shows; both ends share one time format and one date format. */
  datatype PeriodView = PeriodView(
    startDate: Instant,
    endDate: Instant,
    timeFormat: TimeFormat,
    dateFormat: DateFormat)

  /** `displayEnd || end`: the end before the day shift. */
  function RawEnd(booking: BookingTimes): Instant {
    if booking.displayEnd.Some? then booking.displayEnd.value else booking.end
  }

  /** TeacherLineItemBookingPeriod. A nightly booking shows its end as is; any
      other unit shows the end one day earlier. */
  function BookingPeriod(booking: BookingTimes, unitType: string, dateType: Option<string>): (r: PeriodView)
    ensures booking.displayStart.Some? ==> r.startDate == booking.displayStart.value
    ensures booking.displayStart.None? ==> r.startDate == booking.start
    ensures unitType == LINE_ITEM_NIGHT ==> r.endDate == RawEnd(booking)
    ensures unitType != LINE_ITEM_NIGHT ==> AddDays(r.endDate, 1) == RawEnd(booking)
    ensures r.timeFormat == LongWeekday <==> dateType == Some(DATE_TYPE_DATE)
    ensures r.dateFormat == MonthShortDayNumeric
  {
    var localStartDate := if booking.displayStart.Some? then booking.displayStart.value else booking.start;
    var localEndDateRaw := RawEnd(booking);
    var endDay := if unitType == LINE_ITEM_NIGHT then localEndDateRaw else AddDays(localEndDateRaw, -1);
    var timeFormat := if dateType == Some(DATE_TYPE_DATE) then LongWeekday else ShortWeekdayHourMinute;
    PeriodView(localStartDate, endDay, timeFormat, MonthShortDayNumeric)
  }

  /** For a booking from `start` to the same hour one day later (what the
      booking form makes without an end hour), a non-nightly unit shows the
      start instant as the end, and the nightly unit shows the next day. */
  lemma OneDayBookingShownAsOneDay(start: Instant, unitType: string, dateType: Option<string>)
    ensures var r := BookingPeriod(BookingTimes(start, AddDays(start, 1), None, None), unitType, dateType);
      && r.startDate == start
      && r.endDate.day == (if unitType == LINE_ITEM_NIGHT then start.day + 1 else start.day)
      && r.endDate.hour == start.hour
  {
  }
}
