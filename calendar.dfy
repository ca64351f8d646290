/** Dates as the booking code uses them, abstracted to a day index and an hour.
    Time zones, minutes and the month/year arithmetic inside JavaScript's Date
    are not modelled: consecutive calendar days have consecutive indexes. */
module Calendar {

  const HoursPerDay: nat := 24

  /** A point in time: `day` counts calendar days from a fixed origin, `hour`
      is the hour of that day (below 24 for every value a Date can hold). */
  datatype Instant = Instant(day: int, hour: nat)

  predicate InRange(t: Instant) {
    t.hour < HoursPerDay
  }

  /** The instant `Date.prototype.setHours(h)` leaves behind: the hour becomes
      `h`, and whole days in `h` carry over into the date, as JavaScript does. */
  function WithHours(t: Instant, h: nat): (r: Instant)
    ensures InRange(r)
    ensures r.day * HoursPerDay + r.hour == t.day * HoursPerDay + h
    ensures h < HoursPerDay ==> r == Instant(t.day, h)
  {
    Instant(t.day + h / HoursPerDay, h % HoursPerDay)
  }

  /** The same hour `n` calendar days later (earlier for a negative `n`). */
  function AddDays(t: Instant, n: int): Instant {
    Instant(t.day + n, t.hour)
  }

  /** A mutable JavaScript Date object. */
  class Date {
    var day: int
    var hour: nat

    function Value(): Instant
      reads this
    {
      Instant(day, hour)
    }

    /** `new Date(other)`: a fresh object holding the same instant. */
    constructor Copy(t: Instant)
      ensures Value() == t
    {
      day, hour := t.day, t.hour;
    }

    /** `date.setHours(h)`: changes this object in place. */
    method SetHours(h: nat)
      modifies this
      ensures Value() == WithHours(old(Value()), h)
    {
      day, hour := day + h / HoursPerDay, h % HoursPerDay;
    }

    /** `date.setDate(date.getDate() + 1)`: the same hour on the next calendar day. */
    method AdvanceOneDay()
      modifies this
      ensures Value() == AddDays(old(Value()), 1)
    {
      day := day + 1;
    }
  }
}
