/** Date and time values as integer ticks (100 ns units), the representation
    behind .NET's DateTime and TimeSpan. The calendar date of an instant is the
    largest whole day not after it, and its time of day is what remains. */
module Times {

  const TicksPerSecond: int := 10_000_000
  const TicksPerMinute: int := 60 * TicksPerSecond
  const TicksPerHour: int := 60 * TicksPerMinute
  const TicksPerDay: int := 24 * TicksPerHour

  /** DateTime.Date: midnight at the start of the instant's day. */
  function Date(t: int): (d: int)
    ensures d % TicksPerDay == 0
    ensures d <= t < d + TicksPerDay
  {
    t - t % TicksPerDay
  }

  /** DateTime.TimeOfDay: the time elapsed since midnight. */
  function TimeOfDay(t: int): (r: int)
    ensures 0 <= r < TicksPerDay
    ensures Date(t) + r == t
  {
    t % TicksPerDay
  }

  /** DateTime.AddDays with a whole number of days. */
  function AddDays(t: int, days: int): (r: int)
    ensures TimeOfDay(r) == TimeOfDay(t)
    ensures Date(r) == Date(t) + days * TicksPerDay
  {
    DateAndTime(Date(t) + days * TicksPerDay, TimeOfDay(t));
    t + days * TicksPerDay
  }

  /** A midnight plus a time of day within one day splits back into the two. */
  lemma DateAndTime(d: int, time: int)
    requires d % TicksPerDay == 0
    requires 0 <= time < TicksPerDay
    ensures Date(d + time) == d
    ensures TimeOfDay(d + time) == time
  {
    var q := d / TicksPerDay;
    assert d == q * TicksPerDay;
    assert d + time == q * TicksPerDay + time;
  }

  /** DateTime.Year for an instant on or after 1 January of year 1: the
      400-, 100-, 4- and 1-year cycles of the Gregorian calendar. */
  function Year(t: int): (y: int)
    requires t >= 0
    ensures y >= 1
  {
    var n := t / TicksPerDay;
    var y400 := n / 146097;
    var n1 := n - y400 * 146097;
    var y100 := if n1 / 36524 == 4 then 3 else n1 / 36524;
    var n2 := n1 - y100 * 36524;
    var y4 := n2 / 1461;
    var n3 := n2 - y4 * 1461;
    var y1 := if n3 / 365 == 4 then 3 else n3 / 365;
    y400 * 400 + y100 * 100 + y4 * 4 + y1 + 1
  }
}
