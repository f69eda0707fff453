/** Timestamps and the calendar arithmetic the routes perform with JavaScript `Date`. */
module Clock {

  /** Milliseconds since the Unix epoch. The stored ISO-8601 UTC strings are fixed-width, so their
      lexicographic order is the order of these integers. */
  type Time = int

  const MsPerDay: int := 86_400_000

  /** The calendar day of `t`: the `YYYY-MM-DD` prefix of `t.toISOString()`, numbered from the epoch. */
  function DayOf(t: Time): (d: int)
    ensures d * MsPerDay <= t < (d + 1) * MsPerDay
  {
    t / MsPerDay
  }

  /** Midnight at the start of `t`'s day: `setHours(0, 0, 0, 0)`. */
  function StartOfDay(t: Time): (r: Time)
    ensures r % MsPerDay == 0
    ensures r <= t < r + MsPerDay
    ensures DayOf(r) == DayOf(t)
  {
    DayOf(t) * MsPerDay
  }

  /** `n` calendar days before `t`, at the same time of day: `setDate(getDate() - n)`. */
  function DaysBefore(t: Time, n: nat): (r: Time)
    ensures r <= t
    ensures r % MsPerDay == t % MsPerDay
    ensures DayOf(r) == DayOf(t) - n
  {
    t - n * MsPerDay
  }

  /** The month and year arithmetic of the `Date` library, which this model does not implement:
      `addMonth` is `setMonth(getMonth() + 1)`, `addYear` is `setFullYear(getFullYear() + 1)`,
      `dayOfMonth` is `getDate()`. */
  datatype Calendar = Calendar(addMonth: Time -> Time, addYear: Time -> Time, dayOfMonth: Time -> int)

  /** What every Gregorian calendar guarantees of those three operations (with the library's day
      overflow, Jan 31 + 1 month is Mar 2 or 3, still at most 31 days later). */
  ghost predicate Plausible(cal: Calendar)
  {
    && (forall t :: t + 28 * MsPerDay <= cal.addMonth(t) <= t + 31 * MsPerDay)
    && (forall t :: t + 365 * MsPerDay <= cal.addYear(t) <= t + 366 * MsPerDay)
    && (forall t :: 1 <= cal.dayOfMonth(t) <= 31)
  }

  /** Midnight on the first of `t`'s month: `new Date(t.getFullYear(), t.getMonth(), 1)`. */
  function StartOfMonth(cal: Calendar, t: Time): (r: Time)
    requires Plausible(cal)
    ensures r % MsPerDay == 0
    ensures r <= StartOfDay(t)
    ensures StartOfDay(t) - r < 31 * MsPerDay
    ensures DayOf(r) == DayOf(t) - (cal.dayOfMonth(t) - 1)
  {
    DaysBefore(StartOfDay(t), cal.dayOfMonth(t) - 1)
  }
}
