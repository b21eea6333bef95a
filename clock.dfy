/** `System.DateTime` as the profiler uses it: a proleptic Gregorian
    calendar date and time of day between 0001-01-01 and 9999-12-31, with a
    sub-second part counted in 100-nanosecond ticks. `default(DateTime)` is
    the first instant of 0001-01-01. */
module Clock {

  const TicksPerSecond: int := 10_000_000
  const TicksPerMillisecond: int := 10_000

  datatype CalendarTime = CalendarTime(
    year: int, month: int, day: int,
    hour: int, minute: int, second: int,
    fraction: int  // ticks within the second
  )

  predicate IsLeapYear(y: int) {
    y % 4 == 0 && (y % 100 != 0 || y % 400 == 0)
  }

  function DaysInMonth(y: int, m: int): (n: int)
    requires 1 <= m <= 12
    ensures 28 <= n <= 31
  {
    if m == 2 then (if IsLeapYear(y) then 29 else 28)
    else if m == 4 || m == 6 || m == 9 || m == 11 then 30
    else 31
  }

  predicate IsValid(t: CalendarTime) {
    && 1 <= t.year <= 9999
    && 1 <= t.month <= 12
    && 1 <= t.day <= DaysInMonth(t.year, t.month)
    && 0 <= t.hour < 24
    && 0 <= t.minute < 60
    && 0 <= t.second < 60
    && 0 <= t.fraction < TicksPerSecond
  }

  /** A `DateTime` value: only valid calendar times exist. */
  type DateTime = t: CalendarTime | IsValid(t) witness CalendarTime(1, 1, 1, 0, 0, 0, 0)

  /** `default(DateTime)`, the value an unassigned `DateTime` field holds. */
  const Default: DateTime := CalendarTime(1, 1, 1, 0, 0, 0, 0)

  function DaysBeforeYear(y: int): int
    requires y >= 1
  {
    var p := y - 1;
    365 * p + p / 4 - p / 100 + p / 400
  }

  function DaysBeforeMonth(y: int, m: int): int
    requires 1 <= m <= 12
  {
    if m == 1 then 0 else DaysBeforeMonth(y, m - 1) + DaysInMonth(y, m - 1)
  }

  /** `DateTime.Ticks`: 100-nanosecond intervals since 0001-01-01 00:00:00. */
  function Ticks(t: DateTime): int {
    var days := DaysBeforeYear(t.year) + DaysBeforeMonth(t.year, t.month) + t.day - 1;
    ((days * 24 + t.hour) * 60 + t.minute) * 60 * TicksPerSecond
      + t.second * TicksPerSecond + t.fraction
  }

  /** `(now - earlier).TotalMilliseconds`. */
  function ElapsedMs(now: DateTime, earlier: DateTime): real {
    (Ticks(now) - Ticks(earlier)) as real / TicksPerMillisecond as real
  }

  /** Elapsed times are differences of one clock: none from an instant to
      itself, the reverse span is the negation, and consecutive spans add. */
  lemma ElapsedMsAdds(a: DateTime, b: DateTime, c: DateTime)
    ensures ElapsedMs(a, a) == 0.0
    ensures ElapsedMs(b, a) == -ElapsedMs(a, b)
    ensures ElapsedMs(c, a) == ElapsedMs(c, b) + ElapsedMs(b, a)
  {
    QuotientsAdd(Ticks(a) as real, Ticks(b) as real, Ticks(c) as real, TicksPerMillisecond as real);
  }

  lemma QuotientsAdd(x: real, y: real, z: real, d: real)
    requires d > 0.0
    ensures (x - x) / d == 0.0
    ensures (y - x) / d == -((x - y) / d)
    ensures (z - x) / d == (z - y) / d + (y - x) / d
  {
  }

  /** The value with its sub-second part dropped: the same date and time of
      day to the second, `fraction` ticks earlier. */
  function TruncateToSecond(t: DateTime): (u: DateTime)
    ensures u.fraction == 0
    ensures Ticks(u) == Ticks(t) - t.fraction
  {
    t.(fraction := 0)
  }
}
