/** Python's `datetime.datetime` on the proleptic Gregorian calendar: the
    valid values, the day ordinal, and adding the fixed offset 23:59:59. */
module Calendar {
  import opened Wrappers

  /** A naive `datetime`. */
  datatype DateTime = DateTime(year: int, month: int, day: int, hour: int, minute: int, second: int, microsecond: int)

  const MinYear := 1
  const MaxYear := 9999

  predicate IsLeap(y: int) {
    y % 4 == 0 && (y % 100 != 0 || y % 400 == 0)
  }

  function DaysInMonth(y: int, m: int): (n: int)
    requires 1 <= m <= 12
    ensures 28 <= n <= 31
    ensures n == 29 <==> m == 2 && IsLeap(y)
  {
    if m == 2 then (if IsLeap(y) then 29 else 28)
    else if m == 4 || m == 6 || m == 9 || m == 11 then 30
    else 31
  }

  /** The values the `datetime` constructor accepts. */
  predicate Valid(t: DateTime) {
    && MinYear <= t.year <= MaxYear
    && 1 <= t.month <= 12
    && 1 <= t.day <= DaysInMonth(t.year, t.month)
    && 0 <= t.hour < 24
    && 0 <= t.minute < 60
    && 0 <= t.second < 60
    && 0 <= t.microsecond < 1000000
  }

  /** Days in the months of year `y` before month `m`; month 13 stands for
      the end of the year. */
  function DaysBeforeMonth(y: int, m: int): (n: nat)
    requires 1 <= m <= 13
    ensures n <= 366
  {
    [0, 31, 59, 90, 120, 151, 181, 212, 243, 273, 304, 334, 365][m - 1]
      + (if m > 2 && IsLeap(y) then 1 else 0)
  }

  /** Consecutive table entries differ by the length of the month. */
  lemma DaysBeforeNextMonth(y: int, m: int)
    requires 1 <= m <= 12
    ensures DaysBeforeMonth(y, m + 1) == DaysBeforeMonth(y, m) + DaysInMonth(y, m)
  {
  }

  function DaysInYear(y: int): (n: nat)
    ensures n == DaysBeforeMonth(y, 13)
  {
    if IsLeap(y) then 366 else 365
  }

  /** Days in the years before year `y`, counting from year 1. */
  function DaysBeforeYear(y: int): nat
    requires y >= 1
  {
    if y == 1 then 0 else DaysBeforeYear(y - 1) + DaysInYear(y - 1)
  }

  /** `date.toordinal()`: 1 for 0001-01-01. */
  function Ordinal(y: int, m: int, d: int): int
    requires y >= 1 && 1 <= m <= 12
  {
    DaysBeforeYear(y) + DaysBeforeMonth(y, m) + d
  }

  /** Seconds since 0001-01-01 00:00:00, ignoring microseconds. */
  function TotalSeconds(t: DateTime): int
    requires t.year >= 1 && 1 <= t.month <= 12
  {
    (Ordinal(t.year, t.month, t.day) - 1) * 86400 + t.hour * 3600 + t.minute * 60 + t.second
  }

  /** The day after a valid date, or `None` past 9999-12-31. */
  function NextDay(y: int, m: int, d: int): (r: Option<(int, int, int)>)
    requires MinYear <= y <= MaxYear && 1 <= m <= 12 && 1 <= d <= DaysInMonth(y, m)
    ensures r.None? <==> y == MaxYear && m == 12 && d == 31
    ensures r.Some? ==> MinYear <= r.value.0 <= MaxYear && 1 <= r.value.1 <= 12
                        && 1 <= r.value.2 <= DaysInMonth(r.value.0, r.value.1)
    ensures r.Some? ==> Ordinal(r.value.0, r.value.1, r.value.2) == Ordinal(y, m, d) + 1
  {
    if d < DaysInMonth(y, m) then Some((y, m, d + 1))
    else if m < 12 then DaysBeforeNextMonth(y, m); Some((y, m + 1, 1))
    else if y < MaxYear then Some((y + 1, 1, 1))
    else None
  }

  /** The clock part of `t + 23:59:59`, with the carry into the day. */
  function ClockAfterEndOfDay(hour: int, minute: int, second: int): (r: (int, int, int, int))
    requires 0 <= hour < 24 && 0 <= minute < 60 && 0 <= second < 60
    ensures 0 <= r.0 < 24 && 0 <= r.1 < 60 && 0 <= r.2 < 60 && 0 <= r.3 <= 1
    ensures r.3 * 86400 + r.0 * 3600 + r.1 * 60 + r.2 == hour * 3600 + minute * 60 + second + 86399
  {
    var (s, cs) := if second + 59 >= 60 then (second - 1, 1) else (second + 59, 0);
    var (mi, cm) := if minute + 59 + cs >= 60 then (minute - 1 + cs, 1) else (minute + 59 + cs, 0);
    var (h, ch) := if hour + 23 + cm >= 24 then (hour - 1 + cm, 1) else (hour + 23 + cm, 0);
    (h, mi, s, ch)
  }

  /** `t + timedelta(hours=23, minutes=59, seconds=59)`: seconds, minutes and
      hours carry into the next field, and a carry out of the hours moves to
      the next day; past the last representable day Python raises
      `OverflowError`, here `None`. */
  function AddEndOfDay(t: DateTime): (r: Option<DateTime>)
    requires Valid(t)
    ensures r.Some? ==> Valid(r.value)
    ensures r.Some? ==> TotalSeconds(r.value) == TotalSeconds(t) + 86399
    ensures r.Some? ==> r.value.microsecond == t.microsecond
    ensures r.None? <==> t.year == MaxYear && t.month == 12 && t.day == 31
                         && t.hour * 3600 + t.minute * 60 + t.second >= 1
  {
    var (h, mi, s, carry) := ClockAfterEndOfDay(t.hour, t.minute, t.second);
    var time := t.(hour := h, minute := mi, second := s);
    if carry == 0 then
      Some(time)
    else
      match NextDay(t.year, t.month, t.day)
      case None => None
      case Some((y, m, d)) => Some(time.(year := y, month := m, day := d))
  }

  /** Adding 23:59:59 to a date at midnight gives the last second of that same
      day, which is what the same-day window relies on. */
  lemma EndOfDayFromMidnight(t: DateTime)
    requires Valid(t) && t.hour == 0 && t.minute == 0 && t.second == 0
    ensures AddEndOfDay(t) == Some(t.(hour := 23, minute := 59, second := 59))
  {
  }
}
