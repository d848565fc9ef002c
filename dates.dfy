/** Python `datetime` values as far as the analysis uses them: comparison,
    `(b - a).days`, adding a whole number of days, and the fields
    year, month and day. The time of day is folded into one microsecond count. */
module Dates {

  const MicrosPerDay: int := 86_400_000_000

  predicate IsLeap(y: int) {
    y % 4 == 0 && (y % 100 != 0 || y % 400 == 0)
  }

  function DaysInMonth(y: int, m: int): int {
    if m == 2 then (if IsLeap(y) then 29 else 28)
    else if m == 4 || m == 6 || m == 9 || m == 11 then 30
    else 31
  }

  function DaysInYear(y: int): int {
    if IsLeap(y) then 366 else 365
  }

  /** A point in time: calendar date plus microseconds since midnight. */
  datatype Stamp = Stamp(year: int, month: int, day: int, micros: int)

  predicate ValidStamp(t: Stamp) {
    && 1 <= t.year <= 9999
    && 1 <= t.month <= 12
    && 1 <= t.day <= DaysInMonth(t.year, t.month)
    && 0 <= t.micros < MicrosPerDay
  }

  /** The values Python's `datetime` can hold (`datetime.min` .. `datetime.max`). */
  type DateTime = t: Stamp | ValidStamp(t) witness Stamp(2000, 1, 1, 0)

  /** Python's `a < b` on datetimes: lexicographic on (year, month, day, time). */
  predicate Before(a: DateTime, b: DateTime) {
    || a.year < b.year
    || (a.year == b.year && a.month < b.month)
    || (a.year == b.year && a.month == b.month && a.day < b.day)
    || (a.year == b.year && a.month == b.month && a.day == b.day && a.micros < b.micros)
  }

  /** Python's `a <= b`. */
  predicate NotAfter(a: DateTime, b: DateTime) {
    Before(a, b) || a == b
  }

  /** Python's `min(a, b)`: the first argument unless the second is smaller. */
  function MinTime(a: DateTime, b: DateTime): (r: DateTime)
    ensures r == a || r == b
    ensures NotAfter(r, a) && NotAfter(r, b)
  {
    if Before(b, a) then b else a
  }

  /** Days of year `y` before the first of month `m`. */
  function DaysBeforeMonth(y: int, m: int): int
    requires 1 <= m <= 12
  {
    [0, 31, 59, 90, 120, 151, 181, 212, 243, 273, 304, 334][m - 1]
      + (if m > 2 && IsLeap(y) then 1 else 0)
  }

  /** Days before 1 January of year `y`, counted from 1 January of year 1. */
  function DaysBeforeYear(y: int): int
    requires 1 <= y
  {
    if y == 1 then 0 else DaysBeforeYear(y - 1) + DaysInYear(y - 1)
  }

  /** The proleptic Gregorian ordinal (`date.toordinal()`): 1 January of year 1 is day 1. */
  function Ordinal(t: DateTime): int {
    DaysBeforeYear(t.year) + DaysBeforeMonth(t.year, t.month) + t.day
  }

  /** Microseconds since the start of day 1. */
  function Instant(t: DateTime): int {
    Ordinal(t) * MicrosPerDay + t.micros
  }

  /** Python's `(b - a).days`: whole days by floor division (negative when `b < a`). */
  function DaysBetween(a: DateTime, b: DateTime): int {
    (Instant(b) - Instant(a)) / MicrosPerDay
  }

  /** Python's `a + timedelta(days=n) < b`. */
  predicate PlusDaysBefore(a: DateTime, n: int, b: DateTime) {
    Instant(a) + n * MicrosPerDay < Instant(b)
  }

  lemma MonthFits(y: int, m: int)
    requires 1 <= m <= 12
    ensures m < 12 ==> DaysBeforeMonth(y, m) + DaysInMonth(y, m) == DaysBeforeMonth(y, m + 1)
    ensures m == 12 ==> DaysBeforeMonth(y, m) + DaysInMonth(y, m) == DaysInYear(y)
  {
  }

  lemma {:induction false} MonthsMonotone(y: int, m: int, n: int)
    requires 1 <= m < n <= 12
    ensures DaysBeforeMonth(y, m) + DaysInMonth(y, m) <= DaysBeforeMonth(y, n)
    decreases n - m
  {
    MonthFits(y, m);
    if m + 1 < n {
      MonthsMonotone(y, m + 1, n);
      MonthFits(y, m + 1);
    }
  }

  lemma {:induction false} YearsMonotone(y: int, z: int)
    requires 1 <= y < z
    ensures DaysBeforeYear(y) + DaysInYear(y) <= DaysBeforeYear(z)
    decreases z - y
  {
    if y + 1 < z {
      YearsMonotone(y + 1, z);
    }
  }

  /** A later calendar date has a larger ordinal. */
  lemma OrdinalMonotone(a: DateTime, b: DateTime)
    requires Before(a, b)
    ensures Ordinal(a) <= Ordinal(b)
    ensures (a.year, a.month, a.day) != (b.year, b.month, b.day) ==> Ordinal(a) < Ordinal(b)
  {
    MonthFits(a.year, a.month);
    if a.month < 12 {
      MonthsMonotone(a.year, a.month, 12);
      MonthFits(a.year, 12);
    }
    if a.year < b.year {
      YearsMonotone(a.year, b.year);
    } else if a.month < b.month {
      MonthsMonotone(a.year, a.month, b.month);
    }
  }

  /** Datetime order is the order of instants. */
  lemma InstantOrder(a: DateTime, b: DateTime)
    ensures Before(a, b) <==> Instant(a) < Instant(b)
    ensures a == b <==> Instant(a) == Instant(b)
  {
    if Before(a, b) {
      OrdinalMonotone(a, b);
    } else if Before(b, a) {
      OrdinalMonotone(b, a);
    }
  }

  /** Datetime order is a total order. */
  lemma OrderFacts(a: DateTime, b: DateTime, c: DateTime)
    ensures Before(a, b) || a == b || Before(b, a)
    ensures !(Before(a, b) && Before(b, a))
    ensures Before(a, b) && NotAfter(b, c) ==> Before(a, c)
    ensures NotAfter(a, b) && Before(b, c) ==> Before(a, c)
    ensures NotAfter(a, b) && NotAfter(b, c) ==> NotAfter(a, c)
  {
  }

  /** `(b - a).days` is never negative when `a <= b`, and is zero for equal times. */
  lemma DaysBetweenNonNegative(a: DateTime, b: DateTime)
    requires NotAfter(a, b)
    ensures DaysBetween(a, b) >= 0
    ensures a == b ==> DaysBetween(a, b) == 0
  {
    InstantOrder(a, b);
  }
}
