/** Wall-clock timestamps as whole minutes.

    The Python code works on pandas timestamps and reads their `.hour`,
    `.minute`, `.month` and `.weekday()`. Here a timestamp is the number of
    minutes since 0001-01-01 00:00 of the proleptic Gregorian calendar, which
    is a Monday; the fields are recovered by arithmetic. Shifting a timestamp
    by k minutes (`pd.Timedelta`) is then plain addition.
 */
module Calendar {

  /** Minutes since 0001-01-01 00:00. */
  type Stamp = int

  const MinutesPerDay: int := 1440

  datatype Date = Date(year: int, month: int, day: int)

  /** Days since 0001-01-01 (floor division, so earlier stamps get negative days). */
  function DayIndex(t: Stamp): int {
    t / MinutesPerDay
  }

  function HourOf(t: Stamp): (h: int)
    ensures 0 <= h < 24
  {
    (t % MinutesPerDay) / 60
  }

  function MinuteOf(t: Stamp): (m: int)
    ensures 0 <= m < 60
  {
    t % 60
  }

  /** Python's `weekday()`: 0 is Monday, 6 is Sunday. */
  function WeekdayOf(t: Stamp): (w: int)
    ensures 0 <= w < 7
  {
    DayIndex(t) % 7
  }

  predicate IsLeap(y: int) {
    y % 4 == 0 && (y % 100 != 0 || y % 400 == 0)
  }

  function DaysInYear(y: int): int {
    if IsLeap(y) then 366 else 365
  }

  /** Number of days in the years 1 .. y-1. */
  function DaysBeforeYear(y: int): int {
    var k := y - 1;
    k * 365 + k / 4 - k / 100 + k / 400
  }

  /** Number of days in the months 1 .. m-1 of a year, for 1 <= m <= 13. */
  function DaysBeforeMonth(m: int, leap: bool): int
    requires 1 <= m <= 13
  {
    var common := [0, 31, 59, 90, 120, 151, 181, 212, 243, 273, 304, 334, 365];
    common[m - 1] + (if leap && m > 2 then 1 else 0)
  }

  function DaysInMonth(m: int, leap: bool): int
    requires 1 <= m <= 12
  {
    DaysBeforeMonth(m + 1, leap) - DaysBeforeMonth(m, leap)
  }

  /** The day number of a date: the inverse of `DateOfDay`. */
  function DayNumber(d: Date): int
    requires 1 <= d.month <= 12
  {
    DaysBeforeYear(d.year) + DaysBeforeMonth(d.month, IsLeap(d.year)) + d.day - 1
  }

  /** The month holding day `r` (0-based) of a year, searching down from `m`. */
  function MonthOfDay(r: int, leap: bool, m: int): (month: int)
    requires 1 <= m <= 12 && 0 <= r
    ensures 1 <= month <= m
    ensures DaysBeforeMonth(month, leap) <= r
    ensures r < DaysBeforeMonth(m + 1, leap) ==> r < DaysBeforeMonth(month + 1, leap)
    decreases m
  {
    if m == 1 || DaysBeforeMonth(m, leap) <= r then m else MonthOfDay(r, leap, m - 1)
  }

  /** Splits a day number into 400-, 100-, 4- and 1-year periods, the way
      Python's `datetime` does. */
  function DateOfDay(n: int): (d: Date)
    ensures 1 <= d.month <= 12
    ensures 1 <= d.day <= DaysInMonth(d.month, IsLeap(d.year))
  {
    var n400, r400 := n / 146097, n % 146097;
    var n100, r100 := r400 / 36524, r400 % 36524;
    var n4, r4 := r100 / 1461, r100 % 1461;
    var n1, r1 := r4 / 365, r4 % 365;
    var year := 400 * n400 + 100 * n100 + 4 * n4 + n1 + 1;
    if n1 == 4 || n100 == 4 then
      Date(year - 1, 12, 31)
    else
      var leap := n1 == 3 && (n4 != 24 || n100 == 3);
      LeapOfPeriods(n400, n100, n4, n1);
      var m := MonthOfDay(r1, leap, 12);
      Date(year, m, r1 - DaysBeforeMonth(m, leap) + 1)
  }

  function DateOf(t: Stamp): (d: Date)
    ensures 1 <= d.month <= 12
  {
    DateOfDay(DayIndex(t))
  }

  /** The first minute of a year. */
  function YearStart(y: int): Stamp {
    DaysBeforeYear(y) * MinutesPerDay
  }

  /** A year number written as whole 400-, 100-, 4- and 1-year periods is a
      leap year exactly in the last year of a 4-year period that is not the
      last (short) one of a century, unless the century closes the 400 years. */
  lemma LeapOfPeriods(a: int, b: int, c: int, d: int)
    requires 0 <= b <= 3 && 0 <= c <= 24 && 0 <= d <= 3
    ensures IsLeap(400 * a + 100 * b + 4 * c + d + 1) <==> (d == 3 && (c != 24 || b == 3))
  {
    var y := 400 * a + 100 * b + 4 * c + d + 1;
    DivisionOfMultiple(y, 4, 100 * a + 25 * b + c + (d + 1) / 4, (d + 1) % 4);
    DivisionOfMultiple(y, 100, 4 * a + b + (4 * c + d + 1) / 100, (4 * c + d + 1) % 100);
    DivisionOfMultiple(y, 400, a + (100 * b + 4 * c + d + 1) / 400, (100 * b + 4 * c + d + 1) % 400);
  }

  /** The days before a year written in periods, counted period by period. */
  lemma DaysBeforePeriods(a: int, b: int, c: int, d: int)
    requires 0 <= b <= 3 && 0 <= c <= 24 && 0 <= d <= 3
    ensures DaysBeforeYear(400 * a + 100 * b + 4 * c + d + 1)
            == 146097 * a + 36524 * b + 1461 * c + 365 * d
  {
    var k := 400 * a + 100 * b + 4 * c + d;
    DivisionOfMultiple(k, 4, 100 * a + 25 * b + c, d);
    DivisionOfMultiple(k, 100, 4 * a + b, 4 * c + d);
    DivisionOfMultiple(k, 400, a, 100 * b + 4 * c + d);
  }

  /** Decoding a day number and encoding the date again gives the day number back. */
  lemma {:induction false} DateOfDayRoundTrip(n: int)
    ensures DayNumber(DateOfDay(n)) == n
  {
    var n400, r400 := n / 146097, n % 146097;
    var n100, r100 := r400 / 36524, r400 % 36524;
    var n4, r4 := r100 / 1461, r100 % 1461;
    var n1, r1 := r4 / 365, r4 % 365;
    assert n == 146097 * n400 + 36524 * n100 + 1461 * n4 + 365 * n1 + r1;
    if n100 == 4 {
      assert r400 == 146096 && n4 == 0 && n1 == 0;
      DaysBeforePeriods(n400, 3, 24, 3);
      LeapOfPeriods(n400, 3, 24, 3);
    } else if n1 == 4 {
      assert n4 <= 23 && r1 == 0;
      DaysBeforePeriods(n400, n100, n4, 3);
      LeapOfPeriods(n400, n100, n4, 3);
    } else {
      DaysBeforePeriods(n400, n100, n4, n1);
      LeapOfPeriods(n400, n100, n4, n1);
    }
  }

  /** Consecutive years start 365 or 366 days apart, as the leap rule says. */
  lemma YearLength(y: int)
    ensures DaysBeforeYear(y + 1) - DaysBeforeYear(y) == DaysInYear(y)
  {
    var k := y - 1;
    StepOfQuotient(k, 4);
    StepOfQuotient(k, 100);
    StepOfQuotient(k, 400);
  }

  /** Raising a number by one raises its quotient by one exactly when the
      result is a multiple of the divisor. */
  lemma StepOfQuotient(k: int, m: int)
    requires m > 0
    ensures (k + 1) / m - k / m == (if (k + 1) % m == 0 then 1 else 0)
  {
    var q, r := k / m, k % m;
    assert k == m * q + r;
    if r == m - 1 {
      assert k + 1 == m * (q + 1);
      DivisionOfMultiple(k + 1, m, q + 1, 0);
    } else {
      DivisionOfMultiple(k + 1, m, q, r + 1);
    }
  }

  /** Quotient and remainder are unique. */
  lemma DivisionOfMultiple(x: int, m: int, q: int, r: int)
    requires m > 0 && 0 <= r < m && x == m * q + r
    ensures x / m == q && x % m == r
  {
    var q', r' := x / m, x % m;
    assert x == m * q' + r';
    ProductAtLeastFactor(m, q - q');
    ProductAtLeastFactor(m, q' - q);
    assert m * (q - q') == m * q - m * q';
  }

  lemma ProductAtLeastFactor(m: int, e: int)
    ensures m > 0 && e >= 1 ==> m * e >= m
  {
    if m > 0 && e >= 1 {
      assert m * e == m * (e - 1) + m;
      assert m * (e - 1) >= 0;
    }
  }
}
