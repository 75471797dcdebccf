/**
  The proleptic Gregorian calendar the scripts rely on through Python's
  `datetime`, `timedelta`, `dateutil.relativedelta` and `calendar.monthrange`:
  dates with month and year rollover, day ordinals (day 1 is 0001-01-01, as
  `date.toordinal`), seconds since the start of the ordinal day count, adding
  whole days and adding calendar months.
 */
module Calendar {

  /** Python's `datetime.MINYEAR` and `datetime.MAXYEAR`. */
  const MIN_YEAR := 1
  const MAX_YEAR := 9999
  const SECONDS_PER_DAY := 86400

  datatype Date = Date(year: int, month: int, day: int)
  datatype DateTime = DateTime(date: Date, hour: int, minute: int, second: int)

  predicate IsLeapYear(y: int) {
    y % 4 == 0 && (y % 100 != 0 || y % 400 == 0)
  }

  function YearLength(y: int): int {
    if IsLeapYear(y) then 366 else 365
  }

  /** The second element of `calendar.monthrange(y, m)`. */
  function DaysInMonth(y: int, m: int): (n: int)
    requires 1 <= m <= 12
    ensures 28 <= n <= 31
  {
    if m == 2 then (if IsLeapYear(y) then 29 else 28)
    else if m == 4 || m == 6 || m == 9 || m == 11 then 30
    else 31
  }

  /** Days in the months of year `y` before month `m` (Python's cumulative table). */
  function DaysBeforeMonth(y: int, m: int): int
    requires 1 <= m <= 12
  {
    [0, 31, 59, 90, 120, 151, 181, 212, 243, 273, 304, 334][m - 1]
    + (if m > 2 && IsLeapYear(y) then 1 else 0)
  }

  /** Days in the years before year `y` (Python's closed form). */
  function DaysBeforeYear(y: int): int
    requires y >= MIN_YEAR
  {
    var k := y - 1;
    k * 365 + k / 4 - k / 100 + k / 400
  }

  predicate ValidDate(d: Date) {
    d.year >= MIN_YEAR && 1 <= d.month <= 12 && 1 <= d.day <= DaysInMonth(d.year, d.month)
  }

  /** A date Python's `datetime` can represent. */
  predicate InRange(d: Date) {
    ValidDate(d) && d.year <= MAX_YEAR
  }

  predicate ValidTime(t: DateTime) {
    ValidDate(t.date) && 0 <= t.hour < 24 && 0 <= t.minute < 60 && 0 <= t.second < 60
  }

  /** `date.toordinal()`: 0001-01-01 is day 1. */
  function Ordinal(d: Date): int
    requires ValidDate(d)
  {
    DaysBeforeYear(d.year) + DaysBeforeMonth(d.year, d.month) + d.day
  }

  /** Seconds elapsed since 0000-12-31 00:00:00, the scale timestamps are compared on. */
  function Seconds(t: DateTime): int
    requires ValidTime(t)
  {
    Ordinal(t.date) * SECONDS_PER_DAY + t.hour * 3600 + t.minute * 60 + t.second
  }

  /** Months counted from January of year 0. */
  function MonthIndex(y: int, m: int): int {
    y * 12 + m - 1
  }

  /** Lexicographic order on (year, month, day). */
  predicate Before(d1: Date, d2: Date) {
    d1.year < d2.year
    || (d1.year == d2.year && d1.month < d2.month)
    || (d1.year == d2.year && d1.month == d2.month && d1.day < d2.day)
  }

  // ---------------------------------------------------------------------
  // Month lengths against the cumulative tables

  lemma MonthLengthsAccumulate(y: int, m: int)
    requires 1 <= m < 12
    ensures DaysBeforeMonth(y, m + 1) == DaysBeforeMonth(y, m) + DaysInMonth(y, m)
  {
  }

  lemma MonthLengthsSumToYear(y: int)
    ensures DaysBeforeMonth(y, 12) + DaysInMonth(y, 12) == YearLength(y)
  {
  }

  /** The closed form of `DaysBeforeYear` counts exactly one leap day per leap year. */
  lemma YearLengthsAccumulate(y: int)
    requires y >= MIN_YEAR
    ensures DaysBeforeYear(y + 1) == DaysBeforeYear(y) + YearLength(y)
  {
    var k := y - 1;
    assert (k + 1) / 4 == k / 4 + (if y % 4 == 0 then 1 else 0);
    assert (k + 1) / 100 == k / 100 + (if y % 100 == 0 then 1 else 0);
    assert (k + 1) / 400 == k / 400 + (if y % 400 == 0 then 1 else 0);
    assert y % 400 == 0 ==> y % 100 == 0;
    assert y % 100 == 0 ==> y % 4 == 0;
  }

  /** The ordinal of the day before the first of month `m` of year `y`. */
  function MonthStart(y: int, m: int): int
    requires y >= MIN_YEAR && 1 <= m <= 12
  {
    DaysBeforeYear(y) + DaysBeforeMonth(y, m)
  }

  function NextMonthYear(y: int, m: int): int
    requires 1 <= m <= 12
  {
    if m == 12 then y + 1 else y
  }

  function NextMonth(m: int): int
    requires 1 <= m <= 12
  {
    if m == 12 then 1 else m + 1
  }

  lemma MonthStartStep(y: int, m: int)
    requires y >= MIN_YEAR && 1 <= m <= 12
    ensures MonthIndex(NextMonthYear(y, m), NextMonth(m)) == MonthIndex(y, m) + 1
    ensures MonthStart(NextMonthYear(y, m), NextMonth(m)) == MonthStart(y, m) + DaysInMonth(y, m)
  {
    if m == 12 {
      YearLengthsAccumulate(y);
      MonthLengthsSumToYear(y);
    } else {
      MonthLengthsAccumulate(y, m);
    }
  }

  /** A later month starts after every day of an earlier month. */
  lemma {:induction false} MonthStartOrder(y1: int, m1: int, y2: int, m2: int)
    requires y1 >= MIN_YEAR && 1 <= m1 <= 12 && 1 <= m2 <= 12
    requires MonthIndex(y1, m1) < MonthIndex(y2, m2)
    ensures y2 >= MIN_YEAR
    ensures MonthStart(y2, m2) >= MonthStart(y1, m1) + DaysInMonth(y1, m1)
    decreases MonthIndex(y2, m2) - MonthIndex(y1, m1)
  {
    var ny, nm := NextMonthYear(y1, m1), NextMonth(m1);
    MonthStartStep(y1, m1);
    if MonthIndex(ny, nm) < MonthIndex(y2, m2) {
      MonthStartOrder(ny, nm, y2, m2);
    } else {
      assert ny == y2 && nm == m2;
    }
  }

  /** The ordinal numbering follows calendar order, in both directions. */
  lemma OrdinalOrder(d1: Date, d2: Date)
    requires ValidDate(d1) && ValidDate(d2)
    ensures Before(d1, d2) <==> Ordinal(d1) < Ordinal(d2)
  {
    if MonthIndex(d1.year, d1.month) < MonthIndex(d2.year, d2.month) {
      MonthStartOrder(d1.year, d1.month, d2.year, d2.month);
    } else if MonthIndex(d2.year, d2.month) < MonthIndex(d1.year, d1.month) {
      MonthStartOrder(d2.year, d2.month, d1.year, d1.month);
    } else {
      assert d1.year == d2.year && d1.month == d2.month;
    }
  }

  /** Distinct dates have distinct ordinals. */
  lemma OrdinalInjective(d1: Date, d2: Date)
    requires ValidDate(d1) && ValidDate(d2)
    requires Ordinal(d1) == Ordinal(d2)
    ensures d1 == d2
  {
    OrdinalOrder(d1, d2);
    OrdinalOrder(d2, d1);
  }

  // ---------------------------------------------------------------------
  // Adding days

  /** The following calendar day, rolling over month and year ends. */
  function NextDay(d: Date): (r: Date)
    requires ValidDate(d)
    ensures ValidDate(r)
    ensures Ordinal(r) == Ordinal(d) + 1
  {
    if d.day < DaysInMonth(d.year, d.month) then
      Date(d.year, d.month, d.day + 1)
    else
      MonthStartStep(d.year, d.month);
      Date(NextMonthYear(d.year, d.month), NextMonth(d.month), 1)
  }

  /** `d + timedelta(days=n)` on the unbounded calendar. */
  function AddDays(d: Date, n: nat): (r: Date)
    requires ValidDate(d)
    ensures ValidDate(r)
    ensures Ordinal(r) == Ordinal(d) + n
  {
    if n == 0 then d else NextDay(AddDays(d, n - 1))
  }

  /** `t + timedelta(hours=24*n)`: the date moves by n days, the time of day stays. */
  function AddDaysTime(t: DateTime, n: nat): (r: DateTime)
    requires ValidTime(t)
    ensures ValidTime(r)
    ensures Seconds(r) == Seconds(t) + n * SECONDS_PER_DAY
  {
    DateTime(AddDays(t.date, n), t.hour, t.minute, t.second)
  }

  // ---------------------------------------------------------------------
  // Adding calendar months

  function Min(a: int, b: int): int {
    if a <= b then a else b
  }

  /**
    `t + relativedelta(months=n)`: the month moves by n with year carry, the
    day is clipped to the length of the target month, the time of day stays.
   */
  function AddMonths(t: DateTime, n: nat): (r: DateTime)
    requires ValidTime(t)
    ensures ValidTime(r)
    ensures MonthIndex(r.date.year, r.date.month) == MonthIndex(t.date.year, t.date.month) + n
    ensures r.date.day == Min(t.date.day, DaysInMonth(r.date.year, r.date.month))
    ensures r.hour == t.hour && r.minute == t.minute && r.second == t.second
  {
    var total := t.date.month - 1 + n;
    var y := t.date.year + total / 12;
    var m := total % 12 + 1;
    DateTime(Date(y, m, Min(t.date.day, DaysInMonth(y, m))), t.hour, t.minute, t.second)
  }

  /** Timestamps in later months are strictly later. */
  lemma MonthOrderIsTimeOrder(t1: DateTime, t2: DateTime)
    requires ValidTime(t1) && ValidTime(t2)
    requires MonthIndex(t1.date.year, t1.date.month) < MonthIndex(t2.date.year, t2.date.month)
    ensures Seconds(t1) < Seconds(t2)
  {
    OrdinalOrder(t1.date, t2.date);
  }
}
