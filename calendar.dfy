/**
 * The proleptic Gregorian calendar of Python's `datetime`, with dates
 * numbered as `date.toordinal()` numbers them: 0001-01-01 is day 1 and
 * 9999-12-31, the last date `datetime` can hold, is day 3652059.
 */
module Calendar {

  const MinYear := 1
  const MaxYear := 9999
  const MaxOrdinal := 3652059

  /** A datetime at midnight, as its day number. */
  type Day = n: int | 1 <= n <= MaxOrdinal witness 1

  datatype Date = Date(year: int, month: int, day: int)

  predicate IsLeap(y: int) {
    y % 4 == 0 && (y % 100 != 0 || y % 400 == 0)
  }

  function DaysInYear(y: int): int {
    if IsLeap(y) then 366 else 365
  }

  function DaysInMonth(y: int, m: int): int
    requires 1 <= m <= 12
  {
    if m == 2 then (if IsLeap(y) then 29 else 28)
    else if m == 4 || m == 6 || m == 9 || m == 11 then 30
    else 31
  }

  predicate Valid(d: Date) {
    MinYear <= d.year <= MaxYear && 1 <= d.month <= 12 && 1 <= d.day <= DaysInMonth(d.year, d.month)
  }

  /** Days in the years before `y` (Python's `_days_before_year`). */
  function DaysBeforeYear(y: int): int
    requires y >= 1
  {
    var p := y - 1;
    p * 365 + p / 4 - p / 100 + p / 400
  }

  /** Days in the months of year `y` before month `m` (Python's `_days_before_month`). */
  function DaysBeforeMonth(y: int, m: int): int
    requires 1 <= m <= 12
  {
    var common :=
      if m == 1 then 0 else if m == 2 then 31 else if m == 3 then 59
      else if m == 4 then 90 else if m == 5 then 120 else if m == 6 then 151
      else if m == 7 then 181 else if m == 8 then 212 else if m == 9 then 243
      else if m == 10 then 273 else if m == 11 then 304 else 334;
    common + (if m > 2 && IsLeap(y) then 1 else 0)
  }

  /** `date.toordinal()` (Python's `_ymd2ord`). */
  function ToOrdinal(d: Date): int
    requires Valid(d)
  {
    DaysBeforeYear(d.year) + DaysBeforeMonth(d.year, d.month) + d.day
  }

  /** The month that holds day `n` of year `y`, counting from month `m`. */
  function MonthFrom(n: int, y: int, m: int): Date
    requires 1 <= m <= 12
    requires 1 <= n <= DaysInYear(y) - DaysBeforeMonth(y, m)
    decreases 12 - m
  {
    if m == 12 || n <= DaysInMonth(y, m) then Date(y, m, n)
    else MonthFrom(n - DaysInMonth(y, m), y, m + 1)
  }

  /** The date `n - 1` days after January 1st of year `y`. */
  function YearFrom(n: int, y: int): Date
    requires n >= 1 && y >= 1
    decreases n
  {
    if n <= DaysInYear(y) then MonthFrom(n, y, 1)
    else YearFrom(n - DaysInYear(y), y + 1)
  }

  /** `date.fromordinal(n)` */
  function FromOrdinal(n: Day): Date {
    YearFrom(n, 1)
  }

  // ---------------------------------------------------------------------

  lemma YearLength(y: int)
    requires y >= 1
    ensures DaysBeforeYear(y + 1) == DaysBeforeYear(y) + DaysInYear(y)
  {
    var p := y - 1;
    assert (p + 1) / 4 == p / 4 + (if y % 4 == 0 then 1 else 0);
    assert (p + 1) / 100 == p / 100 + (if y % 100 == 0 then 1 else 0);
    assert (p + 1) / 400 == p / 400 + (if y % 400 == 0 then 1 else 0);
  }

  lemma DaysBeforeYearBounds(y: int)
    requires 1 <= y <= MaxYear + 1
    ensures 0 <= DaysBeforeYear(y) <= MaxOrdinal
    decreases MaxYear + 1 - y
  {
    if y <= MaxYear {
      YearLength(y);
      DaysBeforeYearBounds(y + 1);
    }
  }

  lemma {:induction false} MonthFromCorrect(n: int, y: int, m: int)
    requires 1 <= m <= 12
    requires 1 <= n <= DaysInYear(y) - DaysBeforeMonth(y, m)
    ensures var d := MonthFrom(n, y, m);
      d.year == y && m <= d.month <= 12 && 1 <= d.day <= DaysInMonth(y, d.month) &&
      DaysBeforeMonth(y, d.month) + d.day == DaysBeforeMonth(y, m) + n
    decreases 12 - m
  {
    if !(m == 12 || n <= DaysInMonth(y, m)) {
      assert DaysBeforeMonth(y, m + 1) == DaysBeforeMonth(y, m) + DaysInMonth(y, m);
      MonthFromCorrect(n - DaysInMonth(y, m), y, m + 1);
    }
  }

  lemma {:induction false} YearFromCorrect(n: int, y: int)
    requires n >= 1 && 1 <= y <= MaxYear
    requires DaysBeforeYear(y) + n <= MaxOrdinal
    ensures Valid(YearFrom(n, y))
    ensures ToOrdinal(YearFrom(n, y)) == DaysBeforeYear(y) + n
    decreases n
  {
    if n <= DaysInYear(y) {
      MonthFromCorrect(n, y, 1);
    } else {
      YearLength(y);
      assert DaysBeforeYear(MaxYear + 1) == MaxOrdinal;
      YearFromCorrect(n - DaysInYear(y), y + 1);
    }
  }

  /** `date.fromordinal(n).toordinal() == n`, and the date is a real calendar date. */
  lemma FromOrdinalCorrect(n: Day)
    ensures Valid(FromOrdinal(n))
    ensures ToOrdinal(FromOrdinal(n)) == n
  {
    YearFromCorrect(n, 1);
  }

  /** Every calendar date `datetime` can hold has a day number in range. */
  lemma ToOrdinalInRange(d: Date)
    requires Valid(d)
    ensures 1 <= ToOrdinal(d) <= MaxOrdinal
  {
    YearLength(d.year);
    DaysBeforeYearBounds(d.year + 1);
    DaysBeforeYearBounds(d.year);
    assert DaysBeforeMonth(d.year, d.month) + DaysInMonth(d.year, d.month) <= DaysInYear(d.year);
  }
}
