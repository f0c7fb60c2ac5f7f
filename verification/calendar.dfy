/** Proleptic Gregorian dates and their day ordinals, with the same arithmetic
    as Python's `datetime.date`: day 1 is 0001-01-01, `date + timedelta(n)`
    moves the ordinal by n, and `(b - a).days` is the difference of ordinals. */
module Calendar {

  datatype Date = Date(year: int, month: int, day: int)

  predicate IsLeapYear(y: int) {
    y % 4 == 0 && (y % 100 != 0 || y % 400 == 0)
  }

  function DaysInYear(y: int): int {
    if IsLeapYear(y) then 366 else 365
  }

  function DaysInMonth(y: int, m: int): int
    requires 1 <= m <= 12
  {
    if m == 2 then (if IsLeapYear(y) then 29 else 28)
    else if m == 4 || m == 6 || m == 9 || m == 11 then 30
    else 31
  }

  predicate Valid(d: Date) {
    1 <= d.month <= 12 && 1 <= d.day <= DaysInMonth(d.year, d.month)
  }

  /** Number of days in all years before year y. */
  function DaysBeforeYear(y: int): int {
    var p := y - 1;
    365 * p + p / 4 - p / 100 + p / 400
  }

  /** Number of days in year y before the first day of month m. */
  function DaysBeforeMonth(y: int, m: int): int
    requires 1 <= m <= 12
  {
    [0, 31, 59, 90, 120, 151, 181, 212, 243, 273, 304, 334][m - 1]
      + (if m > 2 && IsLeapYear(y) then 1 else 0)
  }

  function Ordinal(d: Date): int
    requires Valid(d)
  {
    DaysBeforeYear(d.year) + DaysBeforeMonth(d.year, d.month) + d.day
  }

  /** Calendar order: earlier year, then earlier month, then earlier day. */
  predicate Before(a: Date, b: Date) {
    a.year < b.year
    || (a.year == b.year && (a.month < b.month || (a.month == b.month && a.day < b.day)))
  }

  /** Python's `(b - a).days` for two midnight datetimes: positive exactly
      when b comes later in the calendar, zero exactly on the same day. */
  function DayDiff(b: Date, a: Date): (r: int)
    requires Valid(a) && Valid(b)
    ensures r > 0 <==> Before(a, b)
    ensures r == 0 <==> a == b
    ensures r < 0 <==> Before(b, a)
  {
    if Before(a, b) then
      OrdinalMonotone(a, b);
      Ordinal(b) - Ordinal(a)
    else if Before(b, a) then
      OrdinalMonotone(b, a);
      Ordinal(b) - Ordinal(a)
    else
      Ordinal(b) - Ordinal(a)
  }

  /** Successive years are DaysInYear apart: the leap-year rule agrees with
      the closed form of DaysBeforeYear. */
  lemma YearLength(y: int)
    ensures DaysBeforeYear(y + 1) == DaysBeforeYear(y) + DaysInYear(y)
  {
    var p := y - 1;
    assert y / 4 - p / 4 == (if y % 4 == 0 then 1 else 0);
    assert y / 100 - p / 100 == (if y % 100 == 0 then 1 else 0);
    assert y / 400 - p / 400 == (if y % 400 == 0 then 1 else 0);
    if y % 400 == 0 {
      assert y == 400 * (y / 400);
      assert y % 100 == 0 && y % 4 == 0;
    } else if y % 100 == 0 {
      assert y == 100 * (y / 100);
      assert y % 4 == 0;
    }
  }

  lemma MonthLength(y: int, m: int)
    requires 1 <= m < 12
    ensures DaysBeforeMonth(y, m + 1) == DaysBeforeMonth(y, m) + DaysInMonth(y, m)
  {
  }

  lemma LastMonthLength(y: int)
    ensures DaysBeforeMonth(y, 12) + DaysInMonth(y, 12) == DaysInYear(y)
  {
  }

  /** The day after d; December 31 rolls over into the next year. */
  function NextDay(d: Date): (r: Date)
    requires Valid(d)
    ensures Valid(r)
    ensures Ordinal(r) == Ordinal(d) + 1
  {
    if d.day < DaysInMonth(d.year, d.month) then
      Date(d.year, d.month, d.day + 1)
    else if d.month < 12 then
      MonthLength(d.year, d.month);
      Date(d.year, d.month + 1, 1)
    else
      YearLength(d.year);
      LastMonthLength(d.year);
      Date(d.year + 1, 1, 1)
  }

  /** The day before d; January 1 rolls back into the previous year. */
  function PrevDay(d: Date): (r: Date)
    requires Valid(d)
    ensures Valid(r)
    ensures Ordinal(r) == Ordinal(d) - 1
  {
    if d.day > 1 then
      Date(d.year, d.month, d.day - 1)
    else if d.month > 1 then
      MonthLength(d.year, d.month - 1);
      Date(d.year, d.month - 1, DaysInMonth(d.year, d.month - 1))
    else
      YearLength(d.year - 1);
      LastMonthLength(d.year - 1);
      Date(d.year - 1, 12, 31)
  }

  /** `d + timedelta(days=n)`, for positive and negative n alike. */
  function AddDays(d: Date, n: int): (r: Date)
    requires Valid(d)
    ensures Valid(r)
    ensures Ordinal(r) == Ordinal(d) + n
    decreases if n >= 0 then n else -n
  {
    if n == 0 then d
    else if n > 0 then AddDays(NextDay(d), n - 1)
    else AddDays(PrevDay(d), n + 1)
  }

  /** Every year after year a starts at least one full year of days later. */
  lemma {:induction false} DaysBeforeYearGrows(a: int, b: int)
    requires a < b
    ensures DaysBeforeYear(a) + DaysInYear(a) <= DaysBeforeYear(b)
    decreases b - a
  {
    YearLength(a);
    if a + 1 < b {
      DaysBeforeYearGrows(a + 1, b);
      YearLength(a + 1);
    }
  }

  /** The ordinal of a valid date lies inside the ordinal span of its year. */
  lemma OrdinalInYear(d: Date)
    requires Valid(d)
    ensures DaysBeforeYear(d.year) < Ordinal(d) <= DaysBeforeYear(d.year) + DaysInYear(d.year)
  {
  }

  /** Month m1 ends no later than a later month m2 of the same year begins. */
  lemma MonthsAreOrdered(y: int, m1: int, m2: int)
    requires 1 <= m1 < m2 <= 12
    ensures DaysBeforeMonth(y, m1) + DaysInMonth(y, m1) <= DaysBeforeMonth(y, m2)
  {
  }

  /** The ordinal follows calendar order. */
  lemma OrdinalMonotone(a: Date, b: Date)
    requires Valid(a) && Valid(b) && Before(a, b)
    ensures Ordinal(a) < Ordinal(b)
  {
    OrdinalInYear(a);
    OrdinalInYear(b);
    if a.year < b.year {
      DaysBeforeYearGrows(a.year, b.year);
    } else if a.month < b.month {
      MonthsAreOrdered(a.year, a.month, b.month);
    }
  }

  /** Distinct valid dates have distinct ordinals. */
  lemma OrdinalInjective(a: Date, b: Date)
    requires Valid(a) && Valid(b)
    requires Ordinal(a) == Ordinal(b)
    ensures a == b
  {
    OrdinalInYear(a);
    OrdinalInYear(b);
    if a.year < b.year {
      DaysBeforeYearGrows(a.year, b.year);
      assert false;
    } else if b.year < a.year {
      DaysBeforeYearGrows(b.year, a.year);
      assert false;
    } else if a.month < b.month {
      MonthsAreOrdered(a.year, a.month, b.month);
      assert false;
    } else if b.month < a.month {
      MonthsAreOrdered(a.year, b.month, a.month);
      assert false;
    }
  }

  /** Adding `(b - a).days` to a gives back b. */
  lemma AddDayDiff(a: Date, b: Date)
    requires Valid(a) && Valid(b)
    ensures AddDays(a, DayDiff(b, a)) == b
  {
    OrdinalInjective(AddDays(a, DayDiff(b, a)), b);
  }

  /** A valid date whose ordinal falls strictly after the days before year lo
      and no later than the days before year hi has a year in lo .. hi - 1. */
  lemma YearWithin(d: Date, lo: int, hi: int)
    requires Valid(d)
    requires DaysBeforeYear(lo) < Ordinal(d) <= DaysBeforeYear(hi)
    ensures lo <= d.year < hi
  {
    OrdinalInYear(d);
    if d.year < lo {
      DaysBeforeYearGrows(d.year, lo);
      assert false;
    }
    if d.year >= hi {
      if hi < d.year {
        DaysBeforeYearGrows(hi, d.year);
        YearLength(hi);
      }
      assert false;
    }
  }
}
