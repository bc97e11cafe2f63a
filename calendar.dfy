/** Dates on the proleptic Gregorian calendar, enough of `java.util.Calendar`
    to state the age rule of a licence holder: the year, the day of the year and
    the order of dates. */
module Calendar {

  /** A calendar date as `Calendar` reports it in the local time zone. */
  datatype CivilDate = CivilDate(year: int, month: int, day: int)

  predicate IsLeapYear(y: int) {
    y % 4 == 0 && (y % 100 != 0 || y % 400 == 0)
  }

  function DaysInMonth(y: int, m: int): (n: int)
    ensures 28 <= n <= 31
  {
    if m == 2 then (if IsLeapYear(y) then 29 else 28)
    else if m == 4 || m == 6 || m == 9 || m == 11 then 30
    else 31
  }

  /** A date that exists on the calendar. */
  predicate Valid(d: CivilDate) {
    1 <= d.month <= 12 && 1 <= d.day <= DaysInMonth(d.year, d.month)
  }

  /** The days of year y in the months before month m. */
  function DaysBeforeMonth(y: int, m: int): (n: nat)
    decreases m
  {
    if m <= 1 then 0 else DaysBeforeMonth(y, m - 1) + DaysInMonth(y, m - 1)
  }

  /** `Calendar.DAY_OF_YEAR`: 1 on the first of January. */
  function DayOfYear(d: CivilDate): int {
    DaysBeforeMonth(d.year, d.month) + d.day
  }

  /** The year length of y. */
  function DaysInYear(y: int): int {
    if IsLeapYear(y) then 366 else 365
  }

  /** The day of the year of a valid date lies between 1 and the year length. */
  lemma {:induction false} DayOfYearRange(d: CivilDate)
    requires Valid(d)
    ensures 1 <= DayOfYear(d) <= DaysInYear(d.year)
  {
    DaysBeforeMonthBound(d.year, d.month);
  }

  /** The twelve months make up the year. */
  lemma YearLength(y: int)
    ensures DaysBeforeMonth(y, 13) == DaysInYear(y)
  {
    assert DaysBeforeMonth(y, 4) == DaysBeforeMonth(y, 3) + 31;
    assert DaysBeforeMonth(y, 7) == DaysBeforeMonth(y, 4) + 91;
    assert DaysBeforeMonth(y, 10) == DaysBeforeMonth(y, 7) + 92;
    assert DaysBeforeMonth(y, 13) == DaysBeforeMonth(y, 10) + 92;
  }

  lemma DaysBeforeMonthBound(y: int, m: int)
    requires 1 <= m <= 12
    ensures DaysBeforeMonth(y, m) + DaysInMonth(y, m) <= DaysInYear(y)
  {
    YearLength(y);
    DaysBeforeMonthGrows(y, m, 13);
  }

  /** A later month starts no earlier than a whole earlier month ends. */
  lemma {:induction false} DaysBeforeMonthGrows(y: int, m1: int, m2: int)
    requires 1 <= m1 < m2
    ensures DaysBeforeMonth(y, m1) + DaysInMonth(y, m1) <= DaysBeforeMonth(y, m2)
    decreases m2 - m1
  {
    if m1 + 1 < m2 {
      DaysBeforeMonthGrows(y, m1 + 1, m2);
    }
  }

  /** The month lengths, and so the day numbering, depend only on whether the
      year is a leap year. */
  lemma {:induction false} DaysBeforeMonthLeapness(y1: int, y2: int, m: int)
    requires IsLeapYear(y1) == IsLeapYear(y2)
    ensures DaysBeforeMonth(y1, m) == DaysBeforeMonth(y2, m)
    decreases m
  {
    if m > 1 {
      DaysBeforeMonthLeapness(y1, y2, m - 1);
    }
  }

  /** The calendar order of dates within a year: month first, then day. */
  predicate MonthDayBefore(a: CivilDate, b: CivilDate) {
    a.month < b.month || (a.month == b.month && a.day < b.day)
  }

  /** The calendar order of dates: year, month, day. */
  predicate NotAfter(a: CivilDate, b: CivilDate) {
    a.year < b.year || (a.year == b.year && !MonthDayBefore(b, a))
  }

  /** In years of the same kind, day numbers are ordered as the dates are. */
  lemma DayOfYearOrder(a: CivilDate, b: CivilDate)
    requires Valid(a) && Valid(b)
    requires IsLeapYear(a.year) == IsLeapYear(b.year)
    ensures DayOfYear(a) < DayOfYear(b) <==> MonthDayBefore(a, b)
  {
    DaysBeforeMonthLeapness(a.year, b.year, a.month);
    DaysBeforeMonthLeapness(a.year, b.year, b.month);
    if a.month < b.month {
      DaysBeforeMonthGrows(b.year, a.month, b.month);
    } else if b.month < a.month {
      DaysBeforeMonthGrows(b.year, b.month, a.month);
    }
  }
}
