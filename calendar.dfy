/** Proleptic Gregorian calendar dates, their day numbers (1970-01-01 is day 0),
    calendar months and the Sunday-ending weeks used for weekly resampling. */
module Calendar {

  datatype CivilDate = CivilDate(year: int, month: int, day: int) {
    predicate Valid() {
      1 <= month <= 12 && 1 <= day <= DaysInMonth(year, month)
    }
  }

  /** A calendar date (a timestamp at midnight). */
  type Date = d: CivilDate | d.Valid() witness CivilDate(1970, 1, 1)

  /** A calendar month (a pandas monthly Period). */
  datatype YearMonth = YearMonth(year: int, month: int)

  predicate IsLeapYear(y: int)
  {
    y % 4 == 0 && (y % 100 != 0 || y % 400 == 0)
  }

  function DaysInMonth(y: int, m: int): int
    requires 1 <= m <= 12
  {
    if m == 2 then (if IsLeapYear(y) then 29 else 28)
    else if m == 4 || m == 6 || m == 9 || m == 11 then 30
    else 31
  }

  /** Days in the months of year `y` before month `m`. */
  function DaysBeforeMonth(y: int, m: int): int
    requires 1 <= m <= 12
  {
    if m == 1 then 0 else DaysBeforeMonth(y, m - 1) + DaysInMonth(y, m - 1)
  }

  /** Leap years among the years 1 .. y - 1 (counted negatively below year 1). */
  function LeapYearsBefore(y: int): int
  {
    (y - 1) / 4 - (y - 1) / 100 + (y - 1) / 400
  }

  /** Day number of a date: days since 1970-01-01. */
  function Ordinal(d: Date): int
  {
    365 * (d.year - 1970) + (LeapYearsBefore(d.year) - LeapYearsBefore(1970))
      + DaysBeforeMonth(d.year, d.month) + d.day - 1
  }

  function MonthOf(d: Date): YearMonth
  {
    YearMonth(d.year, d.month)
  }

  /** Calendar order of months (the order of pandas' sorted Period keys). */
  predicate MonthBefore(a: YearMonth, b: YearMonth)
  {
    a.year < b.year || (a.year == b.year && a.month < b.month)
  }

  /** December 1 of year `y`. */
  function DecemberFirst(y: int): (d: Date)
    ensures d.year == y && d.month == 12
  {
    CivilDate(y, 12, 1)
  }

  /** Every date of a year before its December lies before December 1 of that year. */
  lemma {:induction false} BeforeDecember(d: Date)
    requires d.month < 12
    ensures Ordinal(d) < Ordinal(DecemberFirst(d.year))
  {
    DaysBeforeMonthGrows(d.year, d.month);
  }

  lemma {:induction false} DaysBeforeMonthGrows(y: int, m: int)
    requires 1 <= m < 12
    ensures DaysBeforeMonth(y, m) + DaysInMonth(y, m) <= DaysBeforeMonth(y, 12)
    decreases 12 - m
  {
    if m < 11 {
      DaysBeforeMonthGrows(y, m + 1);
    }
  }

  /** Day of the week, Monday = 0 .. Sunday = 6 (1970-01-01 was a Thursday). */
  function Weekday(n: int): (w: int)
    ensures 0 <= w < 7
  {
    (n + 3) % 7
  }

  /** The Sunday that ends the week containing day `n` (pandas' weekly bins 'W',
      closed and labelled on the right). */
  function WeekEnd(n: int): (e: int)
    ensures n <= e < n + 7
    ensures Weekday(e) == 6
  {
    n + (6 - Weekday(n))
  }

  /** Week ends of ordered days are ordered; days in one week share the week end. */
  lemma WeekEndMonotone(a: int, b: int)
    requires a <= b
    ensures WeekEnd(a) <= WeekEnd(b)
  {
    if WeekEnd(b) < WeekEnd(a) {
      WeekEndsApart(WeekEnd(b), WeekEnd(a));
    }
  }

  /** Two Sundays are a whole number of weeks apart. */
  lemma WeekEndsApart(a: int, b: int)
    requires Weekday(a) == 6 && Weekday(b) == 6
    ensures (b - a) % 7 == 0
  {
  }

  lemma WeekEndOfSunday(n: int)
    requires Weekday(n) == 6
    ensures WeekEnd(n) == n
  {
  }
}
