/** The proleptic Gregorian calendar, defined from first principles (leap rule, month
    lengths, day-by-day succession). It is the independent reference against which the
    integer formulas of the Julian-day conversions are proved. Years use astronomical
    numbering (year 0 exists, and is a leap year). */
module Gregorian {

  datatype Date = Date(year: int, month: int, day: int)

  /** Divisible by 4 and not by 100, or divisible by 400. */
  predicate IsLeap(year: int)
  {
    (year % 4 == 0 && year % 100 != 0) || year % 400 == 0
  }

  function YearLength(year: int): int
  {
    if IsLeap(year) then 366 else 365
  }

  function MonthLength(year: int, month: int): (n: int)
    requires 1 <= month <= 12
    ensures 28 <= n <= 31
  {
    if month == 2 then (if IsLeap(year) then 29 else 28)
    else if month == 4 || month == 6 || month == 9 || month == 11 then 30
    else 31
  }

  predicate ValidDate(d: Date)
  {
    1 <= d.month <= 12 && 1 <= d.day <= MonthLength(d.year, d.month)
  }

  /** Number of days of `year` that precede the first of `month`, by summing month lengths. */
  function DaysBeforeMonth(year: int, month: int): (n: int)
    requires 1 <= month <= 12
    ensures 0 <= n
    decreases month
  {
    if month == 1 then 0 else DaysBeforeMonth(year, month - 1) + MonthLength(year, month - 1)
  }

  /** The months of a year add up to its length. */
  lemma {:induction false} MonthsFillYear(year: int)
    ensures DaysBeforeMonth(year, 12) + MonthLength(year, 12) == YearLength(year)
  {
    var feb := MonthLength(year, 2);
    assert DaysBeforeMonth(year, 3) == 31 + feb;
    assert DaysBeforeMonth(year, 6) == 123 + feb;
    assert DaysBeforeMonth(year, 9) == 215 + feb;
    assert DaysBeforeMonth(year, 12) == 306 + feb;
  }

  /** The calendar day after `d`. */
  function NextDate(d: Date): (n: Date)
    requires ValidDate(d)
    ensures ValidDate(n)
  {
    if d.day < MonthLength(d.year, d.month) then Date(d.year, d.month, d.day + 1)
    else if d.month < 12 then Date(d.year, d.month + 1, 1)
    else Date(d.year + 1, 1, 1)
  }
}
