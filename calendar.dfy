/** The days-in-month rule of the proleptic Gregorian calendar, standing in
    for the library call `calendar.monthrange(year, month)[1]` that the
    prorated-rent calculation relies on. Months are numbered 1..12. */
module Calendar {

  /** Gregorian leap years: divisible by 4, except centuries that are not
      divisible by 400. `%` agrees with the source's floor modulo here,
      because every divisor is positive. */
  predicate IsLeapYear(year: int) {
    year % 4 == 0 && (year % 100 != 0 || year % 400 == 0)
  }

  predicate IsMonth(month: int) {
    1 <= month <= 12
  }

  /** Number of days in `month` of `year`, written from the Gregorian rule. */
  function DaysInMonth(year: int, month: int): (d: nat)
    requires IsMonth(month)
    ensures 28 <= d <= 31
    ensures month != 2 ==> d != 28 && d != 29
  {
    if month == 2 then (if IsLeapYear(year) then 29 else 28)
    else if month == 4 || month == 6 || month == 9 || month == 11 then 30
    else 31
  }

  /** Common-year month lengths, the way the calendar library tabulates them
      (index 0 unused). */
  const CommonMonthDays: seq<nat> := [0, 31, 28, 31, 30, 31, 30, 31, 31, 30, 31, 30, 31]

  /** Reference definition in the library's shape: the common-year table plus
      one day for February of a leap year. */
  function TableDaysInMonth(year: int, month: int): nat
    requires IsMonth(month)
  {
    CommonMonthDays[month] + (if month == 2 && IsLeapYear(year) then 1 else 0)
  }

  /** The rule and the table agree on every year and month. */
  lemma DaysInMonthMatchesTable(year: int, month: int)
    requires IsMonth(month)
    ensures DaysInMonth(year, month) == TableDaysInMonth(year, month)
  {
  }

  /** February has 29 days exactly in leap years, 28 in the others. */
  lemma FebruaryLength(year: int)
    ensures DaysInMonth(year, 2) == 29 <==> IsLeapYear(year)
    ensures DaysInMonth(year, 2) == 28 <==> !IsLeapYear(year)
  {
  }

  /** February is the only month whose length depends on the year. */
  lemma OnlyFebruaryDependsOnYear(year1: int, year2: int, month: int)
    requires IsMonth(month) && month != 2
    ensures DaysInMonth(year1, month) == DaysInMonth(year2, month)
  {
  }

  lemma LeapYearExamples()
    ensures DaysInMonth(2024, 2) == 29
    ensures DaysInMonth(2023, 2) == 28
    ensures DaysInMonth(2000, 2) == 29
    ensures DaysInMonth(1900, 2) == 28
    ensures DaysInMonth(2026, 1) == 31
  {
  }

  /** Days in the months before `month` (1..13) of `year`. */
  function DaysBeforeMonth(year: int, month: int): nat
    requires 1 <= month <= 13
    decreases month
  {
    if month == 1 then 0 else DaysBeforeMonth(year, month - 1) + DaysInMonth(year, month - 1)
  }

  /** The twelve month lengths add up to a 365-day common year or a 366-day
      leap year. */
  lemma YearLength(year: int)
    ensures DaysBeforeMonth(year, 13) == if IsLeapYear(year) then 366 else 365
  {
  }
}
