/**
 * The calendar facts the generator asks of JavaScript's `Date`: how many
 * days the current month has (`new Date(year, month + 1, 0).getDate()`) and
 * the weekday of a day (`getDay()`, 0 = Sunday … 6 = Saturday), both in the
 * proleptic Gregorian calendar. Months are numbered 0..11, as in `Date`.
 */
module Dates {

  type Month = m: int | 0 <= m < 12

  /** A calendar date; `day` counts from 1. */
  datatype Date = Date(year: int, month: Month, day: int)

  predicate IsLeapYear(y: int) {
    (y % 4 == 0 && y % 100 != 0) || y % 400 == 0
  }

  function DaysInMonth(year: int, month: Month): (n: int)
    ensures 28 <= n <= 31
    ensures month == 1 ==> (n == 29 <==> IsLeapYear(year))
  {
    if month == 1 then (if IsLeapYear(year) then 29 else 28)
    else if month == 3 || month == 5 || month == 8 || month == 10 then 30
    else 31
  }

  predicate IsValid(d: Date) {
    1 <= d.day <= DaysInMonth(d.year, d.month)
  }

  /** Month offsets of the day-of-week formula (Sakamoto's method). */
  function MonthOffset(month: Month): int {
    [0, 3, 2, 5, 0, 3, 5, 1, 4, 6, 2, 4][month]
  }

  /**
   * `getDay()`: the weekday of `year-month-day`. Dafny's division by a
   * positive constant rounds down, as the formula needs for every year.
   */
  function DayOfWeek(year: int, month: Month, day: int): (w: int)
    ensures 0 <= w < 7
  {
    FormulaSum(year, month, day) % 7
  }

  /** The year and leap-day contribution of the formula. */
  function YearTerm(y: int): int {
    y + y / 4 - y / 100 + y / 400
  }

  /** The day after a valid date. */
  function NextDate(d: Date): (n: Date)
    requires IsValid(d)
    ensures IsValid(n)
  {
    if d.day < DaysInMonth(d.year, d.month) then Date(d.year, d.month, d.day + 1)
    else if d.month < 11 then Date(d.year, d.month + 1, 1)
    else Date(d.year + 1, 0, 1)
  }

  /** Within a month, consecutive days have consecutive weekdays. */
  lemma NextDayInMonth(year: int, month: Month, day: int)
    ensures DayOfWeek(year, month, day + 1) == (DayOfWeek(year, month, day) + 1) % 7
  {
  }

  /** Euclidean division by 4, 100 and 400 steps up exactly at their multiples. */
  lemma DivSteps(y: int)
    ensures y / 4 - (y - 1) / 4 == (if y % 4 == 0 then 1 else 0)
    ensures y / 100 - (y - 1) / 100 == (if y % 100 == 0 then 1 else 0)
    ensures y / 400 - (y - 1) / 400 == (if y % 400 == 0 then 1 else 0)
  {
  }

  /** A multiple of 400 is a multiple of 100, which is a multiple of 4. */
  lemma DivisibilityChain(y: int)
    ensures y % 400 == 0 ==> y % 100 == 0
    ensures y % 100 == 0 ==> y % 4 == 0
  {
  }

  /** The leap-day count in the formula grows by one exactly at a leap year. */
  lemma LeapStep(y: int)
    ensures YearTerm(y) - YearTerm(y - 1) == (if IsLeapYear(y) then 2 else 1)
  {
    DivSteps(y);
    DivisibilityChain(y);
  }

  /**
   * The weekday formula and the month-length table agree: the day after any
   * valid date falls on the next weekday, across month and year ends too.
   */
  lemma NextDateWeekday(d: Date)
    requires IsValid(d)
    ensures DayOfWeek(NextDate(d).year, NextDate(d).month, NextDate(d).day)
            == (DayOfWeek(d.year, d.month, d.day) + 1) % 7
  {
    var n := NextDate(d);
    var a := FormulaSum(d.year, d.month, d.day);
    var b := FormulaSum(n.year, n.month, n.day);
    if d.day < DaysInMonth(d.year, d.month) {
      assert b == a + 1;
    } else if d.month == 1 {
      FebruaryEnd(d.year);
    } else if d.month < 11 {
      MonthEnd(d.year, d.month);
    } else {
      assert n == Date(d.year + 1, 0, 1);
      assert b - a == 1 - 4 - 31;
    }
    ModStep(a, b);
  }

  /** The quantity the weekday formula reduces modulo 7. */
  function FormulaSum(year: int, month: Month, day: int): int {
    YearTerm(if month < 2 then year - 1 else year) + MonthOffset(month) + day
  }

  lemma FebruaryEnd(y: int)
    ensures (FormulaSum(y, 2, 1) - FormulaSum(y, 1, DaysInMonth(y, 1))) % 7 == 1
  {
    LeapStep(y);
  }

  lemma MonthEnd(y: int, m: Month)
    requires m < 11 && m != 1
    ensures (FormulaSum(y, m + 1, 1) - FormulaSum(y, m, DaysInMonth(y, m))) % 7 == 1
  {
  }

  lemma ModStep(a: int, b: int)
    requires (b - a) % 7 == 1
    ensures b % 7 == (a % 7 + 1) % 7
  {
  }

  /** 1 January 1970 was a Thursday. */
  lemma EpochIsThursday()
    ensures DayOfWeek(1970, 0, 1) == 4
  {
  }
}
