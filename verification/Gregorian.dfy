/** The proleptic Gregorian calendar, within the years the date library represents. */
module Gregorian {
  import opened Wrappers

  const MIN_YEAR: int := -262_143
  const MAX_YEAR: int := 262_142

  datatype Date = Date(year: int, month: nat, day: nat)

  predicate Leap(year: int) {
    year % 4 == 0 && (year % 100 != 0 || year % 400 == 0)
  }

  function DaysIn(year: int, month: nat): nat {
    if month == 2 then (if Leap(year) then 29 else 28)
    else if month in {4, 6, 9, 11} then 30
    else 31
  }

  predicate Valid(d: Date) {
    MIN_YEAR <= d.year <= MAX_YEAR && 1 <= d.month <= 12 && 1 <= d.day <= DaysIn(d.year, d.month)
  }

  function FromYmd(year: int, month: nat, day: nat): Option<Date> {
    if Valid(Date(year, month, day)) then Some(Date(year, month, day)) else None
  }

  predicate Le(a: Date, b: Date) {
    a.year < b.year || (a.year == b.year && (a.month < b.month || (a.month == b.month && a.day <= b.day)))
  }

  predicate Lt(a: Date, b: Date) {
    Le(a, b) && a != b
  }

  function NextDay(d: Date): Date {
    if d.day < DaysIn(d.year, d.month) then d.(day := d.day + 1)
    else if d.month < 12 then Date(d.year, d.month + 1, 1)
    else Date(d.year + 1, 1, 1)
  }

  function PrevDay(d: Date): Date
    requires Valid(d)
  {
    if d.day > 1 then d.(day := d.day - 1)
    else if d.month > 1 then Date(d.year, d.month - 1, DaysIn(d.year, d.month - 1))
    else Date(d.year - 1, 12, 31)
  }

  // --- the count of days ---

  /** The leap years among the first `n`. */
  function LeapYears(n: int): int {
    n / 4 - n / 100 + n / 400
  }

  /** Days before 1 January of a year, counted from year 1. */
  function DaysBeforeYear(year: int): int {
    365 * (year - 1) + LeapYears(year - 1)
  }

  function DaysBeforeMonth(year: int, month: nat): nat
    requires 1 <= month <= 12
  {
    if month == 1 then 0 else DaysBeforeMonth(year, month - 1) + DaysIn(year, month - 1)
  }

  function DayNumber(d: Date): int
    requires 1 <= d.month <= 12
  {
    DaysBeforeYear(d.year) + DaysBeforeMonth(d.year, d.month) + d.day
  }

  lemma QuarterSteps(n: int)
    ensures n / 4 == (n - 1) / 4 + (if n % 4 == 0 then 1 else 0)
  {
  }

  lemma CenturySteps(n: int)
    ensures n / 100 == (n - 1) / 100 + (if n % 100 == 0 then 1 else 0)
    ensures n % 100 == 0 ==> n % 4 == 0
  {
  }

  lemma FourCenturySteps(n: int)
    ensures n / 400 == (n - 1) / 400 + (if n % 400 == 0 then 1 else 0)
    ensures n % 400 == 0 ==> n % 100 == 0
  {
  }

  lemma LeapYearsCountLeaps(year: int)
    ensures LeapYears(year) == LeapYears(year - 1) + (if Leap(year) then 1 else 0)
  {
    QuarterSteps(year);
    CenturySteps(year);
    FourCenturySteps(year);
  }

  lemma YearLength(year: int)
    ensures DaysBeforeYear(year + 1) == DaysBeforeYear(year) + DaysBeforeMonth(year, 12) + 31
    ensures DaysBeforeMonth(year, 12) + 31 == if Leap(year) then 366 else 365
  {
    LeapYearsCountLeaps(year);
    MonthTable(year);
    hide LeapYears, Leap;
  }

  lemma {:induction false} MonthTable(year: int)
    ensures DaysBeforeMonth(year, 12) == (if Leap(year) then 335 else 334)
  {
    assert DaysBeforeMonth(year, 2) == 31;
    assert DaysBeforeMonth(year, 3) == 31 + DaysIn(year, 2);
    assert DaysBeforeMonth(year, 4) == DaysBeforeMonth(year, 3) + 31;
    assert DaysBeforeMonth(year, 5) == DaysBeforeMonth(year, 4) + 30;
    assert DaysBeforeMonth(year, 6) == DaysBeforeMonth(year, 5) + 31;
    assert DaysBeforeMonth(year, 7) == DaysBeforeMonth(year, 6) + 30;
    assert DaysBeforeMonth(year, 8) == DaysBeforeMonth(year, 7) + 31;
    assert DaysBeforeMonth(year, 9) == DaysBeforeMonth(year, 8) + 31;
    assert DaysBeforeMonth(year, 10) == DaysBeforeMonth(year, 9) + 30;
    assert DaysBeforeMonth(year, 11) == DaysBeforeMonth(year, 10) + 31;
    assert DaysBeforeMonth(year, 12) == DaysBeforeMonth(year, 11) + 30;
  }

  /** The next day is one day later. */
  lemma NextDayCounts(d: Date)
    requires Valid(d)
    ensures DayNumber(NextDay(d)) == DayNumber(d) + 1
  {
    YearLength(d.year);
    hide DaysBeforeYear;
  }

  /** The previous day is one day earlier. */
  lemma PrevDayCounts(d: Date)
    requires Valid(d)
    ensures DayNumber(PrevDay(d)) == DayNumber(d) - 1
  {
    YearLength(d.year - 1);
    hide DaysBeforeYear;
  }

  lemma PrevUndoesNext(d: Date)
    requires Valid(d)
    ensures Valid(NextDay(d)) ==> PrevDay(NextDay(d)) == d
    ensures Valid(PrevDay(d)) ==> NextDay(PrevDay(d)) == d
  {
  }

  /** Nothing lies between a date and its next day. */
  lemma NextIsNext(a: Date, d: Date)
    requires Valid(a) && Valid(d)
    ensures Lt(a, d) <==> Le(NextDay(a), d)
  {
  }
}
