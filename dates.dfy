/** Gregorian calendar dates as Python's `datetime.date` has them:
    years 1 to 9999, leap years by the 4/100/400 rule, and construction
    (`date(y, m, d)` or `d.replace(...)`) that raises `ValueError` when a
    field is out of range instead of clamping it.
 */
module Dates {
  import opened Outcomes

  /** `datetime.MINYEAR` and `datetime.MAXYEAR`. */
  const MinYear: int := 1
  const MaxYear: int := 9999

  datatype Date = Date(year: int, month: int, day: int)

  /** A calendar month, without a day. */
  datatype YearMonth = YearMonth(year: int, month: int)

  predicate IsLeapYear(year: int) {
    year % 4 == 0 && (year % 100 != 0 || year % 400 == 0)
  }

  function DaysInMonth(year: int, month: int): (n: int)
    requires 1 <= month <= 12
    ensures 28 <= n <= 31
  {
    if month == 2 then (if IsLeapYear(year) then 29 else 28)
    else if month == 4 || month == 6 || month == 9 || month == 11 then 30
    else 31
  }

  /** The dates `datetime.date` can represent. */
  predicate Valid(d: Date) {
    MinYear <= d.year <= MaxYear &&
    1 <= d.month <= 12 &&
    1 <= d.day <= DaysInMonth(d.year, d.month)
  }

  /** Date order: lexicographic on (year, month, day), as Python compares dates. */
  predicate Le(a: Date, b: Date) {
    a.year < b.year ||
    (a.year == b.year && (a.month < b.month || (a.month == b.month && a.day <= b.day)))
  }

  predicate Lt(a: Date, b: Date) {
    Le(a, b) && a != b
  }

  predicate IsLeapDay(d: Date) {
    d.month == 2 && d.day == 29
  }

  /** `date(year, month, day)`; every `replace` in the model goes through here. */
  function FromParts(year: int, month: int, day: int): (r: Result<Date>)
    ensures r.Ok? <==> Valid(Date(year, month, day))
    ensures r.Ok? ==> r.value == Date(year, month, day)
    ensures r.Err? ==> r.error == ValueError
  {
    if MinYear <= year <= MaxYear && 1 <= month <= 12 && 1 <= day <= DaysInMonth(year, month)
    then Ok(Date(year, month, day))
    else Err(ValueError)
  }

  function MonthOf(d: Date): YearMonth {
    YearMonth(d.year, d.month)
  }

  /** Months counted from January of year 0: a reference numbering of months. */
  function MonthIndex(ym: YearMonth): int {
    ym.year * 12 + ym.month - 1
  }

  /** The calendar month before `ym`; January wraps to December of the year before. */
  function PreviousMonth(ym: YearMonth): (r: YearMonth)
    requires 1 <= ym.month <= 12
    ensures 1 <= r.month <= 12
    ensures MonthIndex(r) + 1 == MonthIndex(ym)
  {
    if ym.month == 1 then YearMonth(ym.year - 1, 12) else YearMonth(ym.year, ym.month - 1)
  }

  /** The calendar month after `ym`; December wraps to January of the year after. */
  function NextMonth(ym: YearMonth): (r: YearMonth)
    requires 1 <= ym.month <= 12
    ensures 1 <= r.month <= 12
    ensures MonthIndex(r) == MonthIndex(ym) + 1
  {
    if ym.month == 12 then YearMonth(ym.year + 1, 1) else YearMonth(ym.year, ym.month + 1)
  }

  /** Moving back a month and then forward a month returns to the start, and the other way. */
  lemma NextPreviousRoundTrip(ym: YearMonth)
    requires 1 <= ym.month <= 12
    ensures NextMonth(PreviousMonth(ym)) == ym
    ensures PreviousMonth(NextMonth(ym)) == ym
  {
  }
}
