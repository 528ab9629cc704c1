/** The month and billing-date helpers of `UtilsLib/utility.py`, on the proleptic
  * Gregorian calendar of Python's `datetime` (years 1 to 9999). */
module Calendar {
  import opened Json

  datatype Date = Date(year: int, month: int, day: int)

  /** datetime.MINYEAR and datetime.MAXYEAR. */
  const MinYear := 1
  const MaxYear := 9999

  predicate Leap(year: int) {
    year % 4 == 0 && (year % 100 != 0 || year % 400 == 0)
  }

  function DaysInMonth(year: int, month: int): (n: int)
    requires 1 <= month <= 12
    ensures 28 <= n <= 31
  {
    if month == 2 then (if Leap(year) then 29 else 28)
    else if month == 4 || month == 6 || month == 9 || month == 11 then 30
    else 31
  }

  /** The arguments `datetime(year, month, day)` accepts without a ValueError. */
  predicate ValidDate(year: int, month: int, day: int) {
    MinYear <= year <= MaxYear && 1 <= month <= 12 && 1 <= day <= DaysInMonth(year, month)
  }

  /** get_next_month_and_year. */
  function NextMonth(year: int, month: int): (int, int) {
    if month == 12 then (year + 1, 1) else (year, month + 1)
  }

  /** Months counted from January of year 0. */
  function MonthNumber(year: int, month: int): int {
    12 * year + month - 1
  }

  /** The month after a month is the next month in the count, and again a month;
    * December rolls over into January of the next year. */
  lemma NextMonthAdvances(year: int, month: int)
    requires 1 <= month <= 12
    ensures 1 <= NextMonth(year, month).1 <= 12
    ensures MonthNumber(NextMonth(year, month).0, NextMonth(year, month).1) == MonthNumber(year, month) + 1
    ensures month == 12 <==> NextMonth(year, month).0 == year + 1
  {
  }

  /** The day counts last_day_of_month tries, longest first. */
  const LastDays: seq<int> := [31, 30, 29, 28]

  /** The first of `LastDays[i..]` that makes a valid date; the day that fails raises
    * a ValueError, which moves on to the next one. */
  function LastDayFrom(month: int, year: int, i: nat): Option<Date>
    requires i <= |LastDays|
    decreases |LastDays| - i
  {
    if i == |LastDays| then None
    else if ValidDate(year, month, LastDays[i]) then Some(Date(year, month, LastDays[i]))
    else LastDayFrom(month, year, i + 1)
  }

  /** last_day_of_month: the month's last day, or None for a month or year that
    * `datetime` rejects. */
  function LastDayOfMonth(month: int, year: int): (r: Option<Date>)
    ensures r.Some? <==> MinYear <= year <= MaxYear && 1 <= month <= 12
    ensures r.Some? ==> r.value == Date(year, month, DaysInMonth(year, month))
    ensures r.Some? ==> ValidDate(year, month, r.value.day) && !ValidDate(year, month, r.value.day + 1)
  {
    LastDayFrom(month, year, 0)
  }

  /** `datetime.strptime("{year}-{month}-{day}", '%Y-%m-%d')` succeeds exactly when the
    * date is valid and the year prints with four digits: `%Y` reads four digits, `%m`
    * and `%d` read one or two, and `str()` of an int writes no leading zeros. */
  predicate ParsesAsDate(day: int, month: int, year: int) {
    1000 <= year <= 9999 && ValidDate(year, month, day)
  }

  /** get_billing_cycle_date: the given day when it parses as a date, otherwise the
    * last day of the month. */
  function BillingCycleDate(day: int, month: int, year: int): Option<Date> {
    if ParsesAsDate(day, month, year) then Some(Date(year, month, day))
    else LastDayOfMonth(month, year)
  }

  /** For a four-digit year and a real month, the billing date is in that month: the
    * given day when the month has it, otherwise the month's last day. */
  lemma BillingCycleDateInMonth(day: int, month: int, year: int)
    requires 1000 <= year <= 9999 && 1 <= month <= 12
    ensures BillingCycleDate(day, month, year).Some?
    ensures var d := BillingCycleDate(day, month, year).value;
      d.year == year && d.month == month &&
      d.day == (if 1 <= day <= DaysInMonth(year, month) then day else DaysInMonth(year, month))
  {
  }

  /** No date exists for a month outside 1 to 12. */
  lemma BillingCycleDateBadMonth(day: int, month: int, year: int)
    requires !(1 <= month <= 12)
    ensures BillingCycleDate(day, month, year).None?
  {
  }
}
