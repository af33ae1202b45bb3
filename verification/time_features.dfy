/** The integer calendar fields `create_time_features` derives from a date
    (part1_ai/demand_forecast.py, lines 19-45).  The four cyclical encodings
    are floating point and are not part of this model.
 */
module TimeFeatures {
  import opened Maybe
  import opened Calendar

  /** One row's calendar columns; the flags are 0 or 1 as `astype(int)` makes them. */
  datatype CalendarFields = CalendarFields(
    year: int,
    month: int,
    day: int,
    dayOfWeek: int,
    quarter: int,
    isWeekend: int,
    isHoliday: int,
    isMonthStart: int,
    isMonthEnd: int)

  function Flag(b: bool): (n: int)
    ensures n == 0 || n == 1
    ensures n == 1 <==> b
  {
    if b then 1 else 0
  }

  /** pandas' `dt.quarter`: months 1-3 are quarter 1, and so on. */
  function Quarter(month: int): (q: int)
    requires 1 <= month <= 12
    ensures 1 <= q <= 4
    ensures 3 * q - 2 <= month <= 3 * q
  {
    (month - 1) / 3 + 1
  }

  /** The calendar fields of one date; `holiday` is the national holiday
      calendar, which is a library table and therefore a parameter here. */
  function Fields(d: Date, holiday: Date -> bool): (r: CalendarFields)
    requires ValidDate(d)
    ensures r.year == d.year && r.month == d.month && r.day == d.day
    ensures r.dayOfWeek == Weekday(d)
    ensures r.quarter == Quarter(d.month)
    ensures r.isWeekend in {0, 1} && r.isHoliday in {0, 1} && r.isMonthStart in {0, 1} && r.isMonthEnd in {0, 1}
    ensures r.isWeekend == 1 <==> r.dayOfWeek == 5 || r.dayOfWeek == 6
    ensures r.isHoliday == 1 <==> holiday(d)
    ensures r.isMonthStart == 1 <==> d.day == 1
    ensures r.isMonthEnd == 1 <==> d.day == DaysInMonth(d.year, d.month)
  {
    var dow := Weekday(d);
    CalendarFields(
      d.year, d.month, d.day, dow, Quarter(d.month),
      Flag(dow in {5, 6}),
      Flag(holiday(d)),
      Flag(d.day == 1),
      Flag(d.day == DaysInMonth(d.year, d.month)))
  }

  /** The month-end flag marks exactly the days whose successor starts a new
      month (or that have no successor at all). */
  lemma MonthEndIffNextIsMonthStart(d: Date, holiday: Date -> bool)
    requires ValidDate(d)
    ensures Fields(d, holiday).isMonthEnd == 1
      <==> NextDay(d).None? || NextDay(d).value.day == 1
  {
  }

  /** A day is a month end exactly when the following day is a month start:
      the two flags agree across every step of the calendar. */
  lemma MonthEndThenMonthStart(d: Date, holiday: Date -> bool)
    requires ValidDate(d) && NextDay(d).Some?
    ensures Fields(d, holiday).isMonthEnd == Fields(NextDay(d).value, holiday).isMonthStart
  {
  }

  /** 29 February ends its month, and 28 February ends it only outside leap years. */
  lemma FebruaryMonthEnd(y: int, holiday: Date -> bool)
    requires MinYear <= y <= MaxYear
    ensures IsLeapYear(y) ==> Fields(Date(y, 2, 29), holiday).isMonthEnd == 1
    ensures Fields(Date(y, 2, 28), holiday).isMonthEnd == 1 <==> !IsLeapYear(y)
  {
  }

  /** The weekend flag follows the weekday through the calendar: `n` days
      after `d` it is set exactly when the weekday of `d` advanced by `n`
      (modulo 7) is Saturday or Sunday. */
  lemma WeekendFollowsWeekday(d: Date, n: nat, holiday: Date -> bool)
    requires ValidDate(d) && AddDays(d, n).Some?
    ensures Fields(AddDays(d, n).value, holiday).isWeekend == 1
      <==> (Weekday(d) + n) % 7 >= 5
  {
    AddDaysWeekday(d, n);
  }
}
