/** The proleptic Gregorian calendar as Python's `datetime.date` implements it.

    Days are numbered by their ordinal (0001-01-01 is day 1), and weekdays
    count from Monday = 0 to Sunday = 6.  Years run from 1 to 9999; stepping
    past 9999-12-31 is an overflow.
 */
module Calendar {
  import opened Maybe

  const MinYear: int := 1
  const MaxYear: int := 9999

  datatype Date = Date(year: int, month: int, day: int)

  predicate IsLeapYear(y: int) {
    y % 4 == 0 && (y % 100 != 0 || y % 400 == 0)
  }

  /** Number of days in month `m` of year `y` (February depends on leap years). */
  function DaysInMonth(y: int, m: int): (n: int)
    requires 1 <= m <= 12
    ensures 28 <= n <= 31
    ensures n == 29 <==> m == 2 && IsLeapYear(y)
  {
    if m == 2 then (if IsLeapYear(y) then 29 else 28)
    else if m == 4 || m == 6 || m == 9 || m == 11 then 30
    else 31
  }

  function DaysInYear(y: int): int {
    if IsLeapYear(y) then 366 else 365
  }

  predicate ValidDate(d: Date) {
    && MinYear <= d.year <= MaxYear
    && 1 <= d.month <= 12
    && 1 <= d.day <= DaysInMonth(d.year, d.month)
  }

  const LastDate: Date := Date(MaxYear, 12, 31)

  /** Days in the years before `y`, in closed form. */
  function DaysBeforeYear(y: int): int
    requires y >= 1
  {
    var p := y - 1;
    365 * p + p / 4 - p / 100 + p / 400
  }

  /** Days in the months of year `y` before month `m`. */
  function DaysBeforeMonth(y: int, m: int): int
    requires 1 <= m <= 12
  {
    [0, 31, 59, 90, 120, 151, 181, 212, 243, 273, 304, 334][m - 1]
      + (if m > 2 && IsLeapYear(y) then 1 else 0)
  }

  /** The day number of `d`, counting 0001-01-01 as day 1. */
  function Ordinal(d: Date): int
    requires ValidDate(d)
  {
    DaysBeforeYear(d.year) + DaysBeforeMonth(d.year, d.month) + d.day
  }

  const MaxOrdinal: int := 3652059

  /** Monday = 0, ..., Sunday = 6. */
  function Weekday(d: Date): (w: int)
    requires ValidDate(d)
    ensures 0 <= w < 7
  {
    (Ordinal(d) + 6) % 7
  }

  /** The following day, or `None` past the last representable date. */
  function NextDay(d: Date): (r: Option<Date>)
    requires ValidDate(d)
    ensures r.Some? ==> ValidDate(r.value)
    ensures r.None? <==> d == LastDate
  {
    if d.day < DaysInMonth(d.year, d.month) then Some(Date(d.year, d.month, d.day + 1))
    else if d.month < 12 then Some(Date(d.year, d.month + 1, 1))
    else if d.year < MaxYear then Some(Date(d.year + 1, 1, 1))
    else None
  }

  /** `d` advanced by `n` days one day at a time (`d + timedelta(days=n)`). */
  function AddDays(d: Date, n: nat): (r: Option<Date>)
    requires ValidDate(d)
    ensures r.Some? ==> ValidDate(r.value)
  {
    if n == 0 then Some(d)
    else
      match AddDays(d, n - 1)
      case None => None
      case Some(e) => NextDay(e)
  }

  /** Chronological order of calendar dates: by year, then month, then day. */
  predicate DateLeq(a: Date, b: Date) {
    || a.year < b.year
    || (a.year == b.year && (a.month < b.month || (a.month == b.month && a.day <= b.day)))
  }

  // ---------------------------------------------------------------------------
  // Ordinal arithmetic

  lemma DivStep(y: int)
    requires y >= 1
    ensures y / 4 - (y - 1) / 4 == (if y % 4 == 0 then 1 else 0)
    ensures y / 100 - (y - 1) / 100 == (if y % 100 == 0 then 1 else 0)
    ensures y / 400 - (y - 1) / 400 == (if y % 400 == 0 then 1 else 0)
  {
  }

  /** Consecutive years are `DaysInYear` apart. */
  lemma DaysBeforeNextYear(y: int)
    requires y >= 1
    ensures DaysBeforeYear(y + 1) == DaysBeforeYear(y) + DaysInYear(y)
  {
    DivStep(y);
    DivisorChain(y);
  }

  /** A multiple of 400 is a multiple of 100, which is a multiple of 4. */
  lemma DivisorChain(y: int)
    ensures y % 400 == 0 ==> y % 100 == 0
    ensures y % 100 == 0 ==> y % 4 == 0
  {
    if y % 400 == 0 {
      MultipleMod(4 * (y / 400), 100);
    }
    if y % 100 == 0 {
      MultipleMod(25 * (y / 100), 4);
    }
  }

  lemma MultipleMod(q: int, k: int)
    requires k == 4 || k == 100
    ensures (k * q) % k == 0
  {
    if k == 4 {
      assert (4 * q) % 4 == 0;
    } else {
      assert (100 * q) % 100 == 0;
    }
  }

  lemma DaysBeforeYearMonotone(a: int, b: int)
    requires 1 <= a <= b
    ensures DaysBeforeYear(a) + 365 * (b - a) <= DaysBeforeYear(b)
    decreases b - a
  {
    if a < b {
      DaysBeforeNextYear(a);
      DaysBeforeYearMonotone(a + 1, b);
    }
  }

  /** Every valid date lies within [1, MaxOrdinal]; the ends are the first and last date. */
  lemma OrdinalRange(d: Date)
    requires ValidDate(d)
    ensures 1 <= Ordinal(d) <= MaxOrdinal
    ensures Ordinal(d) == MaxOrdinal <==> d == LastDate
  {
    DaysBeforeYearMonotone(1, d.year);
    var leap := if d.month > 2 && IsLeapYear(d.year) then 1 else 0;
    assert DaysBeforeMonth(d.year, d.month) + d.day <= DaysInYear(d.year);
    assert DaysBeforeMonth(d.year, d.month) + d.day == DaysInYear(d.year)
      <==> d.month == 12 && d.day == 31;
    if d.year < MaxYear {
      DaysBeforeNextYear(d.year);
      DaysBeforeYearMonotone(d.year + 1, MaxYear);
      assert Ordinal(d) <= DaysBeforeYear(MaxYear);
    }
  }

  /** Stepping to the next day adds exactly one to the ordinal. */
  lemma NextDayOrdinal(d: Date)
    requires ValidDate(d) && d != LastDate
    ensures Ordinal(NextDay(d).value) == Ordinal(d) + 1
  {
    if d.day == DaysInMonth(d.year, d.month) && d.month == 12 {
      DaysBeforeNextYear(d.year);
    }
  }

  /** `d + n days` exists exactly when its ordinal stays within range, and then
      its ordinal is `Ordinal(d) + n`. */
  lemma {:induction false} AddDaysOrdinal(d: Date, n: nat)
    requires ValidDate(d)
    ensures AddDays(d, n).Some? <==> Ordinal(d) + n <= MaxOrdinal
    ensures AddDays(d, n).Some? ==> Ordinal(AddDays(d, n).value) == Ordinal(d) + n
  {
    OrdinalRange(d);
    if n > 0 {
      AddDaysOrdinal(d, n - 1);
      var prev := AddDays(d, n - 1);
      if prev.Some? {
        var e := prev.value;
        OrdinalRange(e);
        if e != LastDate {
          NextDayOrdinal(e);
        }
      }
    }
  }

  /** Advancing `n` days advances the weekday by `n` modulo 7. */
  lemma AddDaysWeekday(d: Date, n: nat)
    requires ValidDate(d) && AddDays(d, n).Some?
    ensures Weekday(AddDays(d, n).value) == (Weekday(d) + n) % 7
  {
    AddDaysOrdinal(d, n);
    ModShift(Ordinal(d) + 6, n);
  }

  lemma ModShift(a: int, n: nat)
    ensures (a + n) % 7 == (a % 7 + n) % 7
  {
    var q := a / 7;
    assert a == 7 * q + a % 7;
    assert a + n == 7 * q + (a % 7 + n);
  }

  lemma MonthsBefore(y: int, m1: int, m2: int)
    requires 1 <= m1 < m2 <= 12
    ensures DaysBeforeMonth(y, m1) + DaysInMonth(y, m1) <= DaysBeforeMonth(y, m2)
  {
  }

  lemma OrdinalBefore(a: Date, b: Date)
    requires ValidDate(a) && ValidDate(b) && DateLeq(a, b) && a != b
    ensures Ordinal(a) < Ordinal(b)
  {
    if a.year < b.year {
      assert DaysBeforeMonth(a.year, a.month) + a.day <= DaysInYear(a.year);
      DaysBeforeNextYear(a.year);
      DaysBeforeYearMonotone(a.year + 1, b.year);
    } else if a.month < b.month {
      MonthsBefore(a.year, a.month, b.month);
    }
  }

  /** Comparing dates field by field agrees with comparing their day numbers,
      which is how timestamps are compared when a frame is sorted by date. */
  lemma DateLeqIffOrdinal(a: Date, b: Date)
    requires ValidDate(a) && ValidDate(b)
    ensures DateLeq(a, b) <==> Ordinal(a) <= Ordinal(b)
  {
    if a != b {
      if DateLeq(a, b) {
        OrdinalBefore(a, b);
      } else {
        OrdinalBefore(b, a);
      }
    }
  }
}
