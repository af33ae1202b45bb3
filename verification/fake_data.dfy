/** The synthetic sales generator (part1_ai/data/fake_data.py).

    One observation per (date, warehouse, product) over a run of consecutive
    dates: a base volume scaled by a warehouse factor, an intra-month wave, a
    yearly wave, a holiday factor, a weekend factor and a random draw, then
    truncated to an integer and clamped to [20, 500].  The sine function and
    the random draws are parameters: `sin` is any function bounded by 1 in
    absolute value, and `draw(j)` is the value of the `j`-th call to
    `random.uniform(0.8, 1.2)`.
 */
module FakeData {
  import opened Maybe
  import opened Calendar
  import opened DateText
  import TimeFeatures

  /** The products are 1 to 4 and the warehouses 1 and 2. */
  predicate IsProduct(p: int) { 1 <= p <= 4 }
  predicate IsWarehouse(w: int) { 1 <= w <= 2 }

  /** Base daily volume per product: product 1 sells most, product 4 least. */
  function ProductBaseSales(p: int): real
    requires IsProduct(p)
  {
    match p
    case 1 => 200.0
    case 2 => 150.0
    case 3 => 100.0
    case 4 => 75.0
  }

  /** Warehouse 1 sells 20% above the base, warehouse 2 20% below. */
  function WarehouseFactor(w: int): real
    requires IsWarehouse(w)
  {
    if w == 1 then 1.2 else 0.8
  }

  /** numpy's double-precision pi, written out. */
  const Pi: real := 3.141592653589793

  const MinSales: int := 20
  const MaxSales: int := 500

  ghost predicate SineBounded(sin: real -> real) {
    forall x :: -1.0 <= sin(x) <= 1.0
  }

  // ---------------------------------------------------------------------------
  // Factors

  /** Intra-month wave `1 + 0.2 sin(day * pi / 30)`. */
  function MonthlyFactor(sin: real -> real, day: int): (f: real)
    requires SineBounded(sin)
    ensures 0.8 <= f <= 1.2
  {
    1.0 + 0.2 * sin((day as real) * Pi / 30.0)
  }

  /** Yearly wave `1 + 0.3 sin((month - 1) * pi / 6)`. */
  function SeasonalFactor(sin: real -> real, month: int): (f: real)
    requires SineBounded(sin)
    ensures 0.7 <= f <= 1.3
  {
    1.0 + 0.3 * sin(((month - 1) as real) * Pi / 6.0)
  }

  /** Black Friday (taken to be 24 November), the second half of December,
      and the first week of January; checked in that order. */
  function HolidayFactor(month: int, day: int): real {
    if month == 11 && day == 24 then 2.5
    else if month == 12 && day >= 15 then 1.8
    else if month == 1 && day <= 7 then 0.7
    else 1.0
  }

  /** Saturday and Sunday (weekdays 5 and 6, Monday being 0). */
  function WeekendFactor(weekday: int): real {
    if weekday >= 5 then 1.3 else 1.0
  }

  /** Python's `int(x)` on a float: truncation toward zero. */
  function Trunc(x: real): (n: int)
    ensures x >= 0.0 ==> n as real <= x < n as real + 1.0
    ensures x < 0.0 ==> n as real - 1.0 < x <= n as real
  {
    if x >= 0.0 then x.Floor else -((-x).Floor)
  }

  /** `max(20, min(500, n))`. */
  function Clamp(n: int): (c: int)
    ensures MinSales <= c <= MaxSales
    ensures MinSales <= n <= MaxSales ==> c == n
  {
    if n < MinSales then MinSales else if n > MaxSales then MaxSales else n
  }

  /** The sales count for one row from its seven factors. */
  function UnitSales(base: real, warehouse: real, monthly: real, seasonal: real,
                     holiday: real, weekend: real, noise: real): int
  {
    Clamp(Trunc(base * warehouse * monthly * seasonal * holiday * weekend * noise))
  }

  /** The untruncated product of the seven factors, multiplied left to right. */
  function Amount(base: real, warehouse: real, monthly: real, seasonal: real,
                  holiday: real, weekend: real, noise: real): real
  {
    base * warehouse * monthly * seasonal * holiday * weekend * noise
  }

  /** The sales count for product `p` at warehouse `w` on date `d` with random draw `noise`. */
  function Sales(sin: real -> real, d: Date, w: int, p: int, noise: real): int
    requires SineBounded(sin) && ValidDate(d)
    requires IsWarehouse(w) && IsProduct(p)
  {
    UnitSales(ProductBaseSales(p), WarehouseFactor(w),
      MonthlyFactor(sin, d.day), SeasonalFactor(sin, d.month),
      HolidayFactor(d.month, d.day), WeekendFactor(Weekday(d)), noise)
  }

  // ---------------------------------------------------------------------------
  // Rows

  datatype Observation = Observation(date: string, warehouse: int, product: int, sales: int)

  /** `[start + timedelta(days=i) for i in range(n)]`, or `None` when a date
      would pass the last representable day. */
  function DateRange(start: Date, n: nat): (r: Option<seq<Date>>)
    requires ValidDate(start)
    ensures r.Some? ==> |r.value| == n
    ensures r.Some? ==> forall i :: 0 <= i < n ==> AddDays(start, i) == Some(r.value[i])
  {
    if n == 0 then Some([])
    else
      match DateRange(start, n - 1)
      case None => None
      case Some(ds) =>
        match AddDays(start, n - 1)
        case None => None
        case Some(d) => Some(ds + [d])
  }

  predicate AllValid(dates: seq<Date>) {
    forall i :: 0 <= i < |dates| ==> ValidDate(dates[i])
  }

  /** Row `k` of the output (eight rows per date: two warehouses times four products) for the date list `dates`: date `k / 8`, then
      warehouse `(k % 8) / 4`, then product `k % 4`, using the `k`-th draw. */
  function ObservationAt(sin: real -> real, draw: nat -> real, dates: seq<Date>, k: nat): Observation
    requires SineBounded(sin) && AllValid(dates) && k < 8 * |dates|
  {
    var d := dates[k / 8];
    var w := k % 8 / 4 + 1;
    var p := k % 4 + 1;
    Observation(FormatDate(d), w, p, Sales(sin, d, w, p, draw(k)))
  }

  /** The first `n` rows of the output. */
  function Expected(sin: real -> real, draw: nat -> real, dates: seq<Date>, n: nat): (r: seq<Observation>)
    requires SineBounded(sin) && AllValid(dates) && n <= 8 * |dates|
    ensures |r| == n
  {
    seq(n, k requires 0 <= k < n => ObservationAt(sin, draw, dates, k))
  }

  lemma ExpectedStep(sin: real -> real, draw: nat -> real, dates: seq<Date>, n: nat)
    requires SineBounded(sin) && AllValid(dates) && n < 8 * |dates|
    ensures Expected(sin, draw, dates, n + 1)
         == Expected(sin, draw, dates, n) + [ObservationAt(sin, draw, dates, n)]
  {
    var a, prefix := Expected(sin, draw, dates, n + 1), Expected(sin, draw, dates, n);
    var b := prefix + [ObservationAt(sin, draw, dates, n)];
    forall k | 0 <= k < n + 1 ensures a[k] == b[k] {
      if k < n {
        assert b[k] == prefix[k];
      }
    }
  }

  lemma RowIndex(i: nat, wi: nat, pi: nat)
    requires wi < 2 && pi < 4
    ensures (8 * i + 4 * wi + pi) / 8 == i
    ensures (8 * i + 4 * wi + pi) % 8 / 4 == wi
    ensures (8 * i + 4 * wi + pi) % 4 == pi
  {
  }

  /** The first step of `generate_sales_data`: the list of dates, or the
      `OverflowError` raised while building it. */
  method ListDates(start: Date, n: nat) returns (r: Option<seq<Date>>)
    requires ValidDate(start)
    ensures r == DateRange(start, n)
  {
    var dates: seq<Date> := [];
    var i := 0;
    while i < n
      invariant 0 <= i <= n
      invariant DateRange(start, i) == Some(dates)
    {
      var d := AddDays(start, i);
      if d.None? {
        NoRangeBeyond(start, i + 1, n);
        return None;
      }
      dates := dates + [d.value];
      i := i + 1;
    }
    return Some(dates);
  }

  /** The rows of day `i`: warehouse 1, then warehouse 2. */
  method AppendDay(sin: real -> real, draw: nat -> real, dates: seq<Date>, i: nat, data: seq<Observation>)
    returns (out: seq<Observation>)
    requires SineBounded(sin) && AllValid(dates) && i < |dates|
    requires data == Expected(sin, draw, dates, 8 * i)
    ensures out == Expected(sin, draw, dates, 8 * i + 8)
  {
    out := data;
    var w := 1;
    while w <= 2
      invariant 1 <= w <= 3
      invariant out == Expected(sin, draw, dates, 8 * i + 4 * (w - 1))
    {
      out := AppendWarehouse(sin, draw, dates, i, w, out);
      w := w + 1;
    }
  }

  /** The rows of day `i` at warehouse `w`: products 1 to 4. */
  method AppendWarehouse(sin: real -> real, draw: nat -> real, dates: seq<Date>, i: nat, w: int,
                         data: seq<Observation>)
    returns (out: seq<Observation>)
    requires SineBounded(sin) && AllValid(dates) && i < |dates| && 1 <= w <= 2
    requires data == Expected(sin, draw, dates, 8 * i + 4 * (w - 1))
    ensures out == Expected(sin, draw, dates, 8 * i + 4 * w)
  {
    var date := dates[i];
    out := data;
    var p := 1;
    while p <= 4
      invariant 1 <= p <= 5
      invariant out == Expected(sin, draw, dates, 8 * i + 4 * (w - 1) + (p - 1))
    {
      var k := |out|;
      var sales := Sales(sin, date, w, p, draw(k));
      var row := Observation(FormatDate(date), w, p, sales);
      NextRow(sin, draw, dates, i, w, p, out);
      out := out + [row];
      p := p + 1;
    }
  }

  /** Rows are date-major, then warehouse-major: row `8 i + 4 (w - 1) + (p - 1)`
      is warehouse `w`, product `p` on the `i`-th date, priced with the draw of
      that same position. */
  lemma ObservationOrder(sin: real -> real, draw: nat -> real, dates: seq<Date>, i: nat, w: int, p: int, k: nat)
    requires SineBounded(sin) && AllValid(dates) && i < |dates| && IsWarehouse(w) && IsProduct(p)
    requires k == 8 * i + 4 * (w - 1) + (p - 1)
    ensures k < 8 * |dates|
    ensures ObservationAt(sin, draw, dates, k)
         == Observation(FormatDate(dates[i]), w, p, Sales(sin, dates[i], w, p, draw(k)))
  {
    RowIndex(i, w - 1, p - 1);
  }

  /** Appending the row for warehouse `w`, product `p` on the `i`-th date
      extends the output by exactly one expected row. */
  lemma NextRow(sin: real -> real, draw: nat -> real, dates: seq<Date>, i: nat, w: int, p: int,
                out: seq<Observation>)
    requires SineBounded(sin) && AllValid(dates) && i < |dates| && IsWarehouse(w) && IsProduct(p)
    requires out == Expected(sin, draw, dates, 8 * i + 4 * (w - 1) + (p - 1))
    ensures out + [Observation(FormatDate(dates[i]), w, p, Sales(sin, dates[i], w, p, draw(|out|)))]
         == Expected(sin, draw, dates, 8 * i + 4 * (w - 1) + p)
  {
    var k := |out|;
    ObservationOrder(sin, draw, dates, i, w, p, k);
    ExpectedStep(sin, draw, dates, k);
  }

  /** `generate_sales_data` without the CSV file: the rows it writes, or the
      `OverflowError` raised while listing the dates.  A day count of zero or
      less gives no rows. */
  method GenerateSalesData(start: Date, numDays: int, sin: real -> real, draw: nat -> real)
    returns (r: Result<seq<Observation>>)
    requires ValidDate(start) && SineBounded(sin)
    ensures var n := if numDays > 0 then numDays else 0;
      r.Err? <==> DateRange(start, n).None?
    ensures var n := if numDays > 0 then numDays else 0;
      r.Ok? ==>
        && DateRange(start, n).Some?
        && |r.value| == 8 * n
        && forall k :: 0 <= k < |r.value| ==>
             r.value[k] == ObservationAt(sin, draw, DateRange(start, n).value, k)
  {
    var n := if numDays > 0 then numDays else 0;
    var listed := ListDates(start, n);
    if listed.None? {
      return Err(OverflowError);
    }
    var dates := listed.value;
    var data: seq<Observation> := [];
    var i := 0;
    while i < n
      invariant 0 <= i <= n
      invariant data == Expected(sin, draw, dates, 8 * i)
    {
      data := AppendDay(sin, draw, dates, i, data);
      i := i + 1;
    }
    return Ok(data);
  }

  lemma {:induction false} NoRangeBeyond(start: Date, m: nat, n: nat)
    requires ValidDate(start) && 1 <= m <= n && AddDays(start, m - 1).None?
    ensures DateRange(start, n).None?
    decreases n
  {
    if n > m {
      NoRangeBeyond(start, m, n - 1);
    }
  }

  // ---------------------------------------------------------------------------
  // Properties

  /** Every generated row lies in [20, 500], carries a warehouse in {1, 2} and
      a product in {1, ..., 4}, and its date text reads back as its date. */
  lemma ObservationWellFormed(sin: real -> real, draw: nat -> real, dates: seq<Date>, k: nat)
    requires SineBounded(sin) && AllValid(dates) && k < 8 * |dates|
    ensures var o := ObservationAt(sin, draw, dates, k);
      && MinSales <= o.sales <= MaxSales
      && IsWarehouse(o.warehouse) && IsProduct(o.product)
      && ParseDate(o.date) == Some(dates[k / 8])
  {
    ParseFormat(dates[k / 8]);
  }

  /** The dates are `start, start + 1, ...`: the list exists exactly when its
      last day is representable, and the `i`-th date is `i` days after `start`. */
  lemma DateRangeConsecutive(start: Date, n: nat)
    requires ValidDate(start)
    ensures DateRange(start, n).Some? <==> n == 0 || Ordinal(start) + n - 1 <= MaxOrdinal
    ensures DateRange(start, n).Some? ==>
      forall i :: 0 <= i < n ==> Ordinal(DateRange(start, n).value[i]) == Ordinal(start) + i
  {
    if n > 0 {
      AddDaysOrdinal(start, n - 1);
      if Ordinal(start) + n - 1 <= MaxOrdinal {
        forall i | 0 <= i < n ensures AddDays(start, i).Some? {
          AddDaysOrdinal(start, i);
        }
        AllDaysRange(start, n);
      }
    }
    if DateRange(start, n).Some? {
      forall i | 0 <= i < n ensures Ordinal(DateRange(start, n).value[i]) == Ordinal(start) + i {
        AddDaysOrdinal(start, i);
      }
    }
  }

  lemma {:induction false} AllDaysRange(start: Date, n: nat)
    requires ValidDate(start)
    requires forall i :: 0 <= i < n ==> AddDays(start, i).Some?
    ensures DateRange(start, n).Some?
  {
    if n > 0 {
      AllDaysRange(start, n - 1);
    }
  }

  /** Holiday factor selection: each factor belongs to exactly one date rule,
      and the three rules never overlap. */
  lemma HolidayFactorRules(month: int, day: int)
    ensures HolidayFactor(month, day) == 2.5 <==> month == 11 && day == 24
    ensures HolidayFactor(month, day) == 1.8 <==> month == 12 && day >= 15
    ensures HolidayFactor(month, day) == 0.7 <==> month == 1 && day <= 7
    ensures HolidayFactor(month, day) == 1.0
      <==> !(month == 11 && day == 24) && !(month == 12 && day >= 15) && !(month == 1 && day <= 7)
  {
  }

  /** The generator's weekend boost falls on exactly the days the forecaster
      flags as weekend. */
  lemma WeekendFactorMatchesFlag(d: Date, holiday: Date -> bool)
    requires ValidDate(d)
    ensures WeekendFactor(Weekday(d)) == 1.3 <==> TimeFeatures.Fields(d, holiday).isWeekend == 1
    ensures WeekendFactor(Weekday(d)) == 1.3 || WeekendFactor(Weekday(d)) == 1.0
  {
  }

  /** 24 November 2023 is a Friday: the Black Friday factor applies and the
      weekend factor does not.  1 January 2023, the script's start date, is a
      Sunday inside the New Year week. */
  lemma ScriptDates()
    ensures ValidDate(Date(2023, 11, 24)) && Weekday(Date(2023, 11, 24)) == 4
    ensures HolidayFactor(11, 24) == 2.5 && WeekendFactor(Weekday(Date(2023, 11, 24))) == 1.0
    ensures ValidDate(Date(2023, 1, 1)) && Weekday(Date(2023, 1, 1)) == 6
    ensures HolidayFactor(1, 1) == 0.7 && WeekendFactor(Weekday(Date(2023, 1, 1))) == 1.3
  {
  }

  lemma MulMonotone(a: real, b: real, c: real)
    requires a <= b && c > 0.0
    ensures a * c <= b * c
  {
  }

  lemma TruncMonotone(x: real, y: real)
    requires x <= y
    ensures Trunc(x) <= Trunc(y)
  {
  }

  lemma ClampMonotone(m: int, n: int)
    requires m <= n
    ensures Clamp(m) <= Clamp(n)
  {
  }

  /** More base volume and a larger warehouse factor never give fewer sales
      when the other five factors are the same positive numbers. */
  lemma UnitSalesMonotone(b1: real, b2: real, w1: real, w2: real, monthly: real, seasonal: real,
                          holiday: real, weekend: real, noise: real)
    requires 0.0 < b1 <= b2 && 0.0 < w1 <= w2
    requires monthly > 0.0 && seasonal > 0.0 && holiday > 0.0 && weekend > 0.0 && noise > 0.0
    ensures UnitSales(b1, w1, monthly, seasonal, holiday, weekend, noise)
         <= UnitSales(b2, w2, monthly, seasonal, holiday, weekend, noise)
  {
    var a1 := Amount(b1, w1, monthly, seasonal, holiday, weekend, noise);
    var a2 := Amount(b2, w2, monthly, seasonal, holiday, weekend, noise);
    AmountMonotone(b1, b2, w1, w2, monthly, seasonal, holiday, weekend, noise);
    TruncMonotone(a1, a2);
    ClampMonotone(Trunc(a1), Trunc(a2));
  }

  /** The product of positive factors grows with its first two factors. */
  lemma AmountMonotone(b1: real, b2: real, w1: real, w2: real, monthly: real, seasonal: real,
                       holiday: real, weekend: real, noise: real)
    requires 0.0 < b1 <= b2 && 0.0 < w1 <= w2
    requires monthly > 0.0 && seasonal > 0.0 && holiday > 0.0 && weekend > 0.0 && noise > 0.0
    ensures Amount(b1, w1, monthly, seasonal, holiday, weekend, noise)
         <= Amount(b2, w2, monthly, seasonal, holiday, weekend, noise)
  {
    MulMonotone(b1, b2, w1);
    MulMonotone(w1, w2, b2);
    var x, y := b1 * w1, b2 * w2;
    assert x <= y;
    MulMonotone(x, y, monthly);
    x, y := x * monthly, y * monthly;
    MulMonotone(x, y, seasonal);
    x, y := x * seasonal, y * seasonal;
    MulMonotone(x, y, holiday);
    x, y := x * holiday, y * holiday;
    MulMonotone(x, y, weekend);
    x, y := x * weekend, y * weekend;
    MulMonotone(x, y, noise);
  }

  /** "Product 1 sells most, product 4 least": on the same date, at the same
      warehouse and with the same draw, a lower-numbered product never sells
      less. */
  lemma ProductOrdering(sin: real -> real, d: Date, w: int, p: int, q: int, noise: real)
    requires SineBounded(sin) && ValidDate(d) && IsWarehouse(w) && IsProduct(p) && IsProduct(q)
    requires p <= q && 0.8 <= noise <= 1.2
    ensures Sales(sin, d, w, q, noise) <= Sales(sin, d, w, p, noise)
  {
    UnitSalesMonotone(ProductBaseSales(q), ProductBaseSales(p), WarehouseFactor(w), WarehouseFactor(w),
      MonthlyFactor(sin, d.day), SeasonalFactor(sin, d.month),
      HolidayFactor(d.month, d.day), WeekendFactor(Weekday(d)), noise);
  }

  /** Warehouse 1 never sells less than warehouse 2 for the same date,
      product and draw. */
  lemma WarehouseOrdering(sin: real -> real, d: Date, p: int, noise: real)
    requires SineBounded(sin) && ValidDate(d) && IsProduct(p) && 0.8 <= noise <= 1.2
    ensures Sales(sin, d, 2, p, noise) <= Sales(sin, d, 1, p, noise)
  {
    UnitSalesMonotone(ProductBaseSales(p), ProductBaseSales(p), WarehouseFactor(2), WarehouseFactor(1),
      MonthlyFactor(sin, d.day), SeasonalFactor(sin, d.month),
      HolidayFactor(d.month, d.day), WeekendFactor(Weekday(d)), noise);
  }
}
