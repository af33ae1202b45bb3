/** The data handling of `train_model` (part1_ai/demand_forecast.py, lines
    68-136): choosing the feature columns by name, dropping rows with a NaN
    cell, sorting by date, cutting the sorted rows into training, validation
    and test slices, and writing each slice's predictions back in place.

    The regressor is a library component; here it is the parameter `fit`,
    which receives the training slice only and returns a predictor.
 */
module Trainer {
  import opened Maybe
  import opened Calendar
  import opened TimeFeatures
  import opened LagFeatures
  import opened Frames

  // ---------------------------------------------------------------------------
  // Feature names

  /** The fixed calendar features, in the order `train_model` lists them. */
  const FixedFeatureNames: seq<string> := [
    "year", "month", "day", "day_of_week", "quarter",
    "is_weekend", "is_holiday", "month_sin", "month_cos",
    "day_sin", "day_cos", "is_month_start", "is_month_end"]

  predicate MatchAt(s: string, sub: string, i: int)
    requires 0 <= i <= |s| - |sub|
  {
    s[i..i + |sub|] == sub
  }

  /** Python's `sub in s` for strings. */
  predicate Contains(s: string, sub: string) {
    exists i :: 0 <= i <= |s| - |sub| && MatchAt(s, sub, i)
  }

  /** The columns whose name contains `sub`, in column order. */
  function Select(cols: seq<string>, sub: string): (r: seq<string>)
    ensures forall x :: x in r ==> x in cols && Contains(x, sub)
    ensures |r| <= |cols|
  {
    if |cols| == 0 then []
    else (if Contains(cols[0], sub) then [cols[0]] else []) + Select(cols[1..], sub)
  }

  function FeatureNames(cols: seq<string>): seq<string> {
    FixedFeatureNames + Select(cols, "lag_") + Select(cols, "rolling_")
  }

  /** Selection keeps exactly the matching names: it distributes over
      concatenation and keeps a single name just when it matches, so the
      selected names appear in column order. */
  lemma {:induction false} SelectAppend(a: seq<string>, b: seq<string>, sub: string)
    ensures Select(a + b, sub) == Select(a, sub) + Select(b, sub)
  {
    if |a| > 0 {
      assert (a + b)[1..] == a[1..] + b;
      SelectAppend(a[1..], b, sub);
    } else {
      assert a + b == b;
    }
  }

  lemma {:induction false} SelectMembers(cols: seq<string>, sub: string, x: string)
    ensures x in Select(cols, sub) <==> x in cols && Contains(x, sub)
  {
    if |cols| > 0 {
      SelectMembers(cols[1..], sub, x);
      assert x in cols <==> x == cols[0] || x in cols[1..];
    }
  }

  /** The feature list is the 13 fixed names, then the `lag_` columns, then
      the `rolling_` columns; a name is a feature exactly when it is fixed or
      is a column containing one of the two markers. */
  lemma FeatureNamesMembers(cols: seq<string>, x: string)
    ensures x in FeatureNames(cols)
      <==> x in FixedFeatureNames || (x in cols && (Contains(x, "lag_") || Contains(x, "rolling_")))
  {
    SelectMembers(cols, "lag_", x);
    SelectMembers(cols, "rolling_", x);
  }

  // ---------------------------------------------------------------------------
  // Rows

  /** What the regressor sees of a row: the feature columns, not the date and
      not the target. */
  datatype Features = Features(calendar: CalendarFields, lag: Option<LagRow>)

  datatype Row = Row(date: Date, sales: real, features: Features)

  predicate Trainable(f: Frame) {
    WellFormed(f) && f.sales.Some? && f.calendar.Some?
  }

  function Rows(f: Frame): (r: seq<Row>)
    requires Trainable(f)
    ensures |r| == |f.dates|
    ensures forall i :: 0 <= i < |r| ==> r[i].date == f.dates[i] && r[i].sales == f.sales.value[i]
    ensures forall i :: 0 <= i < |r| ==> r[i].features.calendar == f.calendar.value[i]
    ensures forall i :: 0 <= i < |r| ==>
      r[i].features.lag == if f.lagged.Some? then Some(RowAt(f.lagged.value, |f.dates|, i)) else None
  {
    var n := |f.dates|;
    seq(n, i requires 0 <= i < n =>
      Row(f.dates[i], f.sales.value[i],
        Features(f.calendar.value[i],
          if f.lagged.Some? then Some(RowAt(f.lagged.value, n, i)) else None)))
  }

  predicate DatesValid(rows: seq<Row>) {
    forall i :: 0 <= i < |rows| ==> ValidDate(rows[i].date)
  }

  /** `dropna` keeps a row when none of its cells is NaN; only the lag and
      rolling cells can be. */
  predicate RowComplete(r: Row) {
    r.features.lag.None? || Complete(r.features.lag.value)
  }

  function DropIncomplete(rows: seq<Row>): (r: seq<Row>)
    ensures forall i :: 0 <= i < |r| ==> RowComplete(r[i])
    ensures forall x :: multiset(r)[x] == if RowComplete(x) then multiset(rows)[x] else 0
  {
    if |rows| == 0 then []
    else
      assert rows == [rows[0]] + rows[1..];
      (if RowComplete(rows[0]) then [rows[0]] else []) + DropIncomplete(rows[1..])
  }

  /** When the incomplete rows are exactly the first `k`, `dropna` is the
      suffix from `k` on. */
  lemma {:induction false} DropIncompletePrefix(rows: seq<Row>, k: nat)
    requires k <= |rows|
    requires forall i :: 0 <= i < |rows| ==> (RowComplete(rows[i]) <==> i >= k)
    ensures DropIncomplete(rows) == rows[k..]
  {
    if |rows| > 0 {
      var k' := if k == 0 then 0 else k - 1;
      CompleteFromInTail(rows, k);
      DropIncompletePrefix(rows[1..], k');
      if k == 0 {
        assert [rows[0]] + rows[1..] == rows;
      } else {
        assert rows[1..][k'..] == rows[k..];
      }
    }
  }

  lemma CompleteFromInTail(rows: seq<Row>, k: nat)
    requires 0 < |rows| && k <= |rows|
    requires forall i :: 0 <= i < |rows| ==> (RowComplete(rows[i]) <==> i >= k)
    ensures RowComplete(rows[0]) <==> k == 0
    ensures var k' := if k == 0 then 0 else k - 1;
      forall i :: 0 <= i < |rows| - 1 ==> (RowComplete(rows[1..][i]) <==> i >= k')
  {
    forall i | 0 <= i < |rows| - 1 ensures rows[1..][i] == rows[i + 1] {
    }
  }

  // ---------------------------------------------------------------------------
  // Sorting by date

  predicate SortedByDate(rows: seq<Row>) {
    forall i, j :: 0 <= i < j < |rows| ==> DateLeq(rows[i].date, rows[j].date)
  }

  function Insert(x: Row, rows: seq<Row>): (r: seq<Row>)
    ensures multiset(r) == multiset(rows) + multiset{x}
  {
    if |rows| == 0 then [x]
    else if DateLeq(x.date, rows[0].date) then [x] + rows
    else
      assert rows == [rows[0]] + rows[1..];
      [rows[0]] + Insert(x, rows[1..])
  }

  lemma {:induction false} InsertSorted(x: Row, rows: seq<Row>)
    requires SortedByDate(rows)
    ensures SortedByDate(Insert(x, rows))
  {
    if |rows| > 0 && !DateLeq(x.date, rows[0].date) {
      var tail := rows[1..];
      SortedTail(rows);
      InsertSorted(x, tail);
      var rest := Insert(x, tail);
      forall k | 0 <= k < |rest| ensures DateLeq(rows[0].date, rest[k].date) {
        assert rest[k] in multiset(rest);
        if rest[k] != x {
          assert rest[k] in tail;
        }
      }
      ConsSorted(rows[0], rest);
    }
  }

  lemma SortedTail(rows: seq<Row>)
    requires |rows| > 0 && SortedByDate(rows)
    ensures SortedByDate(rows[1..])
  {
    var tail := rows[1..];
    forall i, j | 0 <= i < j < |tail| ensures DateLeq(tail[i].date, tail[j].date) {
      assert tail[i] == rows[i + 1] && tail[j] == rows[j + 1];
    }
  }

  lemma ConsSorted(h: Row, rest: seq<Row>)
    requires SortedByDate(rest)
    requires forall k :: 0 <= k < |rest| ==> DateLeq(h.date, rest[k].date)
    ensures SortedByDate([h] + rest)
  {
    var r := [h] + rest;
    forall i, j | 0 <= i < j < |r| ensures DateLeq(r[i].date, r[j].date) {
      if i == 0 {
        assert r[j] == rest[j - 1];
      } else {
        assert r[i] == rest[i - 1] && r[j] == rest[j - 1];
      }
    }
  }

  /** `sort_values('date')`: the same rows, in ascending date order.  Rows with
      equal dates may come in any order, as in pandas' default sort. */
  function SortByDate(rows: seq<Row>): (r: seq<Row>)
    ensures SortedByDate(r)
    ensures multiset(r) == multiset(rows)
  {
    if |rows| == 0 then []
    else
      assert rows == [rows[0]] + rows[1..];
      var rest := SortByDate(rows[1..]);
      InsertSorted(rows[0], rest);
      Insert(rows[0], rest)
  }

  lemma SortedIsChronological(rows: seq<Row>, i: nat, j: nat)
    requires SortedByDate(rows) && DatesValid(rows) && i <= j < |rows|
    ensures Ordinal(rows[i].date) <= Ordinal(rows[j].date)
  {
    DateLeqIffOrdinal(rows[i].date, rows[j].date);
  }

  // ---------------------------------------------------------------------------
  // The split

  /** `int(0.7 * n)` and `int(0.15 * n)`, read as exact floors of 7n/10 and 15n/100. */
  function TrainSize(n: nat): (t: nat)
    ensures 10 * t <= 7 * n < 10 * t + 10
  {
    7 * n / 10
  }

  function ValSize(n: nat): (v: nat)
    ensures 100 * v <= 15 * n < 100 * v + 100
  {
    15 * n / 100
  }

  /** The slices are contiguous, cover every row once, and the test slice is
      never empty when there is a row. */
  lemma SplitPartition(n: nat)
    ensures TrainSize(n) + ValSize(n) <= n
    ensures n >= 1 ==> TrainSize(n) + ValSize(n) < n
  {
  }

  datatype Trained = Trained(
    featureNames: seq<string>,
    rows: seq<Row>,          // after dropna and the sort by date
    trainSize: nat,
    valSize: nat,
    predictions: seq<real>)  // the `predictions` column written back

  predicate SplitOf(r: Trained) {
    r.trainSize + r.valSize <= |r.rows|
  }

  function TrainRows(r: Trained): seq<Row> requires SplitOf(r) { r.rows[..r.trainSize] }
  function ValRows(r: Trained): seq<Row> requires SplitOf(r) { r.rows[r.trainSize..r.trainSize + r.valSize] }
  function TestRows(r: Trained): seq<Row> requires SplitOf(r) { r.rows[r.trainSize + r.valSize..] }

  function Inputs(rows: seq<Row>): (x: seq<Features>)
    ensures |x| == |rows|
    ensures forall i :: 0 <= i < |rows| ==> x[i] == rows[i].features
  {
    seq(|rows|, i requires 0 <= i < |rows| => rows[i].features)
  }

  function Targets(rows: seq<Row>): (y: seq<real>)
    ensures |y| == |rows|
    ensures forall i :: 0 <= i < |rows| ==> y[i] == rows[i].sales
  {
    seq(|rows|, i requires 0 <= i < |rows| => rows[i].sales)
  }

  function Predict(p: Features -> real, rows: seq<Row>): (y: seq<real>)
    ensures |y| == |rows|
    ensures forall i :: 0 <= i < |rows| ==> y[i] == p(rows[i].features)
  {
    seq(|rows|, i requires 0 <= i < |rows| => p(rows[i].features))
  }

  /** The library regressor: trained on feature vectors and targets, it yields a predictor. */
  type Fit = (seq<Features>, seq<real>) -> (Features -> real)

  /** The rows `train_model` splits: the frame's rows after `dropna`, sorted by date. */
  function Prepared(f: Frame): (rows: seq<Row>)
    requires Trainable(f)
    ensures multiset(rows) == multiset(DropIncomplete(Rows(f)))
    ensures SortedByDate(rows) && DatesValid(rows)
    ensures forall i :: 0 <= i < |rows| ==> RowComplete(rows[i])
  {
    var all := Rows(f);
    var kept := DropIncomplete(all);
    var rows := SortByDate(kept);
    forall i | 0 <= i < |rows| ensures RowComplete(rows[i]) && ValidDate(rows[i].date) {
      assert rows[i] in multiset(kept);
      assert rows[i] in multiset(all);
    }
    rows
  }

  /** `train_model`.  Selecting the feature columns raises `KeyError` when
      the calendar group is missing, and selecting `sales` raises when the
      frame has no target.  With fewer than `MinSplitRows` rows left after
      `dropna` the validation slice is empty, and the validation RMSE (or,
      with an empty training slice, the fit itself) raises `ValueError`. */
  function TrainModel(f: Frame, fit: Fit): (r: Result<Trained>)
    requires WellFormed(f)
    ensures r.Err? <==> f.calendar.None? || f.sales.None? || |Prepared(f)| < MinSplitRows
    ensures r == Err(KeyError("year")) <==> f.calendar.None?
    ensures r == Err(KeyError("sales")) <==> f.calendar.Some? && f.sales.None?
    ensures r == Err(ValueError) <==> Trainable(f) && |Prepared(f)| < MinSplitRows
    ensures r.Ok? ==>
      && Trainable(f)
      && |r.value.rows| >= MinSplitRows
      && r.value.featureNames == FeatureNames(ColumnNames(f))
      && r.value.rows == Prepared(f)
      && r.value.trainSize == TrainSize(|r.value.rows|)
      && r.value.valSize == ValSize(|r.value.rows|)
      && SplitOf(r.value)
      && |r.value.predictions| == |r.value.rows|
  {
    if f.calendar.None? then Err(KeyError("year"))
    else if f.sales.None? then Err(KeyError("sales"))
    else
      var rows := Prepared(f);
      EmptyValidationIff(|rows|);
      if ValSize(|rows|) == 0 then Err(ValueError)
      else Ok(FitAndPredict(FeatureNames(ColumnNames(f)), rows, fit))
  }

  /** The smallest row count whose validation slice, floor(0.15 n), is not empty. */
  const MinSplitRows: nat := 7

  /** The validation slice is empty exactly below `MinSplitRows` rows, and an
      empty training slice comes with an empty validation slice. */
  lemma EmptyValidationIff(n: nat)
    ensures ValSize(n) == 0 <==> n < MinSplitRows
    ensures TrainSize(n) == 0 ==> ValSize(n) == 0
  {
  }

  /** The part of `train_model` after the sort: split the rows 70/15/15 in
      order, fit on the first slice, predict every slice and write the
      predictions back by position. */
  function FitAndPredict(featureNames: seq<string>, rows: seq<Row>, fit: Fit): (r: Trained)
    ensures r.featureNames == featureNames && r.rows == rows
    ensures r.trainSize == TrainSize(|rows|) && r.valSize == ValSize(|rows|)
    ensures SplitOf(r) && |r.predictions| == |rows|
  {
    var n := |rows|;
    var t := TrainSize(n);
    var v := ValSize(n);
    SplitPartition(n);
    var train := rows[..t];
    var predictor := fit(Inputs(train), Targets(train));
    var predictions :=
      Predict(predictor, train) + Predict(predictor, rows[t..t + v]) + Predict(predictor, rows[t + v..]);
    Trained(featureNames, rows, t, v, predictions)
  }

  /** The three slices put back together are the sorted rows, and their sizes
      are floor(0.7 n), floor(0.15 n) and the remainder, which is at least one
      row whenever there is a row at all. */
  lemma SplitSlices(r: Trained)
    requires r.trainSize == TrainSize(|r.rows|) && r.valSize == ValSize(|r.rows|)
    ensures SplitOf(r)
    ensures TrainRows(r) + ValRows(r) + TestRows(r) == r.rows
    ensures var n := |r.rows|;
      && |TrainRows(r)| == 7 * n / 10
      && |ValRows(r)| == 15 * n / 100
      && |TrainRows(r)| + |ValRows(r)| + |TestRows(r)| == n
      && (n >= 1 ==> |TestRows(r)| >= 1)
  {
    SplitPartition(|r.rows|);
    assert TrainRows(r) + ValRows(r) + TestRows(r) == r.rows;
  }

  /** Chronological split: every training date is on or before every
      validation date, which is on or before every test date. */
  lemma TrainModelChronological(f: Frame, fit: Fit, i: nat, j: nat)
    requires WellFormed(f) && TrainModel(f, fit).Ok?
    requires i <= j < |TrainModel(f, fit).value.rows|
    ensures var rows := TrainModel(f, fit).value.rows;
      ValidDate(rows[i].date) && ValidDate(rows[j].date)
      && Ordinal(rows[i].date) <= Ordinal(rows[j].date)
  {
    SortedIsChronological(TrainModel(f, fit).value.rows, i, j);
  }

  /** The predictor fitted on the training slice. */
  function Predictor(r: Trained, fit: Fit): Features -> real
    requires SplitOf(r)
  {
    fit(Inputs(TrainRows(r)), Targets(TrainRows(r)))
  }

  /** Writing the three slices' predictions back by position puts, on every
      row, the prediction for that same row, and the predictor was fitted on
      the training slice alone. */
  lemma PredictionsAligned(f: Frame, fit: Fit)
    requires WellFormed(f) && TrainModel(f, fit).Ok?
    ensures var r := TrainModel(f, fit).value;
      && SplitOf(r)
      && |r.predictions| == |r.rows|
      && forall i :: 0 <= i < |r.rows| ==> r.predictions[i] == Predictor(r, fit)(r.rows[i].features)
  {
    FitAndPredictAligned(FeatureNames(ColumnNames(f)), Prepared(f), fit);
  }

  /** Every row's prediction is the training-slice predictor applied to that row. */
  lemma FitAndPredictAligned(featureNames: seq<string>, rows: seq<Row>, fit: Fit)
    ensures var r := FitAndPredict(featureNames, rows, fit);
      forall i :: 0 <= i < |rows| ==> r.predictions[i] == Predictor(r, fit)(rows[i].features)
  {
    var r := FitAndPredict(featureNames, rows, fit);
    SplitPartition(|rows|);
    PlacementByPosition(Predictor(r, fit), rows, r.trainSize, r.valSize);
  }

  lemma PlacementByPosition(p: Features -> real, rows: seq<Row>, t: nat, v: nat)
    requires t + v <= |rows|
    ensures Predict(p, rows[..t]) + Predict(p, rows[t..t + v]) + Predict(p, rows[t + v..]) == Predict(p, rows)
  {
    var a, b, c := Predict(p, rows[..t]), Predict(p, rows[t..t + v]), Predict(p, rows[t + v..]);
    var all := a + b + c;
    forall i | 0 <= i < |rows| ensures all[i] == p(rows[i].features) {
      if i < t {
        assert all[i] == a[i];
      } else if i < t + v {
        assert all[i] == b[i - t];
      } else {
        assert all[i] == c[i - t - v];
      }
    }
  }

  /** No leakage into fitting: two row lists whose training slices agree get
      the same prediction for every row with the same features, whatever
      their validation and test rows hold.  `TrainModel` hands its sorted rows
      to `FitAndPredict`, so this holds for any two frames. */
  lemma FitSeesOnlyTrainingSlice(names1: seq<string>, rows1: seq<Row>, names2: seq<string>, rows2: seq<Row>,
                                 fit: Fit, i: nat, j: nat)
    requires rows1[..TrainSize(|rows1|)] == rows2[..TrainSize(|rows2|)]
    requires i < |rows1| && j < |rows2| && rows1[i].features == rows2[j].features
    ensures FitAndPredict(names1, rows1, fit).predictions[i] == FitAndPredict(names2, rows2, fit).predictions[j]
  {
    FitAndPredictAligned(names1, rows1, fit);
    FitAndPredictAligned(names2, rows2, fit);
  }

  /** In training mode `dropna` removes exactly the first 30 rows of the input
      order (all of them when there are fewer), since the 30-day lag is NaN
      there and every other cell is defined from row 1 on. */
  lemma TrainingModeKeepsFrom30(f: Frame)
    requires Trainable(f) && f.lagged == Some(Training(f.sales.value))
    ensures var n := |f.dates|; var k := if n < MaxLag then n else MaxLag;
      && DropIncomplete(Rows(f)) == Rows(f)[k..]
      && multiset(Prepared(f)) == multiset(Rows(f)[k..])
      && |Prepared(f)| == n - k
  {
    var n := |f.dates|;
    var k := if n < MaxLag then n else MaxLag;
    var rows := Rows(f);
    forall i | 0 <= i < n ensures RowComplete(rows[i]) <==> i >= k {
      TrainingCompleteIff(f.sales.value, i);
    }
    DropIncompletePrefix(rows, k);
    assert |multiset(Prepared(f))| == |multiset(Rows(f)[k..])|;
  }

  /** The whole training path of the script: calendar fields, training-mode
      lags, then `train_model`.  It succeeds exactly when at least
      `MaxLag + MinSplitRows` (37) days are given, and then it trains on the
      rows from the 31st on, with slices that follow the 70/15/15 rule;
      otherwise it raises `ValueError`. */
  lemma TrainingPipeline(dates: seq<Date>, sales: seq<real>, holiday: Date -> bool, fit: Fit)
    requires |sales| == |dates| && forall i :: 0 <= i < |dates| ==> ValidDate(dates[i])
    ensures var f0 := Frame(dates, Some(sales), None, None);
      var f1 := CreateTimeFeatures(f0, holiday);
      var f2 := AddLagFeatures(f1, None);
      && f2.Ok?
      && (TrainModel(f2.value, fit).Ok? <==> |dates| >= MaxLag + MinSplitRows)
      && (TrainModel(f2.value, fit).Err? ==> TrainModel(f2.value, fit).error == ValueError)
      && (TrainModel(f2.value, fit).Ok? ==>
        var r := TrainModel(f2.value, fit).value;
        && |r.rows| == |dates| - MaxLag
        && r.trainSize == 7 * |r.rows| / 10
        && r.valSize == 15 * |r.rows| / 100)
  {
    var f0 := Frame(dates, Some(sales), None, None);
    var f1 := CreateTimeFeatures(f0, holiday);
    var f2 := AddLagFeatures(f1, None).value;
    assert f2.lagged == Some(Training(f2.sales.value));
    TrainingModeKeepsFrom30(f2);
  }
}
