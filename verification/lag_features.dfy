/** The historical-sales columns `add_lag_features` builds
    (part1_ai/demand_forecast.py, lines 47-66): six lags and, for three window
    widths, a rolling mean and a rolling spread.  Rolling standard deviations
    are modelled by their variances (the square root is left out).

    Training mode works on the frame's own `sales` column; inference mode
    broadcasts one vector, taken from the tail of another series, to every row.
 */
module LagFeatures {
  import opened Maybe
  import opened Stats

  /** The lag steps, in the order their columns are added. */
  const LagSteps: seq<nat> := [1, 2, 3, 7, 14, 30]
  /** The rolling window widths, in the order their columns are added. */
  const Windows: seq<nat> := [7, 14, 30]
  /** Inference mode reads this many trailing values of its source series. */
  const TailLength: nat := 30
  /** The longest lag: rows before it have no value in its column. */
  const MaxLag: nat := 30

  /** A column of cells, `None` standing for NaN. */
  type Column = seq<Option<real>>

  /** The lag and rolling columns of a frame with `lags[j]` for `LagSteps[j]`
      and `means[j]`, `variances[j]` for `Windows[j]`. */
  datatype LagColumns = LagColumns(
    lags: seq<Column>,
    means: seq<Column>,
    variances: seq<Column>)

  predicate Shaped(c: LagColumns, n: nat) {
    && |c.lags| == |LagSteps| && |c.means| == |Windows| && |c.variances| == |Windows|
    && (forall j :: 0 <= j < |c.lags| ==> |c.lags[j]| == n)
    && (forall j :: 0 <= j < |c.means| ==> |c.means[j]| == n)
    && (forall j :: 0 <= j < |c.variances| ==> |c.variances[j]| == n)
  }

  /** One row's cells across the twelve lag and rolling columns. */
  datatype LagRow = LagRow(lags: seq<Option<real>>, means: seq<Option<real>>, variances: seq<Option<real>>)

  function RowAt(c: LagColumns, n: nat, i: nat): (r: LagRow)
    requires Shaped(c, n) && i < n
    ensures |r.lags| == |LagSteps| && |r.means| == |Windows| && |r.variances| == |Windows|
  {
    LagRow(
      seq(|LagSteps|, j requires 0 <= j < |LagSteps| => c.lags[j][i]),
      seq(|Windows|, j requires 0 <= j < |Windows| => c.means[j][i]),
      seq(|Windows|, j requires 0 <= j < |Windows| => c.variances[j][i]))
  }

  predicate AllPresent(cells: seq<Option<real>>) {
    forall j :: 0 <= j < |cells| ==> cells[j].Some?
  }

  /** A row that survives `dropna`: no cell is NaN. */
  predicate Complete(r: LagRow) {
    AllPresent(r.lags) && AllPresent(r.means) && AllPresent(r.variances)
  }

  // ---------------------------------------------------------------------------
  // Training mode

  function Present(s: seq<real>): (r: Column)
    ensures |r| == |s|
    ensures forall i :: 0 <= i < |s| ==> r[i] == Some(s[i])
  {
    seq(|s|, i requires 0 <= i < |s| => Some(s[i]))
  }

  function Absent(n: nat): (r: Column)
    ensures |r| == n
    ensures forall i :: 0 <= i < n ==> r[i] == None
  {
    seq(n, _ => None)
  }

  /** pandas' `shift(k)`: `k` NaN cells in front, then the series without its last `k` values. */
  function Shift(s: seq<real>, k: nat): (r: Column)
    ensures |r| == |s|
  {
    if k >= |s| then Absent(|s|) else Absent(k) + Present(s[..|s| - k])
  }

  /** The rows a rolling window of width `w` ending at row `i` covers; with
      `min_periods=1` it is shortened at the front of the series. */
  function Window(s: seq<real>, i: nat, w: nat): (r: seq<real>)
    requires i < |s| && w >= 1
    ensures 1 <= |r| <= w
  {
    var lo := if i + 1 >= w then i + 1 - w else 0;
    s[lo..i + 1]
  }

  /** `rolling(window=w, min_periods=1).mean()`. */
  function RollingMean(s: seq<real>, w: nat): (r: Column)
    requires w >= 1
    ensures |r| == |s|
  {
    seq(|s|, i requires 0 <= i < |s| => Some(Mean(Window(s, i, w))))
  }

  /** `rolling(window=w, min_periods=1).std()`, squared. */
  function RollingVariance(s: seq<real>, w: nat): (r: Column)
    requires w >= 1
    ensures |r| == |s|
  {
    seq(|s|, i requires 0 <= i < |s| => SampleVariance(Window(s, i, w)))
  }

  function Training(s: seq<real>): (c: LagColumns)
    ensures Shaped(c, |s|)
  {
    LagColumns(
      seq(|LagSteps|, j requires 0 <= j < |LagSteps| => Shift(s, LagSteps[j])),
      seq(|Windows|, j requires 0 <= j < |Windows| => RollingMean(s, Windows[j])),
      seq(|Windows|, j requires 0 <= j < |Windows| => RollingVariance(s, Windows[j])))
  }

  // ---------------------------------------------------------------------------
  // Inference mode

  /** Python's `s[-n:]`: the last `n` values, or all of them when there are fewer. */
  function Tail(s: seq<real>, n: nat): (r: seq<real>)
    ensures |r| == if |s| < n then |s| else n
  {
    if |s| < n then s else s[|s| - n..]
  }

  function Fill(n: nat, v: real): (r: Column)
    ensures |r| == n
    ensures forall i :: 0 <= i < n ==> r[i] == Some(v)
  {
    seq(n, _ => Some(v))
  }

  /** Inference mode for a frame of `n` rows: `last[-k]` for every lag step
      and the mean and population variance of `last[-w:]` for every window,
      where `last` is the tail of `source`.  `last[-30]` raises when the tail
      is shorter than 30 values. */
  function Inference(n: nat, source: seq<real>): (r: Result<LagColumns>)
    ensures r.Ok? ==> Shaped(r.value, n)
  {
    var last := Tail(source, TailLength);
    if |last| < MaxLag then Err(IndexError)
    else
      Ok(LagColumns(
        seq(|LagSteps|, j requires 0 <= j < |LagSteps| => Fill(n, last[|last| - LagSteps[j]])),
        seq(|Windows|, j requires 0 <= j < |Windows| => Fill(n, Mean(last[|last| - Windows[j]..]))),
        seq(|Windows|, j requires 0 <= j < |Windows| =>
          Fill(n, PopulationVariance(last[|last| - Windows[j]..])))))
  }

  // ---------------------------------------------------------------------------
  // Properties of training mode

  /** `sales_lag_k` at row `i` is the value `k` rows earlier, and NaN for the first `k` rows. */
  lemma ShiftAt(s: seq<real>, k: nat, i: nat)
    requires i < |s|
    ensures Shift(s, k)[i] == if i >= k then Some(s[i - k]) else None
  {
    if k < |s| && i >= k {
      assert Shift(s, k)[i] == Present(s[..|s| - k])[i - k];
    }
  }

  lemma TrainingLag(s: seq<real>, j: nat, i: nat)
    requires j < |LagSteps| && i < |s|
    ensures RowAt(Training(s), |s|, i).lags[j]
      == if i >= LagSteps[j] then Some(s[i - LagSteps[j]]) else None
  {
    ShiftAt(s, LagSteps[j], i);
  }

  /** Every rolling mean is defined, and it lies between the least and the
      greatest sales value of its window. */
  lemma TrainingMean(s: seq<real>, j: nat, i: nat)
    requires j < |Windows| && i < |s|
    ensures RowAt(Training(s), |s|, i).means[j].Some?
    ensures var m := RowAt(Training(s), |s|, i).means[j].value;
      var win := Window(s, i, Windows[j]);
      Min(win) <= m <= Max(win)
  {
    MeanBetweenMinAndMax(Window(s, i, Windows[j]));
  }

  /** The rolling spread is NaN on the first row only, where the window has one value. */
  lemma TrainingVariance(s: seq<real>, j: nat, i: nat)
    requires j < |Windows| && i < |s|
    ensures RowAt(Training(s), |s|, i).variances[j].Some? <==> i >= 1
  {
  }

  /** In training mode a row survives `dropna` exactly when it is at least 30
      rows into the series: the 30-day lag is the last to become defined. */
  lemma TrainingCompleteIff(s: seq<real>, i: nat)
    requires i < |s|
    ensures Complete(RowAt(Training(s), |s|, i)) <==> i >= MaxLag
  {
    var r := RowAt(Training(s), |s|, i);
    forall j | 0 <= j < |LagSteps| ensures r.lags[j] == if i >= LagSteps[j] then Some(s[i - LagSteps[j]]) else None {
      TrainingLag(s, j, i);
    }
    if i < MaxLag {
      assert r.lags[5].None?;
    }
  }

  /** No lookahead: the features of row `i` read only rows `0..i` of the input
      order, and the lags read only rows before `i`. */
  lemma TrainingReadsOnlyPast(s1: seq<real>, s2: seq<real>, i: nat)
    requires i < |s1| && i < |s2| && s1[..i + 1] == s2[..i + 1]
    ensures RowAt(Training(s1), |s1|, i) == RowAt(Training(s2), |s2|, i)
  {
    var r1 := RowAt(Training(s1), |s1|, i);
    var r2 := RowAt(Training(s2), |s2|, i);
    LagsReadOnlyBefore(s1, s2, i);
    forall j | 0 <= j < |Windows|
      ensures r1.means[j] == r2.means[j] && r1.variances[j] == r2.variances[j]
    {
      assert Window(s1, i, Windows[j]) == Window(s2, i, Windows[j]) by {
        var w := Windows[j];
        var lo := if i + 1 >= w then i + 1 - w else 0;
        assert s1[lo..i + 1] == s1[..i + 1][lo..];
        assert s2[lo..i + 1] == s2[..i + 1][lo..];
      }
    }
  }

  lemma LagsReadOnlyBefore(s1: seq<real>, s2: seq<real>, i: nat)
    requires i < |s1| && i < |s2| && s1[..i] == s2[..i]
    ensures RowAt(Training(s1), |s1|, i).lags == RowAt(Training(s2), |s2|, i).lags
  {
    var r1 := RowAt(Training(s1), |s1|, i);
    var r2 := RowAt(Training(s2), |s2|, i);
    forall j | 0 <= j < |LagSteps| ensures r1.lags[j] == r2.lags[j] {
      TrainingLag(s1, j, i);
      TrainingLag(s2, j, i);
      if i >= LagSteps[j] {
        assert s1[i - LagSteps[j]] == s1[..i][i - LagSteps[j]];
        assert s2[i - LagSteps[j]] == s2[..i][i - LagSteps[j]];
      }
    }
  }

  /** A constant series of value `c`: every defined lag is `c`, every rolling
      mean is `c`, and every defined rolling spread is zero. */
  lemma TrainingOnConstant(s: seq<real>, c: real, i: nat)
    requires Constant(s, c) && i < |s|
    ensures var r := RowAt(Training(s), |s|, i);
      && (forall j :: 0 <= j < |LagSteps| && i >= LagSteps[j] ==> r.lags[j] == Some(c))
      && (forall j :: 0 <= j < |Windows| ==> r.means[j] == Some(c))
      && (forall j :: 0 <= j < |Windows| && i >= 1 ==> r.variances[j] == Some(0.0))
  {
    var r := RowAt(Training(s), |s|, i);
    forall j | 0 <= j < |LagSteps| && i >= LagSteps[j] ensures r.lags[j] == Some(c) {
      TrainingLag(s, j, i);
    }
    forall j | 0 <= j < |Windows|
      ensures r.means[j] == Some(c)
      ensures i >= 1 ==> r.variances[j] == Some(0.0)
    {
      var win := Window(s, i, Windows[j]);
      assert Constant(win, c);
      ConstantWindow(win, c);
    }
  }

  // ---------------------------------------------------------------------------
  // Properties of inference mode

  /** Inference mode fails exactly when the source holds fewer than 30 values. */
  lemma InferenceFailsIff(n: nat, source: seq<real>)
    ensures Inference(n, source).Err? <==> |source| < TailLength
  {
  }

  /** Inference mode gives every row the same vector: `lag_k` is the `k`-th
      value from the end of the source, `rolling_mean_w` the mean of its last
      `w` values and the spread their population variance. */
  lemma InferenceBroadcast(n: nat, source: seq<real>, i: nat)
    requires |source| >= TailLength && i < n
    ensures var c := Inference(n, source).value;
      var r := RowAt(c, n, i);
      && r == RowAt(c, n, 0)
      && (forall j :: 0 <= j < |LagSteps| ==> r.lags[j] == Some(source[|source| - LagSteps[j]]))
      && (forall j :: 0 <= j < |Windows| ==>
            r.means[j] == Some(Mean(source[|source| - Windows[j]..])))
      && (forall j :: 0 <= j < |Windows| ==>
            r.variances[j] == Some(PopulationVariance(source[|source| - Windows[j]..])))
  {
    var last := Tail(source, TailLength);
    assert last == source[|source| - 30..];
    forall j | 0 <= j < |Windows| ensures last[|last| - Windows[j]..] == source[|source| - Windows[j]..] {
    }
    forall j | 0 <= j < |LagSteps| ensures last[|last| - LagSteps[j]] == source[|source| - LagSteps[j]] {
    }
  }

  /** Inference rows are complete: none of them is dropped by `dropna`. */
  lemma InferenceComplete(n: nat, source: seq<real>, i: nat)
    requires Inference(n, source).Ok? && i < n
    ensures Complete(RowAt(Inference(n, source).value, n, i))
  {
  }
}
