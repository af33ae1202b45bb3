/** Sums, means and variances of non-empty windows of reals, as pandas'
    rolling `.mean()` and numpy's `.mean()` compute them over the values of a
    window (exact real arithmetic, no rounding).
 */
module Stats {
  import opened Maybe

  function Sum(s: seq<real>): real {
    if |s| == 0 then 0.0 else s[0] + Sum(s[1..])
  }

  function Mean(s: seq<real>): real
    requires |s| > 0
  {
    Sum(s) / (|s| as real)
  }

  /** Least element of a non-empty window. */
  function Min(s: seq<real>): (m: real)
    requires |s| > 0
    ensures m in s
    ensures forall i :: 0 <= i < |s| ==> m <= s[i]
  {
    if |s| == 1 then s[0]
    else
      var rest := Min(s[1..]);
      assert forall i :: 1 <= i < |s| ==> s[i] == s[1..][i - 1];
      if s[0] <= rest then s[0] else rest
  }

  /** Greatest element of a non-empty window. */
  function Max(s: seq<real>): (m: real)
    requires |s| > 0
    ensures m in s
    ensures forall i :: 0 <= i < |s| ==> s[i] <= m
  {
    if |s| == 1 then s[0]
    else
      var rest := Max(s[1..]);
      assert forall i :: 1 <= i < |s| ==> s[i] == s[1..][i - 1];
      if s[0] >= rest then s[0] else rest
  }

  function Square(x: real): (r: real)
    ensures r >= 0.0
  {
    if x >= 0.0 then x * x else (-x) * (-x)
  }

  /** Sum of squared deviations from `m`. */
  function SquaredDeviations(s: seq<real>, m: real): (r: real)
    ensures r >= 0.0
  {
    if |s| == 0 then 0.0 else Square(s[0] - m) + SquaredDeviations(s[1..], m)
  }

  /** Variance with one degree of freedom removed (pandas' rolling default,
      ddof = 1); a one-value window has none, which pandas reports as NaN. */
  function SampleVariance(s: seq<real>): (r: Option<real>)
    requires |s| > 0
    ensures r.Some? <==> |s| >= 2
    ensures r.Some? ==> r.value >= 0.0
  {
    if |s| < 2 then None
    else Some(SquaredDeviations(s, Mean(s)) / ((|s| - 1) as real))
  }

  /** Variance over the whole population (numpy's default, ddof = 0). */
  function PopulationVariance(s: seq<real>): (r: real)
    requires |s| > 0
    ensures r >= 0.0
  {
    SquaredDeviations(s, Mean(s)) / (|s| as real)
  }

  // ---------------------------------------------------------------------------

  predicate Bounded(s: seq<real>, lo: real, hi: real) {
    forall i :: 0 <= i < |s| ==> lo <= s[i] <= hi
  }

  lemma {:induction false} SumBounds(s: seq<real>, lo: real, hi: real)
    requires Bounded(s, lo, hi)
    ensures (|s| as real) * lo <= Sum(s) <= (|s| as real) * hi
  {
    if |s| > 0 {
      assert Bounded(s[1..], lo, hi) by {
        forall i | 0 <= i < |s[1..]| ensures lo <= s[1..][i] <= hi {
          assert s[1..][i] == s[i + 1];
        }
      }
      SumBounds(s[1..], lo, hi);
      assert (|s| as real) * lo == lo + ((|s| - 1) as real) * lo;
      assert (|s| as real) * hi == hi + ((|s| - 1) as real) * hi;
    }
  }

  /** A mean never leaves the range of the values it averages. */
  lemma MeanWithinBounds(s: seq<real>, lo: real, hi: real)
    requires |s| > 0 && Bounded(s, lo, hi)
    ensures lo <= Mean(s) <= hi
  {
    SumBounds(s, lo, hi);
    var n := |s| as real;
    assert Mean(s) * n == Sum(s);
  }

  /** The mean lies between the least and the greatest value. */
  lemma MeanBetweenMinAndMax(s: seq<real>)
    requires |s| > 0
    ensures Min(s) <= Mean(s) <= Max(s)
  {
    MeanWithinBounds(s, Min(s), Max(s));
  }

  predicate Constant(s: seq<real>, c: real) {
    forall i :: 0 <= i < |s| ==> s[i] == c
  }

  lemma ConstantTail(s: seq<real>, c: real)
    requires |s| > 0 && Constant(s, c)
    ensures Constant(s[1..], c)
  {
    assert forall i :: 0 <= i < |s| - 1 ==> s[1..][i] == s[i + 1];
  }

  /** A constant window has that constant as its mean and no spread. */
  lemma {:induction false} ConstantWindow(s: seq<real>, c: real)
    requires |s| > 0 && Constant(s, c)
    ensures Mean(s) == c
    ensures PopulationVariance(s) == 0.0
    ensures |s| >= 2 ==> SampleVariance(s) == Some(0.0)
  {
    Bounded1(s, c);
    MeanWithinBounds(s, c, c);
    NoDeviation(s, c);
  }

  lemma Bounded1(s: seq<real>, c: real)
    requires Constant(s, c)
    ensures Bounded(s, c, c)
  {
  }

  lemma {:induction false} NoDeviation(s: seq<real>, c: real)
    requires Constant(s, c)
    ensures SquaredDeviations(s, c) == 0.0
  {
    if |s| > 0 {
      ConstantTail(s, c);
      NoDeviation(s[1..], c);
    }
  }
}
