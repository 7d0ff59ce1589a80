/**
 * The trailing-window indicators of app.py: the simple moving averages
 * `rolling(window).mean()` that calculate_ichimoku adds as Tenkan_sen (9 bars)
 * and Kijun_sen (26 bars), and the positions at which the 10-bar rolling
 * standard deviation (the Volatility column) and hence the Z_score exist.
 * pandas leaves a window's result missing until the window is full
 * (min_periods defaults to the window size); None plays the part of NaN.
 */
module Indicators {
  import opened Wrappers

  const TENKAN_WINDOW: nat := 9
  const KIJUN_WINDOW: nat := 26
  const VOLATILITY_WINDOW: nat := 10

  function Sum(s: seq<real>): real {
    if s == [] then 0.0 else Sum(s[..|s| - 1]) + s[|s| - 1]
  }

  function Mean(s: seq<real>): real
    requires s != []
  {
    Sum(s) / (|s| as real)
  }

  /** The trailing window of `w` bars ending at bar `i` is full. */
  predicate WindowFull(i: nat, w: nat) {
    i + 1 >= w
  }

  /** `rolling(window=w).mean()` at bar `i`. */
  function WindowMean(xs: seq<real>, i: nat, w: nat): Option<real>
    requires i < |xs| && w > 0
  {
    if WindowFull(i, w) then Some(Mean(xs[i + 1 - w..i + 1])) else None
  }

  /** The whole `rolling(window=w).mean()` column. */
  function RollingMeans(xs: seq<real>, w: nat): (col: seq<Option<real>>)
    requires w > 0
    ensures |col| == |xs|
  {
    seq(|xs|, i requires 0 <= i < |xs| => WindowMean(xs, i, w))
  }

  /** The bars at which `Close.rolling(window=10).std()` is defined. */
  function VolatilityDefined(n: nat): (d: seq<bool>)
    ensures |d| == n
  {
    seq(n, i requires 0 <= i < n => WindowFull(i, VOLATILITY_WINDOW))
  }

  /**
   * The Z_score column. The value of the standardisation at a bar is the
   * floating-point statistic `zOf(close, i)`, left abstract; what the model
   * keeps is that it is missing wherever the volatility window is not full.
   */
  function ZScores(close: seq<real>, zOf: (seq<real>, nat) -> Option<real>): (z: seq<Option<real>>)
    ensures |z| == |close|
    ensures forall i :: 0 <= i < |z| && z[i].Some? ==> VolatilityDefined(|close|)[i]
  {
    seq(|close|, i requires 0 <= i < |close| =>
      if VolatilityDefined(|close|)[i] then zOf(close, i) else None)
  }

  lemma {:induction false} SumCons(a: real, s: seq<real>)
    ensures Sum([a] + s) == a + Sum(s)
  {
    if s != [] {
      assert ([a] + s)[..|s|] == [a] + s[..|s| - 1];
      SumCons(a, s[..|s| - 1]);
    } else {
      assert [a] + s == [a];
      assert [a][..0] == [];
    }
  }

  /** Dropping the oldest value of a window subtracts it from the sum. */
  lemma SumDropFirst(xs: seq<real>, lo: nat, hi: nat)
    requires lo < hi <= |xs|
    ensures Sum(xs[lo + 1..hi]) == Sum(xs[lo..hi]) - xs[lo]
  {
    assert xs[lo..hi] == [xs[lo]] + xs[lo + 1..hi];
    SumCons(xs[lo], xs[lo + 1..hi]);
  }

  /** Where the trailing window of `w` bars that ends just before bar `i` starts. */
  function WindowStart(i: nat, w: nat): nat {
    if i >= w then i - w else 0
  }

  /** Moving the window on by one bar adds the new close and drops the one that falls out. */
  lemma WindowSumStep(xs: seq<real>, w: nat, i: nat)
    requires i < |xs|
    ensures Sum(xs[WindowStart(i + 1, w)..i + 1])
         == Sum(xs[WindowStart(i, w)..i]) + xs[i] - (if i >= w then xs[i - w] else 0.0)
  {
    var lo := WindowStart(i, w);
    assert xs[lo..i + 1][..i - lo] == xs[lo..i];
    if i >= w {
      SumDropFirst(xs, i - w, i + 1);
    }
  }

  /** One step of the running sum: the updated sum is that of the next window, and it gives the mean at bar `i`. */
  lemma RunningSumStep(xs: seq<real>, w: nat, i: nat, sum: real, next: real)
    requires i < |xs| && w > 0
    requires sum == Sum(xs[WindowStart(i, w)..i])
    requires next == sum + xs[i] - (if i >= w then xs[i - w] else 0.0)
    ensures next == Sum(xs[WindowStart(i + 1, w)..i + 1])
    ensures WindowMean(xs, i, w) == if i + 1 >= w then Some(next / (w as real)) else None
  {
    WindowSumStep(xs, w, i);
    if i + 1 >= w {
      assert WindowStart(i + 1, w) == i + 1 - w;
    }
  }

  /**
   * pandas' running-sum rolling mean: each new close is added, the close
   * leaving the window is subtracted, and a mean is emitted once the window
   * is full.
   */
  method RollingMean(xs: seq<real>, w: nat) returns (col: seq<Option<real>>)
    requires w > 0
    ensures col == RollingMeans(xs, w)
    ensures forall i :: 0 <= i < |xs| ==> (col[i].Some? <==> i >= w - 1)
    ensures forall i :: w - 1 <= i < |xs| ==> col[i] == Some(Mean(xs[i + 1 - w..i + 1]))
  {
    col := [];
    var sum := 0.0;
    for i := 0 to |xs|
      invariant |col| == i
      invariant forall k :: 0 <= k < i ==> col[k] == WindowMean(xs, k, w)
      invariant sum == Sum(xs[WindowStart(i, w)..i])
    {
      var next := sum + xs[i];
      if i >= w {
        next := next - xs[i - w];
      }
      RunningSumStep(xs, w, i, sum, next);
      sum := next;
      if i + 1 >= w {
        col := col + [Some(sum / (w as real))];
      } else {
        col := col + [None];
      }
    }
  }

  lemma {:induction false} SumBetween(s: seq<real>, lo: real, hi: real)
    requires forall k :: 0 <= k < |s| ==> lo <= s[k] <= hi
    ensures (|s| as real) * lo <= Sum(s) <= (|s| as real) * hi
  {
    if s != [] {
      SumBetween(s[..|s| - 1], lo, hi);
      assert (|s| as real) * lo == ((|s| - 1) as real) * lo + lo;
      assert (|s| as real) * hi == ((|s| - 1) as real) * hi + hi;
    }
  }

  /** A mean lies between any lower and upper bound of the values it averages. */
  lemma MeanBetween(s: seq<real>, lo: real, hi: real)
    requires s != []
    requires forall k :: 0 <= k < |s| ==> lo <= s[k] <= hi
    ensures lo <= Mean(s) <= hi
  {
    var n := |s| as real;
    SumBetween(s, lo, hi);
    assert Mean(s) - lo == (Sum(s) - n * lo) / n;
    assert hi - Mean(s) == (n * hi - Sum(s)) / n;
  }

  /** Every defined moving average stays within the range of the closes. */
  lemma RollingMeansBounded(xs: seq<real>, w: nat, lo: real, hi: real)
    requires w > 0
    requires forall k :: 0 <= k < |xs| ==> lo <= xs[k] <= hi
    ensures forall i :: 0 <= i < |xs| && RollingMeans(xs, w)[i].Some? ==>
      lo <= RollingMeans(xs, w)[i].value <= hi
  {
    forall i | 0 <= i < |xs| && RollingMeans(xs, w)[i].Some?
      ensures lo <= RollingMeans(xs, w)[i].value <= hi
    {
      var window := xs[i + 1 - w..i + 1];
      assert forall k :: 0 <= k < |window| ==> window[k] == xs[i + 1 - w + k];
      MeanBetween(window, lo, hi);
    }
  }

  /** The rolling means and the volatility are missing exactly before their window fills. */
  lemma WindowDefinedness(close: seq<real>, zOf: (seq<real>, nat) -> Option<real>, i: nat)
    requires i < |close|
    ensures RollingMeans(close, TENKAN_WINDOW)[i].Some? <==> i >= TENKAN_WINDOW - 1
    ensures RollingMeans(close, KIJUN_WINDOW)[i].Some? <==> i >= KIJUN_WINDOW - 1
    ensures VolatilityDefined(|close|)[i] <==> i >= VOLATILITY_WINDOW - 1
    ensures i < VOLATILITY_WINDOW - 1 ==> ZScores(close, zOf)[i] == None
  {
  }
}
