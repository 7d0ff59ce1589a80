/**
 * Per-bar signal classification (the nested np.where of app.py) and the
 * extraction of the latest signalled bar (`df[df['Signal'] != ""].tail(1)`).
 * A comparison against a missing indicator (NaN in pandas) is false.
 */
module Signals {
  import opened Wrappers
  import opened Indicators

  /** The Z-score a bar must exceed to be signalled. */
  const Z_THRESHOLD: real := 2.0

  /** The three values the Signal column takes. */
  datatype Signal = NoSignal | Bullish | Bearish {
    /** The text the column holds. */
    function Label(): string {
      match this
      case NoSignal => ""
      case Bullish => "\U{1F4C8} Signal haussier"
      case Bearish => "\U{1F4C9} Signal baissier"
    }
  }

  /** `x > c` on a float column that may hold NaN. */
  predicate Greater(x: Option<real>, c: real) {
    x.Some? && x.value > c
  }

  /** `Close > line` where the line may be NaN. */
  predicate Above(close: real, line: Option<real>) {
    line.Some? && close > line.value
  }

  /** `Close < line` where the line may be NaN. */
  predicate Below(close: real, line: Option<real>) {
    line.Some? && close < line.value
  }

  /** One bar of the two-level np.where: the bullish test first, then the bearish one, else no signal. */
  function Classify(close: real, z: Option<real>, tenkan: Option<real>, kijun: Option<real>): (s: Signal)
    ensures s != NoSignal ==> Greater(z, Z_THRESHOLD)
  {
    if Greater(z, Z_THRESHOLD) && Above(close, tenkan) && Above(close, kijun) then Bullish
    else if Greater(z, Z_THRESHOLD) && Below(close, tenkan) && Below(close, kijun) then Bearish
    else NoSignal
  }

  /** The Signal column, bar by bar. */
  function SignalColumn(close: seq<real>, z: seq<Option<real>>, tenkan: seq<Option<real>>, kijun: seq<Option<real>>): (sig: seq<Signal>)
    requires |z| == |tenkan| == |kijun| == |close|
    ensures |sig| == |close|
    ensures SignalledOnlyAboveThreshold(z, sig)
  {
    seq(|close|, i requires 0 <= i < |close| => Classify(close[i], z[i], tenkan[i], kijun[i]))
  }

  /** Every signalled bar has a defined Z-score above the threshold. */
  predicate SignalledOnlyAboveThreshold(z: seq<Option<real>>, sig: seq<Signal>) {
    |z| == |sig| && forall i :: 0 <= i < |sig| && sig[i] != NoSignal ==> Greater(z[i], Z_THRESHOLD)
  }

  /** The Signal column of a close series, with the indicators app.py computes from it. */
  function SeriesSignals(close: seq<real>, zOf: (seq<real>, nat) -> Option<real>): (sig: seq<Signal>)
    ensures |sig| == |close|
  {
    SignalColumn(close, ZScores(close, zOf), RollingMeans(close, TENKAN_WINDOW), RollingMeans(close, KIJUN_WINDOW))
  }

  /** Bar `k` is signalled and no later bar is. */
  predicate LastSignalledAt(sig: seq<Signal>, k: nat) {
    && k < |sig|
    && sig[k] != NoSignal
    && forall j :: k < j < |sig| ==> sig[j] == NoSignal
  }

  /** The position of the single row `tail(1)` keeps among the signalled rows, if any. */
  function LatestSignal(sig: seq<Signal>): (r: Option<nat>)
    ensures r.None? <==> forall i :: 0 <= i < |sig| ==> sig[i] == NoSignal
    ensures r.Some? ==> LastSignalledAt(sig, r.value)
  {
    if sig == [] then None
    else if sig[|sig| - 1] != NoSignal then Some(|sig| - 1)
    else LatestSignal(sig[..|sig| - 1])
  }

  /** The three labels are pairwise distinct, and only "no signal" is the empty text: each bar is exactly one of the three. */
  lemma LabelsDistinct(s: Signal, t: Signal)
    ensures s.Label() == t.Label() <==> s == t
    ensures s.Label() == "" <==> s == NoSignal
  {
    assert Bullish.Label()[0] != Bearish.Label()[0];
  }

  /** Both directions of each branch. A bar cannot be above and below the same line, so the bearish test needs no "not bullish" guard. */
  lemma ClassifyCases(close: real, z: Option<real>, tenkan: Option<real>, kijun: Option<real>)
    ensures Classify(close, z, tenkan, kijun) == Bullish
        <==> Greater(z, Z_THRESHOLD) && Above(close, tenkan) && Above(close, kijun)
    ensures Classify(close, z, tenkan, kijun) == Bearish
        <==> Greater(z, Z_THRESHOLD) && Below(close, tenkan) && Below(close, kijun)
    ensures Classify(close, z, tenkan, kijun) == NoSignal
        <==> (!(Greater(z, Z_THRESHOLD) && Above(close, tenkan) && Above(close, kijun))
              && !(Greater(z, Z_THRESHOLD) && Below(close, tenkan) && Below(close, kijun)))
  {
  }

  /** A bar whose Z-score, Tenkan-sen or Kijun-sen is missing is never signalled. */
  lemma UndefinedIndicatorNoSignal(close: real, z: Option<real>, tenkan: Option<real>, kijun: Option<real>)
    requires z.None? || tenkan.None? || kijun.None?
    ensures Classify(close, z, tenkan, kijun) == NoSignal
  {
  }

  /** No bar before the 26-bar window fills is signalled. */
  lemma EarlyBarsUnsignalled(close: seq<real>, zOf: (seq<real>, nat) -> Option<real>, i: nat)
    requires i < |close| && i < KIJUN_WINDOW - 1
    ensures SeriesSignals(close, zOf)[i] == NoSignal
  {
    assert RollingMeans(close, KIJUN_WINDOW)[i] == None;
  }

  /** A series shorter than the Kijun window has no signalled bar at all. */
  lemma ShortSeriesUnsignalled(close: seq<real>, zOf: (seq<real>, nat) -> Option<real>)
    requires |close| < KIJUN_WINDOW
    ensures LatestSignal(SeriesSignals(close, zOf)) == None
  {
    forall i | 0 <= i < |close|
      ensures SeriesSignals(close, zOf)[i] == NoSignal
    {
      EarlyBarsUnsignalled(close, zOf, i);
    }
  }
}
