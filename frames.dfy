/**
 * The per-ticker price table of run_analysis: the (Date, Close) rows that the
 * download returns after `reset_index`, to which app.py adds the Volatility,
 * Z_score, Tenkan_sen, Kijun_sen and Signal columns in place, and the
 * signal event extracted from its latest signalled row.
 */
module Frames {
  import opened Wrappers
  import opened Indicators
  import opened Signals

  datatype Date = Date(year: int, month: int, day: int)

  /** One daily bar as downloaded; only Date and Close are used. */
  datatype Row = Row(date: Date, close: real)

  /** The extracted row of a signalled bar, tagged with its ticker. */
  datatype Event = Event(ticker: string, date: Date, close: real, z: real, signal: Signal)

  /** The (Date, Close) row an event was read from. */
  function RowOf(e: Event): Row {
    Row(e.date, e.close)
  }

  function Dates(rows: seq<Row>): (d: seq<Date>)
    ensures |d| == |rows|
  {
    seq(|rows|, i requires 0 <= i < |rows| => rows[i].date)
  }

  function Closes(rows: seq<Row>): (c: seq<real>)
    ensures |c| == |rows|
  {
    seq(|rows|, i requires 0 <= i < |rows| => rows[i].close)
  }

  /**
   * `df[df['Signal'] != ""][['Date', 'Close', 'Z_score', 'Signal']].tail(1)`
   * with the Ticker column added: the event of the latest signalled bar, or
   * nothing when no bar is signalled.
   */
  function LatestEventOf(ticker: string, date: seq<Date>, close: seq<real>, z: seq<Option<real>>, sig: seq<Signal>): (e: Option<Event>)
    requires |date| == |close| == |sig|
    requires SignalledOnlyAboveThreshold(z, sig)
    ensures e.None? <==> forall i :: 0 <= i < |sig| ==> sig[i] == NoSignal
    ensures e.Some? ==> e.value.ticker == ticker && e.value.signal != NoSignal && e.value.z > Z_THRESHOLD
    ensures e.Some? ==>
      exists k: nat :: && LastSignalledAt(sig, k) && e.value.date == date[k] && e.value.close == close[k]
                  && z[k] == Some(e.value.z) && e.value.signal == sig[k]
  {
    match LatestSignal(sig)
    case None => None
    case Some(k) => Some(Event(ticker, date[k], close[k], z[k].value, sig[k]))
  }

  /** What the frame of one non-empty download yields: zero or one event. */
  function SeriesEvent(ticker: string, rows: seq<Row>, zOf: (seq<real>, nat) -> Option<real>): (e: Option<Event>)
    ensures e.Some? ==> e.value.ticker == ticker && e.value.signal != NoSignal
  {
    if rows == [] then None
    else
      var close := Closes(rows);
      LatestEventOf(ticker, Dates(rows), close, ZScores(close, zOf), SeriesSignals(close, zOf))
  }

  /** A series shorter than the Kijun window yields no event. */
  lemma ShortSeriesNoEvent(ticker: string, rows: seq<Row>, zOf: (seq<real>, nat) -> Option<real>)
    requires |rows| < KIJUN_WINDOW
    ensures SeriesEvent(ticker, rows, zOf) == None
  {
    if rows != [] {
      ShortSeriesUnsignalled(Closes(rows), zOf);
    }
  }

  /** The event of a series is one of its rows, at or after the bar where the Kijun window fills, tagged with the ticker and with a Z-score above the threshold. */
  lemma SeriesEventIsLateSignalledRow(ticker: string, rows: seq<Row>, zOf: (seq<real>, nat) -> Option<real>)
    requires SeriesEvent(ticker, rows, zOf).Some?
    ensures SeriesEvent(ticker, rows, zOf).value.ticker == ticker
    ensures SeriesEvent(ticker, rows, zOf).value.signal != NoSignal
    ensures SeriesEvent(ticker, rows, zOf).value.z > Z_THRESHOLD
    ensures exists k :: KIJUN_WINDOW - 1 <= k < |rows| && rows[k] == RowOf(SeriesEvent(ticker, rows, zOf).value)
  {
    var close := Closes(rows);
    var sig := SeriesSignals(close, zOf);
    var e := SeriesEvent(ticker, rows, zOf).value;
    assert e == LatestEventOf(ticker, Dates(rows), close, ZScores(close, zOf), sig).value;
    var k: nat :| LastSignalledAt(sig, k) && e.date == Dates(rows)[k] && e.close == close[k];
    if k < KIJUN_WINDOW - 1 {
      EarlyBarsUnsignalled(close, zOf, k);
    }
    assert rows[k] == RowOf(e);
  }

  /** The DataFrame of one ticker: a column per field, added by the methods below. */
  class Frame {
    var date: seq<Date>
    var close: seq<real>
    var volatilityDefined: seq<bool>
    var zScore: seq<Option<real>>
    var tenkan: seq<Option<real>>
    var kijun: seq<Option<real>>
    var signal: seq<Signal>

    /** The downloaded rows after `reset_index`; no derived column yet. */
    constructor (rows: seq<Row>)
      ensures date == Dates(rows) && close == Closes(rows)
      ensures volatilityDefined == [] && zScore == [] && tenkan == [] && kijun == [] && signal == []
    {
      date := Dates(rows);
      close := Closes(rows);
      volatilityDefined := [];
      zScore := [];
      tenkan := [];
      kijun := [];
      signal := [];
    }

    /** The Volatility column (only where it is defined) and the Z_score column (app.py:54-57). */
    method AddVolatility(zOf: (seq<real>, nat) -> Option<real>)
      modifies this`volatilityDefined, this`zScore
      ensures volatilityDefined == VolatilityDefined(|close|)
      ensures zScore == ZScores(close, zOf)
    {
      var c := close;
      var vol := VolatilityDefined(|c|);
      volatilityDefined := vol;
      zScore := seq(|c|, i requires 0 <= i < |c| => if vol[i] then zOf(c, i) else None);
    }

    /** calculate_ichimoku: the Tenkan_sen and Kijun_sen columns. */
    method CalculateIchimoku()
      modifies this`tenkan, this`kijun
      ensures tenkan == RollingMeans(close, TENKAN_WINDOW)
      ensures kijun == RollingMeans(close, KIJUN_WINDOW)
    {
      tenkan := RollingMean(close, TENKAN_WINDOW);
      kijun := RollingMean(close, KIJUN_WINDOW);
    }

    /** The Signal column (app.py:60-68); it needs the three indicator columns. */
    method AddSignal()
      requires |zScore| == |tenkan| == |kijun| == |close|
      modifies this`signal
      ensures signal == SignalColumn(close, zScore, tenkan, kijun)
    {
      signal := SignalColumn(close, zScore, tenkan, kijun);
    }

    /** The latest signalled row tagged with the ticker (app.py:70-72). */
    method LatestEvent(ticker: string) returns (e: Option<Event>)
      requires |date| == |close| == |signal|
      requires SignalledOnlyAboveThreshold(zScore, signal)
      ensures e == LatestEventOf(ticker, date, close, zScore, signal)
    {
      var k := LatestSignal(signal);
      if k.None? {
        e := None;
      } else {
        var i := k.value;
        e := Some(Event(ticker, date[i], close[i], zScore[i].value, signal[i]));
      }
    }
  }
}
