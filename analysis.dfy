/**
 * The per-ticker loop of run_analysis (app.py:49-73): each ticker's series is
 * downloaded in ticker order, an empty series is skipped, and the ticker's
 * latest signal, if any, is appended to the list of events. A download that
 * raises ends the loop, and the whole run, with that error.
 */
module Analysis {
  import opened Wrappers
  import opened Signals
  import opened Frames

  /** The download of one ticker's daily bars: its rows, or the text of the exception it raised. */
  type Download = string -> Result<seq<Row>, string>

  /** The Z-score the floating-point statistics give at a bar of a close series. */
  type Standardise = (seq<real>, nat) -> Option<real>

  function OptionToSeq(e: Option<Event>): seq<Event> {
    if e.Some? then [e.value] else []
  }

  /** The events of the tickers, in ticker order, or the first download error. */
  function Collect(tickers: seq<string>, download: Download, zOf: Standardise): Result<seq<Event>, string> {
    if tickers == [] then Success([])
    else
      var last := tickers[|tickers| - 1];
      match Collect(tickers[..|tickers| - 1], download, zOf)
      case Failure(e) => Failure(e)
      case Success(events) =>
        match download(last)
        case Failure(e) => Failure(e)
        case Success(rows) =>
          if rows == [] then Success(events) else Success(events + OptionToSeq(SeriesEvent(last, rows, zOf)))
  }

  /** Once a prefix of the tickers has failed, the whole run fails with the same error. */
  lemma {:induction false} FailurePersists(tickers: seq<string>, m: nat, download: Download, zOf: Standardise)
    requires m <= |tickers|
    requires Collect(tickers[..m], download, zOf).Failure?
    ensures Collect(tickers, download, zOf) == Collect(tickers[..m], download, zOf)
    decreases |tickers| - m
  {
    if m < |tickers| {
      assert tickers[..m + 1][..m] == tickers[..m];
      FailurePersists(tickers, m + 1, download, zOf);
    } else {
      assert tickers[..m] == tickers;
    }
  }

  /** The loop of run_analysis over the tickers. */
  method CollectSignals(tickers: seq<string>, download: Download, zOf: Standardise) returns (r: Result<seq<Event>, string>)
    ensures r == Collect(tickers, download, zOf)
  {
    var allSignals: seq<Event> := [];
    for i := 0 to |tickers|
      invariant Collect(tickers[..i], download, zOf) == Success(allSignals)
    {
      var ticker := tickers[i];
      assert tickers[..i + 1][..i] == tickers[..i];
      var fetched := download(ticker);
      if fetched.Failure? {
        FailurePersists(tickers, i + 1, download, zOf);
        return Failure(fetched.error);
      }
      var rows := fetched.value;
      if rows == [] {
        assert Collect(tickers[..i + 1], download, zOf) == Success(allSignals);
        continue;
      }
      var df := new Frame(rows);
      df.AddVolatility(zOf);
      df.CalculateIchimoku();
      df.AddSignal();
      var signals := df.LatestEvent(ticker);
      assert df.signal == SeriesSignals(Closes(rows), zOf);
      assert signals == SeriesEvent(ticker, rows, zOf);
      assert Collect(tickers[..i + 1], download, zOf) == Success(allSignals + OptionToSeq(signals));
      if signals.Some? {
        allSignals := allSignals + [signals.value];
      } else {
        assert allSignals + OptionToSeq(signals) == allSignals;
      }
    }
    assert tickers[..|tickers|] == tickers;
    r := Success(allSignals);
  }

  /** A ticker whose download is empty contributes nothing. */
  lemma EmptySeriesSkipped(tickers: seq<string>, ticker: string, download: Download, zOf: Standardise)
    requires download(ticker) == Success([])
    ensures Collect(tickers + [ticker], download, zOf) == Collect(tickers, download, zOf)
  {
    assert (tickers + [ticker])[..|tickers|] == tickers;
  }

  /** Each ticker contributes at most one event. */
  lemma {:induction false} AtMostOneEventPerTicker(tickers: seq<string>, download: Download, zOf: Standardise)
    requires Collect(tickers, download, zOf).Success?
    ensures |Collect(tickers, download, zOf).value| <= |tickers|
  {
    if tickers != [] {
      AtMostOneEventPerTicker(tickers[..|tickers| - 1], download, zOf);
    }
  }

  /** The run fails with the error of the first ticker whose download raised. */
  lemma {:induction false} FirstFailureReported(tickers: seq<string>, download: Download, zOf: Standardise)
    requires Collect(tickers, download, zOf).Failure?
    ensures exists i ::
      && 0 <= i < |tickers|
      && download(tickers[i]) == Failure(Collect(tickers, download, zOf).error)
      && forall j :: 0 <= j < i ==> download(tickers[j]).Success?
  {
    var n := |tickers| - 1;
    var prefix := tickers[..n];
    if Collect(prefix, download, zOf).Failure? {
      FirstFailureReported(prefix, download, zOf);
      var i :| 0 <= i < |prefix| && download(prefix[i]) == Failure(Collect(prefix, download, zOf).error)
        && forall j :: 0 <= j < i ==> download(prefix[j]).Success?;
      assert tickers[i] == prefix[i];
      assert forall j :: 0 <= j < i ==> tickers[j] == prefix[j];
    } else {
      SuccessMeansAllDownloaded(prefix, download, zOf);
      assert forall j :: 0 <= j < n ==> tickers[j] in prefix;
    }
  }

  /** A successful run downloaded every ticker without error. */
  lemma {:induction false} SuccessMeansAllDownloaded(tickers: seq<string>, download: Download, zOf: Standardise)
    requires Collect(tickers, download, zOf).Success?
    ensures forall t :: t in tickers ==> download(t).Success?
  {
    if tickers != [] {
      var prefix := tickers[..|tickers| - 1];
      var last := tickers[|tickers| - 1];
      assert Collect(prefix, download, zOf).Success? && download(last).Success?;
      SuccessMeansAllDownloaded(prefix, download, zOf);
      assert tickers == prefix + [last];
    }
  }

  /** The ticker produced an event: its download succeeded and its series has a signalled bar. */
  ghost predicate HasEvent(ticker: string, download: Download, zOf: Standardise) {
    download(ticker).Success? && SeriesEvent(ticker, download(ticker).value, zOf).Some?
  }

  predicate StrictlyIncreasing(idx: seq<nat>) {
    forall a, b :: 0 <= a < b < |idx| ==> idx[a] < idx[b]
  }

  /** The event `e` is the event of the ticker at position `i`, whose download gave a non-empty series. */
  ghost predicate PlacedAt(e: Event, tickers: seq<string>, i: nat, download: Download, zOf: Standardise) {
    && i < |tickers|
    && e.ticker == tickers[i]
    && download(tickers[i]).Success?
    && download(tickers[i]).value != []
    && SeriesEvent(tickers[i], download(tickers[i]).value, zOf) == Some(e)
  }

  /** Every ticker that produced an event has its position in `idx`. */
  ghost predicate Complete(tickers: seq<string>, idx: seq<nat>, download: Download, zOf: Standardise) {
    forall i :: 0 <= i < |tickers| && HasEvent(tickers[i], download, zOf) ==> i in idx
  }

  /**
   * `idx` places each event at its ticker: the events follow the tickers'
   * order, each is the event of its ticker's series, and exactly the tickers
   * that produced an event appear.
   */
  ghost predicate InTickerOrder(events: seq<Event>, tickers: seq<string>, idx: seq<nat>, download: Download, zOf: Standardise) {
    && |idx| == |events|
    && StrictlyIncreasing(idx)
    && (forall k :: 0 <= k < |idx| ==> PlacedAt(events[k], tickers, idx[k], download, zOf))
    && Complete(tickers, idx, download, zOf)
  }

  /** A position beyond all earlier ones keeps the positions increasing. */
  lemma IncreasingAppend(idx: seq<nat>, m: nat)
    requires StrictlyIncreasing(idx)
    requires forall k :: 0 <= k < |idx| ==> idx[k] < m
    ensures StrictlyIncreasing(idx + [m])
  {
  }

  /** A placement in a list of tickers stays valid when a ticker is appended. */
  lemma PlacedAtExtend(e: Event, prefix: seq<string>, i: nat, last: string, download: Download, zOf: Standardise)
    requires PlacedAt(e, prefix, i, download, zOf)
    ensures PlacedAt(e, prefix + [last], i, download, zOf)
  {
    assert (prefix + [last])[i] == prefix[i];
  }

  /** The event of an appended ticker is placed at the new last position. */
  lemma PlacedAtLast(prefix: seq<string>, last: string, e: Event, download: Download, zOf: Standardise)
    requires download(last).Success? && download(last).value != []
    requires SeriesEvent(last, download(last).value, zOf) == Some(e)
    ensures PlacedAt(e, prefix + [last], |prefix|, download, zOf)
  {
    SeriesEventIsLateSignalledRow(last, download(last).value, zOf);
    assert (prefix + [last])[|prefix|] == last;
  }

  /** Appending a ticker that produced an event extends the placement by its position. */
  lemma ExtendWithEvent(events: seq<Event>, prefix: seq<string>, idx: seq<nat>, last: string, e: Event, download: Download, zOf: Standardise)
    requires InTickerOrder(events, prefix, idx, download, zOf)
    requires download(last).Success? && download(last).value != []
    requires SeriesEvent(last, download(last).value, zOf) == Some(e)
    ensures InTickerOrder(events + [e], prefix + [last], idx + [|prefix|], download, zOf)
  {
    var tickers := prefix + [last];
    var events' := events + [e];
    var idx' := idx + [|prefix|];
    forall k | 0 <= k < |idx'|
      ensures PlacedAt(events'[k], tickers, idx'[k], download, zOf)
    {
      if k < |idx| {
        assert idx'[k] == idx[k] && events'[k] == events[k];
        PlacedAtExtend(events[k], prefix, idx[k], last, download, zOf);
      } else {
        PlacedAtLast(prefix, last, e, download, zOf);
      }
    }
    forall k | 0 <= k < |idx|
      ensures idx[k] < |prefix|
    {
      assert PlacedAt(events[k], prefix, idx[k], download, zOf);
    }
    IncreasingAppend(idx, |prefix|);
    forall i | 0 <= i < |tickers| && HasEvent(tickers[i], download, zOf)
      ensures i in idx'
    {
      if i < |prefix| {
        assert tickers[i] == prefix[i];
        assert i in idx;
      } else {
        assert idx'[|idx|] == i;
      }
    }
  }

  /** Appending a ticker that produced no event keeps the placement. */
  lemma ExtendWithoutEvent(events: seq<Event>, prefix: seq<string>, idx: seq<nat>, last: string, download: Download, zOf: Standardise)
    requires InTickerOrder(events, prefix, idx, download, zOf)
    requires !HasEvent(last, download, zOf)
    ensures InTickerOrder(events, prefix + [last], idx, download, zOf)
  {
    var tickers := prefix + [last];
    forall k | 0 <= k < |idx|
      ensures PlacedAt(events[k], tickers, idx[k], download, zOf)
    {
      PlacedAtExtend(events[k], prefix, idx[k], last, download, zOf);
    }
    forall i | 0 <= i < |tickers| && HasEvent(tickers[i], download, zOf)
      ensures i in idx
    {
      assert i < |prefix| && tickers[i] == prefix[i];
    }
  }

  /** The events appear in the order of their tickers, one per ticker that produced one. */
  lemma {:induction false} EventsInTickerOrder(tickers: seq<string>, download: Download, zOf: Standardise)
    requires Collect(tickers, download, zOf).Success?
    ensures exists idx :: InTickerOrder(Collect(tickers, download, zOf).value, tickers, idx, download, zOf)
  {
    if tickers == [] {
      assert InTickerOrder([], tickers, [], download, zOf);
    } else {
      var n := |tickers| - 1;
      var prefix := tickers[..n];
      var last := tickers[n];
      assert tickers == prefix + [last];
      EventsInTickerOrder(prefix, download, zOf);
      var events := Collect(prefix, download, zOf).value;
      var idx :| InTickerOrder(events, prefix, idx, download, zOf);
      var rows := download(last).value;
      if rows != [] && SeriesEvent(last, rows, zOf).Some? {
        var e := SeriesEvent(last, rows, zOf).value;
        ExtendWithEvent(events, prefix, idx, last, e, download, zOf);
        assert Collect(tickers, download, zOf).value == events + [e];
      } else {
        ExtendWithoutEvent(events, prefix, idx, last, download, zOf);
        assert Collect(tickers, download, zOf).value == events;
      }
    }
  }

  /** Every event of a successful run is a signalled bar with a Z-score above the threshold, tagged with one of the tickers. */
  lemma {:induction false} EventsAreSignals(tickers: seq<string>, download: Download, zOf: Standardise)
    requires Collect(tickers, download, zOf).Success?
    ensures forall e :: e in Collect(tickers, download, zOf).value ==>
      e.ticker in tickers && e.signal != NoSignal && e.z > Z_THRESHOLD
  {
    if tickers != [] {
      var n := |tickers| - 1;
      var prefix := tickers[..n];
      var last := tickers[n];
      EventsAreSignals(prefix, download, zOf);
      var rows := download(last).value;
      if rows != [] && SeriesEvent(last, rows, zOf).Some? {
        SeriesEventIsLateSignalledRow(last, rows, zOf);
      }
      assert forall t :: t in prefix ==> t in tickers;
    }
  }
}
