/**
 * The notification text built at the end of run_analysis (app.py:75-86):
 * the fixed "no anomaly" text when no ticker produced an event, otherwise a
 * header followed by one three-line block per event, the blocks separated by
 * a blank line. The `:.2f` rendering of numbers and the `strftime('%Y-%m-%d')`
 * rendering of dates are parameters.
 */
module Notifier {
  import opened Signals
  import opened Frames
  import opened Sequences

  /** `f"{x:.2f}"` */
  type FormatNumber = real -> string

  /** `d.strftime('%Y-%m-%d')` */
  type FormatDate = Date -> string

  const NO_ANOMALY: string := "\U{2705} Aucune anomalie d\U{E9}tect\U{E9}e aujourd\U{2019}hui."
  const HEADER_LINE: string := "\U{1F4CA} Signaux d\U{E9}tect\U{E9}s :"
  const BLOCK_SEPARATOR: string := "\n\n"

  /** `sep.join(parts)`. */
  function Join(parts: seq<string>, sep: string): string {
    if |parts| == 0 then ""
    else if |parts| == 1 then parts[0]
    else Join(parts[..|parts| - 1], sep) + sep + parts[|parts| - 1]
  }

  /** `s.split("\n")`: the pieces between newlines, so that gluing them back with newlines gives `s`. */
  function Lines(s: string): (r: seq<string>)
    ensures |r| >= 1
  {
    if s == [] then [""]
    else
      var rest := Lines(s[1..]);
      if s[0] == '\n' then [""] + rest
      else [[s[0]] + rest[0]] + rest[1..]
  }

  /** Gluing the lines back together with newlines gives the text again. */
  lemma {:induction false} LinesJoin(s: string)
    ensures Join(Lines(s), "\n") == s
  {
    if s != [] {
      var c := s[0];
      var tail := s[1..];
      var rest := Lines(tail);
      assert s == [c] + tail;
      LinesJoin(tail);
      if c == '\n' {
        assert Lines(s) == [""] + rest;
        JoinCons("", rest, "\n");
      } else {
        assert Lines(s) == [[c] + rest[0]] + rest[1..];
        JoinFirst(c, rest);
      }
    }
  }

  /** No line holds a newline. */
  lemma {:induction false} LinesHaveNoNewline(s: string)
    ensures forall k :: 0 <= k < |Lines(s)| ==> '\n' !in Lines(s)[k]
  {
    if s != [] {
      LinesHaveNoNewline(s[1..]);
    }
  }

  lemma {:induction false} JoinCons(first: string, rest: seq<string>, sep: string)
    requires rest != []
    ensures Join([first] + rest, sep) == first + sep + Join(rest, sep)
    decreases |rest|
  {
    if |rest| == 1 {
      assert [first] + rest == [first, rest[0]];
      assert [first, rest[0]][..1] == [first];
    } else {
      var parts := [first] + rest;
      assert parts[..|parts| - 1] == [first] + rest[..|rest| - 1];
      JoinCons(first, rest[..|rest| - 1], sep);
    }
  }

  lemma {:induction false} JoinFirst(c: char, rest: seq<string>)
    requires rest != []
    ensures Join([[c] + rest[0]] + rest[1..], "\n") == [c] + Join(rest, "\n")
  {
    if |rest| == 1 {
      assert [[c] + rest[0]] + rest[1..] == [[c] + rest[0]];
    } else {
      JoinCons([c] + rest[0], rest[1..], "\n");
      JoinCons(rest[0], rest[1..], "\n");
      assert [rest[0]] + rest[1..] == rest;
    }
  }

  /** The first line of an event's block: ticker and date. */
  function TickerLine(e: Event, fmtDate: FormatDate): string {
    "\U{1F4CC} " + e.ticker + " - " + fmtDate(e.date)
  }

  /** The second line: close and Z-score, both with two decimals. */
  function PriceLine(e: Event, fmtNumber: FormatNumber): string {
    "\U{1F4B0} " + fmtNumber(e.close) + " | Z=" + fmtNumber(e.z)
  }

  /** The f-string of app.py:80-82. */
  function Block(e: Event, fmtNumber: FormatNumber, fmtDate: FormatDate): string {
    TickerLine(e, fmtDate) + "\n" + PriceLine(e, fmtNumber) + "\n" + e.signal.Label()
  }

  /** The `messages` list, one block per event in event order. */
  function Blocks(events: seq<Event>, fmtNumber: FormatNumber, fmtDate: FormatDate): (r: seq<string>)
    ensures |r| == |events|
  {
    if events == [] then []
    else Blocks(events[..|events| - 1], fmtNumber, fmtDate) + [Block(events[|events| - 1], fmtNumber, fmtDate)]
  }

  /** The text sent to Telegram once the analysis has succeeded. */
  function Message(events: seq<Event>, fmtNumber: FormatNumber, fmtDate: FormatDate): string {
    if events == [] then NO_ANOMALY
    else HEADER_LINE + BLOCK_SEPARATOR + Join(Blocks(events, fmtNumber, fmtDate), BLOCK_SEPARATOR)
  }

  /** The message assembly of app.py:75-86, with its loop over the events. */
  method BuildMessage(events: seq<Event>, fmtNumber: FormatNumber, fmtDate: FormatDate) returns (text: string)
    ensures text == Message(events, fmtNumber, fmtDate)
    ensures events == [] ==> text == NO_ANOMALY
  {
    if events != [] {
      var messages: seq<string> := [];
      for i := 0 to |events|
        invariant messages == Blocks(events[..i], fmtNumber, fmtDate)
      {
        assert events[..i + 1][..i] == events[..i];
        messages := messages + [Block(events[i], fmtNumber, fmtDate)];
      }
      assert events[..|events|] == events;
      text := HEADER_LINE + BLOCK_SEPARATOR + Join(messages, BLOCK_SEPARATOR);
    } else {
      text := NO_ANOMALY;
    }
  }

  /** Splitting at a newline splits the text on either side separately. */
  lemma {:induction false} LinesAppend(x: string, y: string)
    ensures Lines(x + "\n" + y) == Lines(x) + Lines(y)
  {
    if x == [] {
      assert x + "\n" + y == "\n" + y;
      assert ("\n" + y)[1..] == y;
    } else {
      assert (x + "\n" + y)[0] == x[0];
      assert (x + "\n" + y)[1..] == x[1..] + "\n" + y;
      LinesAppend(x[1..], y);
    }
  }

  /** Text without a newline is a single line. */
  lemma {:induction false} LinesOfLine(s: string)
    requires '\n' !in s
    ensures Lines(s) == [s]
  {
    if s != [] {
      assert '\n' !in s[1..] by {
        assert forall k :: 0 <= k < |s[1..]| ==> s[1..][k] == s[k + 1];
      }
      LinesOfLine(s[1..]);
      assert [s[0]] + s[1..] == s;
    }
  }

  /** The event's fields that reach the text render without a newline. */
  predicate SingleLineFields(e: Event, fmtNumber: FormatNumber, fmtDate: FormatDate) {
    && '\n' !in e.ticker
    && '\n' !in fmtDate(e.date)
    && '\n' !in fmtNumber(e.close)
    && '\n' !in fmtNumber(e.z)
  }

  /** The three lines of a block. */
  function BlockLines(e: Event, fmtNumber: FormatNumber, fmtDate: FormatDate): seq<string> {
    [TickerLine(e, fmtDate), PriceLine(e, fmtNumber), e.signal.Label()]
  }

  /** A block is exactly three lines, the last one the signal label unchanged. */
  lemma BlockIsThreeLines(e: Event, fmtNumber: FormatNumber, fmtDate: FormatDate)
    requires SingleLineFields(e, fmtNumber, fmtDate)
    ensures Lines(Block(e, fmtNumber, fmtDate)) == BlockLines(e, fmtNumber, fmtDate)
  {
    var t := TickerLine(e, fmtDate);
    var p := PriceLine(e, fmtNumber);
    var l := e.signal.Label();
    assert '\n' !in t;
    assert '\n' !in p;
    LabelIsOneLine(e.signal);
    LinesAppend(t + "\n" + p, l);
    LinesAppend(t, p);
    LinesOfLine(t);
    LinesOfLine(p);
    LinesOfLine(l);
  }

  /** No signal label holds a newline. */
  lemma LabelIsOneLine(s: Signal)
    ensures '\n' !in s.Label()
  {
    match s
    case NoSignal =>
    case Bullish => assert s.Label() == "\U{1F4C8} Signal haussier";
    case Bearish => assert s.Label() == "\U{1F4C9} Signal baissier";
  }

  /** The lines after the header: a blank line, then the event's three lines, for each event in turn. */
  function BodyLines(events: seq<Event>, fmtNumber: FormatNumber, fmtDate: FormatDate): (r: seq<string>)
    ensures |r| == 4 * |events|
  {
    if events == [] then []
    else BodyLines(events[..|events| - 1], fmtNumber, fmtDate) + [""] + BlockLines(events[|events| - 1], fmtNumber, fmtDate)
  }

  /** A blank line separates the two sides of a block separator. */
  lemma LinesAroundSeparator(x: string, y: string)
    ensures Lines(x + BLOCK_SEPARATOR + y) == Lines(x) + [""] + Lines(y)
  {
    assert x + BLOCK_SEPARATOR + y == x + "\n" + ("" + "\n" + y);
    LinesAppend(x, "" + "\n" + y);
    LinesAppend("", y);
  }

  lemma {:induction false} JoinedBlocksLines(events: seq<Event>, fmtNumber: FormatNumber, fmtDate: FormatDate)
    requires events != []
    requires forall e :: e in events ==> SingleLineFields(e, fmtNumber, fmtDate)
    ensures Lines(Join(Blocks(events, fmtNumber, fmtDate), BLOCK_SEPARATOR)) == BodyLines(events, fmtNumber, fmtDate)[1..]
  {
    var n := |events| - 1;
    var last := events[n];
    var prefix := events[..n];
    assert last in events;
    BlockIsThreeLines(last, fmtNumber, fmtDate);
    var blocks := Blocks(events, fmtNumber, fmtDate);
    var b := Block(last, fmtNumber, fmtDate);
    var lb := BlockLines(last, fmtNumber, fmtDate);
    var pre := BodyLines(prefix, fmtNumber, fmtDate);
    assert blocks == Blocks(prefix, fmtNumber, fmtDate) + [b];
    assert BodyLines(events, fmtNumber, fmtDate) == pre + [""] + lb;
    if n == 0 {
      assert blocks == [b];
      assert pre == [];
      assert (pre + [""] + lb)[1..] == lb;
    } else {
      assert forall e :: e in prefix ==> e in events;
      JoinedBlocksLines(prefix, fmtNumber, fmtDate);
      var joined := Join(Blocks(prefix, fmtNumber, fmtDate), BLOCK_SEPARATOR);
      assert blocks[..n] == Blocks(prefix, fmtNumber, fmtDate) && blocks[n] == b;
      assert Join(blocks, BLOCK_SEPARATOR) == joined + BLOCK_SEPARATOR + b;
      LinesAroundSeparator(joined, b);
      DropFirstOfAppend(pre, [""]);
      DropFirstOfAppend(pre + [""], lb);
    }
  }

  lemma HeaderIsOneLine()
    ensures Lines(HEADER_LINE) == [HEADER_LINE]
  {
    assert '\n' !in HEADER_LINE;
    LinesOfLine(HEADER_LINE);
  }

  /**
   * The message read back line by line: the header, then for each event, in
   * event order, a blank line and the event's three lines.
   */
  lemma MessageLines(events: seq<Event>, fmtNumber: FormatNumber, fmtDate: FormatDate)
    requires events != []
    requires forall e :: e in events ==> SingleLineFields(e, fmtNumber, fmtDate)
    ensures Lines(Message(events, fmtNumber, fmtDate)) == [HEADER_LINE] + BodyLines(events, fmtNumber, fmtDate)
  {
    var joined := Join(Blocks(events, fmtNumber, fmtDate), BLOCK_SEPARATOR);
    var body := BodyLines(events, fmtNumber, fmtDate);
    calc {
      Lines(Message(events, fmtNumber, fmtDate));
      Lines(HEADER_LINE + BLOCK_SEPARATOR + joined);
      { LinesAroundSeparator(HEADER_LINE, joined); }
      Lines(HEADER_LINE) + [""] + Lines(joined);
      { HeaderIsOneLine(); JoinedBlocksLines(events, fmtNumber, fmtDate); }
      [HEADER_LINE] + [""] + body[1..];
      { BodyLinesAt(events, fmtNumber, fmtDate, 0); assert body == [""] + body[1..]; }
      [HEADER_LINE] + body;
    }
  }

  /** Where each event's lines sit among the body lines. */
  lemma {:induction false} BodyLinesAt(events: seq<Event>, fmtNumber: FormatNumber, fmtDate: FormatDate, k: nat)
    requires k < |events|
    ensures BodyLines(events, fmtNumber, fmtDate)[4 * k] == ""
    ensures BodyLines(events, fmtNumber, fmtDate)[4 * k + 1..4 * k + 4] == BlockLines(events[k], fmtNumber, fmtDate)
  {
    var n := |events| - 1;
    var prefix := events[..n];
    var pre := BodyLines(prefix, fmtNumber, fmtDate);
    var lb := BlockLines(events[n], fmtNumber, fmtDate);
    var x := pre + [""];
    assert BodyLines(events, fmtNumber, fmtDate) == x + lb;
    if k < n {
      BodyLinesAt(prefix, fmtNumber, fmtDate, k);
      assert prefix[k] == events[k];
      SliceOfAppendLeft(x, lb, 4 * k + 1, 4 * k + 4);
      SliceOfAppendLeft(pre, [""], 4 * k + 1, 4 * k + 4);
    } else {
      SliceOfAppendRight(x, lb, 4 * k + 1, 4 * k + 4);
    }
  }

  /**
   * Every event's block can be read off the message at a fixed position: line
   * 4k+2 names the k-th event's ticker and date, line 4k+3 its close and
   * Z-score, line 4k+4 its label; the line before each block is blank.
   */
  lemma EventsReadableFromMessage(events: seq<Event>, fmtNumber: FormatNumber, fmtDate: FormatDate)
    requires events != []
    requires forall e :: e in events ==> SingleLineFields(e, fmtNumber, fmtDate)
    ensures |Lines(Message(events, fmtNumber, fmtDate))| == 1 + 4 * |events|
    ensures Lines(Message(events, fmtNumber, fmtDate))[0] == HEADER_LINE
    ensures forall k :: 0 <= k < |events| ==>
      && Lines(Message(events, fmtNumber, fmtDate))[4 * k + 1] == ""
      && Lines(Message(events, fmtNumber, fmtDate))[4 * k + 2] == TickerLine(events[k], fmtDate)
      && Lines(Message(events, fmtNumber, fmtDate))[4 * k + 3] == PriceLine(events[k], fmtNumber)
      && Lines(Message(events, fmtNumber, fmtDate))[4 * k + 4] == events[k].signal.Label()
  {
    MessageLines(events, fmtNumber, fmtDate);
    var lines := Lines(Message(events, fmtNumber, fmtDate));
    var body := BodyLines(events, fmtNumber, fmtDate);
    forall k | 0 <= k < |events|
      ensures && lines[4 * k + 1] == ""
              && lines[4 * k + 2] == TickerLine(events[k], fmtDate)
              && lines[4 * k + 3] == PriceLine(events[k], fmtNumber)
              && lines[4 * k + 4] == events[k].signal.Label()
    {
      BodyLinesAt(events, fmtNumber, fmtDate, k);
      ReadBlock(lines, body, 4 * k, BlockLines(events[k], fmtNumber, fmtDate));
    }
  }

  /** A blank line followed by a block, found at position `i` of the body, sits one line further down in the message. */
  lemma ReadBlock(lines: seq<string>, body: seq<string>, i: nat, block: seq<string>)
    requires lines == [HEADER_LINE] + body
    requires i + 4 <= |body| && |block| == 3
    requires body[i] == "" && body[i + 1..i + 4] == block
    ensures lines[i + 1] == "" && lines[i + 2] == block[0] && lines[i + 3] == block[1] && lines[i + 4] == block[2]
  {
    assert block[0] == body[i + 1] && block[1] == body[i + 2] && block[2] == body[i + 3];
  }

  /** The header is the first line of a message with events, and differs from the "no anomaly" text. */
  lemma NoAnomalyOnlyWithoutEvents(events: seq<Event>, fmtNumber: FormatNumber, fmtDate: FormatDate)
    ensures Message(events, fmtNumber, fmtDate) == NO_ANOMALY <==> events == []
  {
    if events != [] {
      var m := Message(events, fmtNumber, fmtDate);
      assert m[0] == HEADER_LINE[0];
      assert NO_ANOMALY[0] != HEADER_LINE[0];
    }
  }
}
