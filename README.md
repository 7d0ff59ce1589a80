# Daily signal scan (app.py) in Dafny

This project models the logic of the analysis route of `app.py`, a service that scans a list of stock tickers once per call and reports unusual volatility through Telegram. One invocation does the following:

- reads the tickers from column B of a spreadsheet;
- downloads three months of daily closes for each ticker;
- adds the indicator columns:
  - a 10-bar volatility;
  - its Z-score;
  - two simple moving averages: Tenkan-sen over 9 bars and Kijun-sen over 26 bars;
- classifies every bar as bullish, bearish or unsignalled;
- keeps the latest signalled bar of each ticker;
- sends one notification listing those bars, or a fixed "no anomaly" text;
- returns a success text, or an error text once any step has raised.

Modules, one file each:

- `Tickers` (tickers.dfy): the ticker column and its normalisation. The header cell is dropped. Each cell is stripped with Python's `str.isspace` whitespace set and upper-cased. Cells that are blank once stripped are discarded.
- `Indicators` (indicators.dfy): trailing-window indicators over exact `real`s.
  - `RollingMeans` is the reference definition of `rolling(w).mean()`. Bars before the window fills are `None`, which stands for NaN.
  - `RollingMean` is a running-sum method proved equal to `RollingMeans`.
  - For the 10-bar volatility, the model keeps only which bars it is defined at.
  - The Z-score at a bar is an abstract parameter `zOf(close, i)`, masked to `None` wherever the volatility is missing.
- `Signals` (signals.dfy): the two-level `np.where`. A comparison with a missing value is false. `LatestSignal` gives the position that `tail(1)` keeps among the signalled rows.
- `Frames` (frames.dfy): the per-ticker DataFrame as the class `Frame`. Its columns are `seq` fields, and its methods add the Volatility/Z_score, Tenkan/Kijun and Signal columns in place. The function `LatestEventOf` specifies the extracted row.
- `Analysis` (analysis.dfy): the `for ticker in tickers` loop (`CollectSignals`), specified by the function `Collect`:
  - an empty download is skipped;
  - the first download that fails ends the loop with its error text.
- `Notifier` (notifier.dfy): the text of the notification and the `messages` loop (`BuildMessage`). The `:.2f` and `strftime` renderings are parameters. The proofs read the message back with a `split("\n")` function (`Lines`), whose round trip with `"\n".join` is proved.
- `App` (app.dfy): the route as a whole. The sheet column is given as a `Result`, so a failed read carries its error text. An invocation yields one notification and one response.
- `Wrappers` and `Sequences`: `Option`/`Result` and helper lemmas on sequences.

Two behaviours of app.py worth stating:

- A download that raises aborts the whole run (app.py:45-50 and 88-90), instead of skipping just that ticker.
- The header and fixed texts are the French strings of app.py:84-90.

## Model

| member | source | states |
|---|---|---|
| Tickers.UpperChar | app.py:36 | upper-casing leaves no lower-case ASCII letter, keeps whitespace and non-whitespace apart, and leaves every other character unchanged |
| Tickers.Upper | app.py:36 | the ASCII upper-casing keeps the length and whitespace positions and leaves no lower-case ASCII letter |
| Tickers.TrimStart | app.py:36 | the result is the suffix after a run of leading whitespace and does not start with whitespace |
| Tickers.TrimEnd | app.py:36 | the result is the prefix before a run of trailing whitespace and does not end with whitespace |
| Tickers.Strip | app.py:36 | `strip()` leaves neither leading nor trailing whitespace |
| Tickers.BlankIffAllSpace | app.py:36 | the comprehension's filter rejects a cell exactly when all of its characters are whitespace |
| Tickers.Canonical | app.py:36 | the ASCII model of `strip().upper()` is never longer than the cell; its properties are in CanonicalWellFormed and CanonicalIdempotent |
| Tickers.TickersFromColumn | app.py:35-36 | the header cell never yields a ticker, so there are fewer tickers than column values; see HeaderIgnored and the Normalize lemmas |
| Tickers.Normalize | app.py:36 | the comprehension never yields more tickers than it was given cells |
| Tickers.Kept | app.py:36 | one cell contributes at most one ticker |
| Tickers.CanonicalWellFormed | app.py:36 | a non-blank cell becomes a non-empty, stripped ticker with no lower-case ASCII letter |
| Tickers.NormalizeWellFormed | app.py:36 | every produced ticker is non-empty, has no surrounding whitespace and no lower-case ASCII letter |
| Tickers.HeaderIgnored | app.py:35-36 | whatever the header cell holds, the tickers are those of the cells below it |
| Tickers.NormalizeAppend | app.py:36 | normalisation goes cell by cell in order (it distributes over concatenation), so order and duplicates are kept |
| Tickers.NormalizeKeepsNonBlank | app.py:36 | every non-blank cell yields its stripped, upper-cased text |
| Tickers.NormalizeOnlyFromCells | app.py:36 | every produced ticker is the stripped, upper-cased text of some non-blank cell |
| Tickers.StripStripped | app.py:36 | a string without surrounding whitespace is its own strip |
| Tickers.UpperIdempotent | app.py:36 | upper-casing twice is upper-casing once |
| Tickers.CanonicalIdempotent | app.py:36 | a produced ticker is a fixed point of strip-then-upper |
| Tickers.NormalizeIdempotent | app.py:36 | normalising an already normalised list changes nothing |
| Indicators.RollingMeans | app.py:39-40 | the reference `rolling(w).mean()` column has one entry per close; see WindowDefinedness, RollingMeansBounded and RollingMean |
| Indicators.VolatilityDefined | app.py:54 | one definedness flag per bar for the 10-bar rolling std; see WindowDefinedness |
| Indicators.ZScores | app.py:54-57 | the Z_score column has one entry per bar and is missing wherever the 10-bar volatility is missing |
| Indicators.WindowSumStep | app.py:39-40 | moving the trailing window one bar on adds the new close and subtracts the one that leaves |
| Indicators.RunningSumStep | app.py:39-40 | the updated running sum is the next window's sum, and it yields the mean at the bar once the window is full |
| Indicators.RollingMean | app.py:39-40 | the running-sum column equals `rolling(w).mean()`: defined exactly from bar w-1 on, and then the mean of the last w closes |
| Indicators.MeanBetween | app.py:39-40 | a mean lies between any bounds of the values it averages |
| Indicators.RollingMeansBounded | app.py:39-40 | every defined moving average lies within the range of the closes |
| Indicators.WindowDefinedness | app.py:39-54 | Tenkan is defined iff i >= 8, Kijun iff i >= 25, volatility iff i >= 9, and the Z-score is missing before bar 9 |
| Signals.Classify | app.py:60-68 | the per-bar np.where: a signalled bar has a defined Z-score above 2; see ClassifyCases and UndefinedIndicatorNoSignal |
| Signals.SeriesSignals | app.py:54-68 | the Signal column of a close series has one entry per bar; see EarlyBarsUnsignalled and ShortSeriesUnsignalled |
| Signals.SignalColumn | app.py:60-68 | the Signal column has one entry per bar, and every signalled bar has a defined Z-score above 2 |
| Signals.LatestSignal | app.py:70 | `tail(1)` of the signalled rows is empty iff no bar is signalled, and otherwise is a signalled bar with no signalled bar after it |
| Signals.LabelsDistinct | app.py:60-68 | the three labels are pairwise distinct and only "no signal" is the empty text, so each bar is exactly one of the three |
| Signals.ClassifyCases | app.py:60-68 | bullish iff Z>2, Close>Tenkan and Close>Kijun; bearish iff Z>2, Close<Tenkan and Close<Kijun (never both); otherwise no signal |
| Signals.UndefinedIndicatorNoSignal | app.py:60-68 | a bar with a missing Z-score, Tenkan-sen or Kijun-sen is never signalled |
| Signals.EarlyBarsUnsignalled | app.py:40-68 | no bar before bar 25 is signalled |
| Signals.ShortSeriesUnsignalled | app.py:40-70 | a series of fewer than 26 bars has no signalled bar |
| Frames.LatestEventOf | app.py:70-72 | the extracted row is absent iff no bar is signalled; otherwise it carries the ticker and the date, close, Z-score and label of the last signalled bar, with Z > 2 |
| Frames.SeriesEvent | app.py:51-72 | a series' event is tagged with the ticker and signalled; see SeriesEventIsLateSignalledRow and ShortSeriesNoEvent |
| Frames.ShortSeriesNoEvent | app.py:40-72 | a series of fewer than 26 bars yields no event |
| Frames.SeriesEventIsLateSignalledRow | app.py:70-72 | a series' event is one of its rows at or after bar 25, tagged with the ticker, signalled, with Z > 2 |
| Frames.Frame.constructor | app.py:50-53 | the frame holds the downloaded dates and closes and no derived column |
| Frames.Frame.AddVolatility | app.py:54-57 | adds the volatility definedness and the Z_score column and changes nothing else |
| Frames.Frame.CalculateIchimoku | app.py:38-41 | adds Tenkan_sen and Kijun_sen as the 9- and 26-bar rolling means and changes nothing else |
| Frames.Frame.AddSignal | app.py:60-68 | adds the Signal column classified from the frame's own columns |
| Frames.Frame.LatestEvent | app.py:70-72 | returns the latest signalled row tagged with the ticker |
| Analysis.Collect | app.py:49-73 | the events of the tickers in order, or the first download error; see CollectSignals, EventsInTickerOrder, FirstFailureReported, EmptySeriesSkipped and AtMostOneEventPerTicker |
| Analysis.CollectSignals | app.py:49-73 | the loop returns the events of all tickers in order, or the error of the first failing download |
| Analysis.FailurePersists | app.py:49-50 | once a download has raised, later tickers do not change the outcome |
| Analysis.EmptySeriesSkipped | app.py:51-52 | a ticker with an empty download contributes nothing |
| Analysis.AtMostOneEventPerTicker | app.py:49-73 | there are never more events than tickers |
| Analysis.FirstFailureReported | app.py:49-50 | a failed run reports the error of the first ticker whose download raised, and all earlier downloads succeeded |
| Analysis.SuccessMeansAllDownloaded | app.py:49-50 | a successful run downloaded every ticker without error |
| Analysis.IncreasingAppend | app.py:73 | appending a position after all earlier ones keeps the positions strictly increasing |
| Analysis.PlacedAtExtend | app.py:49-73 | an event placed at its ticker stays placed when later tickers are processed |
| Analysis.PlacedAtLast | app.py:70-73 | the event of the ticker just processed is placed at that ticker |
| Analysis.ExtendWithEvent | app.py:70-73 | appending a ticker with an event extends the ticker-order placement by that ticker |
| Analysis.ExtendWithoutEvent | app.py:51-73 | appending a ticker without an event keeps the placement |
| Analysis.EventsInTickerOrder | app.py:49-73 | the events follow the order of their tickers, each is its ticker's latest signalled row, and every ticker with a signalled bar appears |
| Analysis.EventsAreSignals | app.py:70-73 | every event is tagged with one of the tickers, is signalled, and has Z > 2 |
| Notifier.Lines | app.py:84 | splitting the text on newlines gives at least one line |
| Notifier.LinesJoin | app.py:84 | joining the lines with "\n" gives back the text |
| Notifier.LinesHaveNoNewline | app.py:84 | no line contains a newline |
| Notifier.JoinCons | app.py:84 | joining a list that starts with one part puts that part, then the separator, before the join of the rest |
| Notifier.Join | app.py:84 | `sep.join(parts)`; see LinesJoin, JoinCons and JoinedBlocksLines |
| Notifier.Block | app.py:79-83 | the f-string of one event; see BlockIsThreeLines |
| Notifier.Message | app.py:75-86 | the notification text; see BuildMessage, MessageLines, EventsReadableFromMessage and NoAnomalyOnlyWithoutEvents |
| Notifier.Blocks | app.py:77-83 | there is one message block per event |
| Notifier.BuildMessage | app.py:75-86 | the loop's text is the notification text: the fixed "no anomaly" text without events, or the header and the blocks |
| Notifier.LinesAppend | app.py:84 | splitting at a newline splits either side separately |
| Notifier.LinesOfLine | app.py:84 | text without a newline is a single line |
| Notifier.BlockIsThreeLines | app.py:79-83 | for a ticker without a newline (and renderings without one), a block is exactly three lines: ticker and date, close and Z, and the label unchanged |
| Notifier.LabelIsOneLine | app.py:62-65 | no label contains a newline |
| Notifier.BodyLines | app.py:78-84 | the body has four lines per event |
| Notifier.LinesAroundSeparator | app.py:84 | the block separator reads as one blank line between its two sides |
| Notifier.JoinedBlocksLines | app.py:84 | the joined blocks read as the events' three lines, separated by blank lines |
| Notifier.HeaderIsOneLine | app.py:84 | the header is a single line |
| Notifier.MessageLines | app.py:84 | for tickers without a newline, the message reads as the header, then a blank line and three lines per event, in event order |
| Notifier.BodyLinesAt | app.py:78-84 | the k-th event's lines are at body lines 4k+1 to 4k+3, after a blank line at 4k |
| Notifier.EventsReadableFromMessage | app.py:75-84 | for tickers without a newline, the message has 1+4n lines: the header first, then for each event k a blank line and its ticker/date, price/Z and label lines at 4k+2, 4k+3 and 4k+4 |
| Notifier.ReadBlock | app.py:84 | a block found in the body sits one line further down in the message |
| Notifier.NoAnomalyOnlyWithoutEvents | app.py:75-86 | the notification is the "no anomaly" text iff there are no events |
| App.ErrorNotification | app.py:89 | the notification sent from the exception handler; see RunOutcome |
| App.ErrorResponse | app.py:90 | the response returned from the exception handler; see ErrorIsNotSuccess and RunOutcome |
| App.Run | app.py:44-90 | one invocation's notification and response; see RunAnalysis, RunOutcome and QuietRun |
| App.ErrorIsNotSuccess | app.py:87-90 | no error response equals the success response |
| App.RunAnalysis | app.py:44-90 | the handler's notification and response are those of the run |
| App.RunOutcome | app.py:44-90 | the response is the success text iff the sheet read and every download succeeded; otherwise both texts carry the error of the sheet read, or of a download of one of the tickers |
| App.QuietRun | app.py:85-87 | a successful run without events sends exactly the "no anomaly" text and answers success |
| App.AllEmptyIsQuiet | app.py:51-52 | when every download is empty, no event is collected |
| Indicators.SumDropFirst | app.py:39-40 | dropping the oldest value of a window subtracts it from the sum |
| Indicators.SumBetween | app.py:39-40 | a sum of n values between two bounds lies between n times each bound |

## Left out

- Flask routing and `app.run` (app.py:12, 43, 92-93): HTTP hosting, not logic.
- The spreadsheet client, its credentials at module load and the fetch (app.py:19-22, 33-35): network calls. The model takes the column values, or the error text of a failed read.
- `yf.download` (app.py:50) and `reset_index` (app.py:53): remote data and pandas plumbing. A download is a function from a ticker to its (date, close) rows or an error text, and the download period and interval are part of that function. A ticker listed twice therefore gets the same download both times, whereas app.py:49-50 calls `yf.download` once per occurrence and the two calls can differ (for example, only the second one raises). yfinance's multi-level column layout is not modelled.
- `send_telegram_message` and the environment variables (app.py:15-16, 24-30): network I/O. The notification is returned as text. The sender catches its own errors, so the outcome has exactly one notification.
- The rolling standard deviation values, `vol_mean`, `vol_std` and the division of app.py:54-57: floating-point statistics with NaN and infinity on a zero deviation. The Z-score is the abstract parameter `zOf`. The model proves only that it is missing before bar 9.
- Indicators.ZScores: states only where the Z-score is missing, not its value, because the statistic is left abstract.
- Floating-point rounding: closes and means are exact `real`s, so pandas' IEEE arithmetic is idealised. A NaN close inside the downloaded data is not modelled.
- The `:.2f` and `strftime('%Y-%m-%d')` renderings (app.py:80-81): they are parameters. The message proofs assume they produce no newline, as `SingleLineFields` requires.
- A ticker with an inner newline: a column-B cell such as "AA\nPL" keeps that newline through `.strip().upper()` (app.py:36), and its block (app.py:80) then has four lines, not three. `SingleLineFields` therefore also requires the ticker to have no newline, and the three-line layout is proved only for such tickers.
- Tickers.UpperChar, Tickers.Upper, Tickers.Canonical: map only `a`-`z`, not Python's full Unicode `str.upper`, because Unicode case tables are not available here. Other lower-case letters such as `é` stay as they are, so "no lower-case letter" is proved only for ASCII letters. Python's `upper()` can also lengthen a string (`"ß".upper() == "SS"`), which this character-by-character model cannot.
- Exceptions other than a failed sheet read and a failed download (for example from pandas itself): the model has no such failure.
- The `pd.concat` and `iterrows` (app.py:76-78): modelled as the list of events itself, which holds the same rows in the same order.
