/**
 * run_analysis as a whole (app.py:44-90): read the ticker column, collect the
 * events, build the notification; any exception from the sheet read or a
 * download is caught once, reported in the notification and in the
 * response. The Telegram send itself is not modelled: the notification is
 * returned as text.
 */
module App {
  import opened Wrappers
  import opened Tickers
  import opened Analysis
  import opened Notifier

  const SUCCESS_RESPONSE: string := "\U{2705} Analyse ex\U{E9}cut\U{E9}e avec succ\U{E8}s"

  /** The notification sent from the exception handler. */
  function ErrorNotification(error: string): string {
    "\U{274C} Erreur dans le script : " + error
  }

  /** The response returned from the exception handler. */
  function ErrorResponse(error: string): string {
    "\U{274C} Erreur : " + error
  }

  /** No error response reads as the success response. */
  lemma ErrorIsNotSuccess(error: string)
    ensures ErrorResponse(error) != SUCCESS_RESPONSE
  {
    assert ErrorResponse(error)[0] == '\U{274C}' != SUCCESS_RESPONSE[0];
  }

  /** One invocation's single notification and its HTTP response text. */
  datatype Outcome = Outcome(notification: string, response: string)

  /** What one invocation sends and answers. */
  function Run(column: Result<seq<string>, string>, download: Download, zOf: Standardise,
               fmtNumber: FormatNumber, fmtDate: FormatDate): Outcome
  {
    match column
    case Failure(e) => Outcome(ErrorNotification(e), ErrorResponse(e))
    case Success(cells) =>
      match Collect(TickersFromColumn(cells), download, zOf)
      case Failure(e) => Outcome(ErrorNotification(e), ErrorResponse(e))
      case Success(events) => Outcome(Message(events, fmtNumber, fmtDate), SUCCESS_RESPONSE)
  }

  /** The route handler: the sheet's column B (or the error reading it), then the pipeline. */
  method RunAnalysis(column: Result<seq<string>, string>, download: Download, zOf: Standardise,
                     fmtNumber: FormatNumber, fmtDate: FormatDate)
    returns (notification: string, response: string)
    ensures Outcome(notification, response) == Run(column, download, zOf, fmtNumber, fmtDate)
  {
    if column.Failure? {
      notification, response := ErrorNotification(column.error), ErrorResponse(column.error);
      return;
    }
    var tickers := TickersFromColumn(column.value);
    var allSignals := CollectSignals(tickers, download, zOf);
    if allSignals.Failure? {
      notification, response := ErrorNotification(allSignals.error), ErrorResponse(allSignals.error);
      return;
    }
    notification := BuildMessage(allSignals.value, fmtNumber, fmtDate);
    response := SUCCESS_RESPONSE;
  }

  /**
   * The response tells success from failure, and a failure's notification and
   * response both carry the error text: that of the sheet read, or else of the
   * first download that raised.
   */
  lemma RunOutcome(column: Result<seq<string>, string>, download: Download, zOf: Standardise,
                   fmtNumber: FormatNumber, fmtDate: FormatDate)
    ensures var o := Run(column, download, zOf, fmtNumber, fmtDate);
      o.response == SUCCESS_RESPONSE
      <==> column.Success? && Collect(TickersFromColumn(column.value), download, zOf).Success?
    ensures column.Failure? ==>
      Run(column, download, zOf, fmtNumber, fmtDate) == Outcome(ErrorNotification(column.error), ErrorResponse(column.error))
    ensures column.Success? && Collect(TickersFromColumn(column.value), download, zOf).Failure? ==>
      var e := Collect(TickersFromColumn(column.value), download, zOf).error;
      && Run(column, download, zOf, fmtNumber, fmtDate) == Outcome(ErrorNotification(e), ErrorResponse(e))
      && exists t :: t in TickersFromColumn(column.value) && download(t) == Failure(e)
  {
    if column.Failure? {
      ErrorIsNotSuccess(column.error);
    }
    if column.Success? && Collect(TickersFromColumn(column.value), download, zOf).Failure? {
      ErrorIsNotSuccess(Collect(TickersFromColumn(column.value), download, zOf).error);
      var tickers := TickersFromColumn(column.value);
      FirstFailureReported(tickers, download, zOf);
      var i :| 0 <= i < |tickers| && download(tickers[i]) == Failure(Collect(tickers, download, zOf).error);
      assert tickers[i] in tickers;
    }
  }

  /** A run that succeeds and finds no signal sends exactly the "no anomaly" text. */
  lemma QuietRun(column: Result<seq<string>, string>, download: Download, zOf: Standardise,
                 fmtNumber: FormatNumber, fmtDate: FormatDate)
    requires column.Success?
    requires Collect(TickersFromColumn(column.value), download, zOf) == Success([])
    ensures Run(column, download, zOf, fmtNumber, fmtDate) == Outcome(NO_ANOMALY, SUCCESS_RESPONSE)
  {
  }

  /** A run whose every ticker downloads an empty series collects no event. */
  lemma {:induction false} AllEmptyIsQuiet(tickers: seq<string>, download: Download, zOf: Standardise)
    requires forall t :: t in tickers ==> download(t) == Success([])
    ensures Collect(tickers, download, zOf) == Success([])
  {
    if tickers != [] {
      var prefix := tickers[..|tickers| - 1];
      assert forall t :: t in prefix ==> t in tickers;
      AllEmptyIsQuiet(prefix, download, zOf);
      assert tickers[|tickers| - 1] in tickers;
    }
  }
}
