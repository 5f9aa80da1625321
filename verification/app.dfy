/** The application shell (App.tsx): the job lifecycle driven by `handleStartAnalysis`
    as a pure transition function over the shell's state, and the tab dispatch of
    `renderContent`. The 3-second reset timer is an event; the shell only counts the
    timers still pending. */
module App {
  import opened Wrappers
  import opened Types
  import Service
  import Prompt
  import NewAnalysis

  const StartMessage: string := "Initializing crawl agents..."
  const FailedMessage: string := "Analysis failed. Please try again."

  /** The shell's state: the four React state hooks of the job plus the number of reset
      timers scheduled and not yet fired. */
  datatype AppState = AppState(
    activeTab: string,
    currentReport: Option<JsObject>,
    status: JobStatus,
    progressMessage: string,
    pendingTimers: nat)

  const Initial: AppState := AppState("new", None, Idle, "", 0)

  /** What can happen to the shell: the form is submitted, the service reports progress,
      generation resolves or rejects, a reset timer fires, or the user picks a tab. */
  datatype Event =
    | Submit
    | Progress(message: string)
    | Success(report: JsObject)
    | Failure
    | TimerElapsed
    | Navigate(tab: string)

  /** One transition. A timer event with no timer pending cannot happen and leaves the
      state alone. */
  function Step(s: AppState, e: Event): (t: AppState)
    ensures e.Submit? ==> t == s.(status := Crawling, progressMessage := StartMessage)
    ensures e.Progress? ==> t == s.(progressMessage := e.message)
    ensures e.Success? ==> t == s.(currentReport := Some(e.report), status := Completed, activeTab := "dashboard")
    ensures e.Failure? ==> t == s.(status := Failed, progressMessage := FailedMessage, pendingTimers := s.pendingTimers + 1)
    ensures e.TimerElapsed? && s.pendingTimers > 0 ==> t == s.(status := Idle, pendingTimers := s.pendingTimers - 1)
    ensures e.TimerElapsed? && s.pendingTimers == 0 ==> t == s
    ensures e.Navigate? ==> t == s.(activeTab := e.tab)
    ensures t.currentReport != s.currentReport ==> e.Success?
  {
    match e
    case Submit => s.(status := Crawling, progressMessage := StartMessage)
    case Progress(m) => s.(progressMessage := m)
    case Success(r) => s.(currentReport := Some(r), status := Completed, activeTab := "dashboard")
    case Failure => s.(status := Failed, progressMessage := FailedMessage, pendingTimers := s.pendingTimers + 1)
    case TimerElapsed =>
      if s.pendingTimers > 0 then s.(status := Idle, pendingTimers := s.pendingTimers - 1) else s
    case Navigate(tab) => s.(activeTab := tab)
  }

  /** The state after a series of events. */
  function Run(s: AppState, es: seq<Event>): AppState
    decreases |es|
  {
    if es == [] then s else Run(Step(s, es[0]), es[1..])
  }

  /** Running two series one after the other is running their concatenation. */
  lemma {:induction false} RunAppend(s: AppState, a: seq<Event>, b: seq<Event>)
    ensures Run(s, a + b) == Run(Run(s, a), b)
    decreases |a|
  {
    if a == [] {
      assert a + b == b;
    } else {
      assert (a + b)[1..] == a[1..] + b;
      RunAppend(Step(s, a[0]), a[1..], b);
    }
  }

  /** No event assigns ANALYZING. */
  lemma {:induction false} NeverAnalyzing(s: AppState, es: seq<Event>)
    requires s.status != Analyzing
    ensures Run(s, es).status != Analyzing
    decreases |es|
  {
    if es != [] {
      NeverAnalyzing(Step(s, es[0]), es[1..]);
    }
  }

  /** From the initial state exactly IDLE, CRAWLING, COMPLETED and FAILED are reachable. */
  lemma ReachableStatuses(report: JsObject)
    ensures forall es :: Run(Initial, es).status != Analyzing
    ensures Run(Initial, []).status == Idle
    ensures Run(Initial, [Submit]).status == Crawling
    ensures Run(Initial, [Submit, Success(report)]).status == Completed
    ensures Run(Initial, [Submit, Failure]).status == Failed
  {
    forall es ensures Run(Initial, es).status != Analyzing {
      NeverAnalyzing(Initial, es);
    }
    var crawling := Step(Initial, Submit);
    var es := [Submit, Success(report)];
    assert es[1..] == [Success(report)];
    assert Run(crawling, [Success(report)]) == Step(crawling, Success(report));
    var es' := [Submit, Failure];
    assert es'[1..] == [Failure];
    assert Run(crawling, [Failure]) == Step(crawling, Failure);
  }

  /** The events of a progress trace, in order. */
  function ProgressEvents(messages: seq<string>): (es: seq<Event>)
    ensures |es| == |messages|
    ensures forall i :: 0 <= i < |messages| ==> es[i] == Progress(messages[i])
  {
    seq(|messages|, i requires 0 <= i < |messages| => Progress(messages[i]))
  }

  /** Progress events only touch the message, and the last one wins. */
  lemma {:induction false} LastProgressWins(s: AppState, messages: seq<string>)
    requires messages != []
    ensures Run(s, ProgressEvents(messages)) == s.(progressMessage := messages[|messages| - 1])
    decreases |messages|
  {
    var es := ProgressEvents(messages);
    if |messages| == 1 {
      assert es[1..] == [];
    } else {
      assert es[1..] == ProgressEvents(messages[1..]);
      LastProgressWins(Step(s, es[0]), messages[1..]);
    }
  }

  /** The events one `handleStartAnalysis` call produces: the submit, the progress trace
      of the service, and its resolution or rejection. */
  function AnalysisEvents(run: Service.Run): (es: seq<Event>)
    ensures |es| == |run.progress| + 2
    ensures es[0] == Submit
    ensures forall i :: 1 <= i <= |run.progress| ==> es[i] == Progress(run.progress[i - 1])
    ensures run.outcome.Ok? ==> es[|es| - 1] == Success(run.outcome.value)
    ensures run.outcome.Err? ==> es[|es| - 1] == Failure
  {
    [Submit] + ProgressEvents(run.progress)
    + [if run.outcome.Ok? then Success(run.outcome.value) else Failure]
  }

  /** How one analysis ends. On success the new report is current, the status COMPLETED,
      the tab 'dashboard' and the message the last progress message. On failure the status
      is FAILED with the fixed message, one more reset timer is pending, and the report and
      tab are as before. */
  lemma AnalysisOutcome(s: AppState, run: Service.Run)
    requires run.progress != []
    ensures var t := Run(s, AnalysisEvents(run));
            && (run.outcome.Ok? ==> t == s.(currentReport := Some(run.outcome.value), status := Completed,
                                             activeTab := "dashboard",
                                             progressMessage := run.progress[|run.progress| - 1]))
            && (run.outcome.Err? ==> t == s.(status := Failed, progressMessage := FailedMessage,
                                              pendingTimers := s.pendingTimers + 1))
  {
    var last := [if run.outcome.Ok? then Success(run.outcome.value) else Failure];
    var es := AnalysisEvents(run);
    assert es == [Submit] + (ProgressEvents(run.progress) + last);
    RunAppend(s, [Submit], ProgressEvents(run.progress) + last);
    var s1 := Run(s, [Submit]);
    assert s1 == Step(s, Submit);
    RunAppend(s1, ProgressEvents(run.progress), last);
    LastProgressWins(s1, run.progress);
  }

  /** The whole `handleStartAnalysis` against `generateAnalysis`, whatever the SDK call
      yields: the shell ends in COMPLETED exactly when generation yields a report, and in
      FAILED otherwise. */
  lemma StartAnalysisEnds(s: AppState, answer: Service.SdkOutcome, primaryUrl: string,
                          competitors: seq<string>, parse: string -> Option<Value>,
                          id: string, timestamp: string)
    ensures var run := Service.Respond(answer, primaryUrl, competitors, parse, id, timestamp);
            var t := Run(s, AnalysisEvents(run));
            && (t.status == Completed <==> run.outcome.Ok?)
            && (t.status == Failed <==> run.outcome.Err?)
            && (run.outcome.Ok? ==> t.currentReport == Some(run.outcome.value) && t.progressMessage == Prompt.SynthesisMessage)
            && (run.outcome.Err? ==> t.currentReport == s.currentReport && t.progressMessage == FailedMessage)
  {
    var run := Service.Respond(answer, primaryUrl, competitors, parse, id, timestamp);
    AnalysisOutcome(s, run);
  }

  /** After a failure the timer returns the status to IDLE and changes nothing else. */
  lemma FailureThenTimer(s: AppState)
    ensures Run(s, [Failure, TimerElapsed])
         == s.(status := Idle, progressMessage := FailedMessage)
  {
    var t := Step(s, Failure);
    assert [Failure, TimerElapsed][1..] == [TimerElapsed];
    assert Run(t, [TimerElapsed]) == Step(t, TimerElapsed);
  }

  /** The timer of an earlier failure is never cancelled: if the user resubmits before it
      fires, it sets IDLE while the new job is still crawling, and the progress panel
      gives way to the form. */
  lemma StaleTimerInterruptsNewJob()
    ensures var t := Run(Initial, [Submit, Failure, Submit, TimerElapsed]);
            && t.status == Idle
            && t.progressMessage == StartMessage
            && NewAnalysis.View(t.status, t.progressMessage) == NewAnalysis.EntryForm
  {
    var es := [Submit, Failure, Submit, TimerElapsed];
    assert es[1..] == [Failure, Submit, TimerElapsed];
    assert es[1..][1..] == [Submit, TimerElapsed];
    assert es[1..][1..][1..] == [TimerElapsed];
  }

  /** What the main area shows. */
  datatype Content =
    | NewAnalysisPage(screen: NewAnalysis.Screen)
    | ReportPage(report: JsObject)
    | NoActiveReport
    | DemoNotice
    | UnderConstruction

  /** `renderContent`: dispatch on the active tab. */
  function RenderContent(s: AppState): (c: Content)
    ensures s.activeTab == "new" <==> c.NewAnalysisPage?
    ensures c.NewAnalysisPage? ==> c.screen == NewAnalysis.View(s.status, s.progressMessage)
    ensures c.ReportPage? <==> s.activeTab == "dashboard" && s.currentReport.Some?
    ensures c.ReportPage? ==> c.report == s.currentReport.value
    ensures c.NoActiveReport? <==> s.activeTab == "dashboard" && s.currentReport.None?
    ensures c.DemoNotice? <==> s.activeTab == "report-demo"
    ensures c.UnderConstruction? <==> s.activeTab !in {"new", "dashboard", "report-demo"}
  {
    match s.activeTab
    case "new" => NewAnalysisPage(NewAnalysis.View(s.status, s.progressMessage))
    case "dashboard" => if s.currentReport.Some? then ReportPage(s.currentReport.value) else NoActiveReport
    case "report-demo" => DemoNotice
    case _ => UnderConstruction
  }

  /** A successful analysis lands on the report it produced. */
  lemma SuccessShowsReport(s: AppState, report: JsObject)
    ensures RenderContent(Step(s, Success(report))) == ReportPage(report)
  {
  }

  /** Once a report is stored, later events never remove it: a failed re-run leaves the
      dashboard showing the previous report. */
  lemma {:induction false} ReportPersists(s: AppState, es: seq<Event>)
    requires s.currentReport.Some?
    ensures Run(s, es).currentReport.Some?
    decreases |es|
  {
    if es != [] {
      ReportPersists(Step(s, es[0]), es[1..]);
    }
  }

  /** In every reachable state the form shows its progress panel exactly while the status
      is CRAWLING. */
  lemma LoadingMeansCrawling(es: seq<Event>)
    ensures var t := Run(Initial, es);
            NewAnalysis.View(t.status, t.progressMessage).LoadingPanel? <==> t.status == Crawling
  {
    NeverAnalyzing(Initial, es);
  }
}
