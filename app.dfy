/**
 * app.js: read the target URL, the number of runs and the emulator from the
 * command line, then run that many Lighthouse performance audits one after
 * another, each in a freshly launched headless Chrome, and collect eight
 * metric series, one entry per run.
 *
 * Chrome and Lighthouse are outside the model. An `Env` gives, for the `k`-th
 * run, what `chromeLauncher.launch` yields (a port, or a throw) and what
 * `lighthouse(url, options, config)` yields (a report, or a throw). The
 * side effects of a session are recorded as a trace of `Event`s.
 */
module Profiling {
  import opened Wrappers
  import opened JsNumbers
  import TimeObservers

  const DefaultUrl: string := "https://example.com"
  const DefaultEmulator: string := "desktop"
  const RunStartMark: string := "run_start"

  /** What `parseArgs` returns; `runs == None` stands for NaN. */
  datatype Args = Args(url: string, runs: Option<int>, emulator: string)

  /**
   * `parseArgs()`: `argv` is `process.argv`, whose first two entries are the
   * node binary and the script. A missing position takes its default; a
   * supplied run count (always a string) goes through `parseInt`.
   */
  function ParseArgs(argv: seq<string>): (r: Args)
    ensures r.url == (if |argv| > 2 then argv[2] else DefaultUrl)
    ensures r.runs == (if |argv| > 3 then ParseInt(argv[3]) else Some(1))
    ensures r.emulator == (if |argv| > 4 then argv[4] else DefaultEmulator)
    ensures |argv| <= 2 ==> r == Args("https://example.com", Some(1), "desktop")
  {
    var args := if |argv| > 2 then argv[2..] else [];
    var url := if |args| > 0 then args[0] else DefaultUrl;
    var runs := if |args| > 1 then ParseInt(args[1]) else Some(1);
    var emulator := if |args| > 2 then args[2] else DefaultEmulator;
    Args(url, runs, emulator)
  }

  /** How many times `for (let i = 0; i < runs; i++)` runs its body. */
  function IterationCount(runs: Option<int>): (n: nat)
    ensures forall i: nat {:trigger LessThan(i, runs)} :: LessThan(i, runs) <==> i < n
    ensures runs.Some? && runs.value > 0 ==> n == runs.value
    ensures n == 0 <==> (runs == None || runs.value <= 0)
  {
    match runs
    case None => 0
    case Some(v) => if v > 0 then v else 0
  }

  /** The part of lighthouse-config/desktop-config.js that is visible; its throttling, screen and user-agent settings are not modelled. */
  datatype Config = Config(baseConfig: string, formFactor: string)  // `extends`, `settings.formFactor`

  const DesktopConfig := Config("lighthouse:default", "desktop")

  /** `emulator === "desktop" ? desktopConfig : null`. */
  function ConfigFor(emulator: string): (r: Option<Config>)
    ensures r.Some? <==> emulator == "desktop"
    ensures r.Some? ==> r.value == DesktopConfig
  {
    if emulator == "desktop" then Some(DesktopConfig) else None
  }

  /** The `options` object handed to Lighthouse. */
  datatype Options = Options(logLevel: string, onlyCategories: seq<string>, port: int)

  /** The arguments of one `lighthouse(url, options, config)` call. */
  datatype Request = Request(url: string, options: Options, config: Option<Config>)

  /** The call made in a run whose Chrome listens on `port`. */
  function RequestFor(url: string, emulator: string, port: int): (r: Request)
    ensures r.url == url && r.options.port == port
    ensures r.options.logLevel == "error" && r.options.onlyCategories == ["performance"]
    ensures r.config == ConfigFor(emulator)
  {
    Request(url, Options("error", ["performance"], port), ConfigFor(emulator))
  }

  /**
   * The seven `numericValue`s read from `runnerResult.lhr.audits` and the
   * performance category score, a fraction between 0 and 1.
   */
  datatype Report = Report(
    speedIndex: real,             // "speed-index"
    totalBlockingTime: real,      // "total-blocking-time"
    firstContentfulPaint: real,   // "first-contentful-paint"
    cumulativeLayoutShift: real,  // "cumulative-layout-shift"
    largestContentfulPaint: real, // "largest-contentful-paint"
    interactive: real,            // "interactive"
    redirects: real,              // "redirects"
    performanceScore: real)       // categories.performance.score

  datatype LaunchResult = Launched(port: int) | LaunchThrew

  /** What the audit of one run yields; `AuditThrew` also covers a report that lacks one of the seven audits. */
  datatype AuditResult = Returned(report: Report) | AuditThrew

  /** The behaviour of Chrome and Lighthouse, by run number. */
  datatype Env = Env(launch: nat -> LaunchResult, lighthouse: (nat, Request) -> AuditResult)

  /** A side effect of the session, tagged with its zero-based run number. */
  datatype Event =
    | Mark(run: nat)                     // timeObserver.mark("run_start")
    | Launch(run: nat, port: int)        // chromeLauncher.launch returned
    | Audit(run: nat, request: Request)  // lighthouse was called
    | Kill(run: nat, port: int)          // chrome.kill()
    | Measure(run: nat)                  // timeObserver.measure(`Run ${run + 1}`, "run_start")

  /** The eight arrays `profile` pushes to. */
  datatype Series = Series(
    fcp: seq<real>, lcp: seq<real>, tbt: seq<real>, speedIndex: seq<real>,
    cls: seq<real>, tti: seq<real>, redirects: seq<real>, performance: seq<real>)

  const NoSeries := Series([], [], [], [], [], [], [], [])

  /** The eight pushes of one run, in the order of app.js. */
  function Pushed(s: Series, r: Report): Series {
    Series(
      s.fcp + [r.firstContentfulPaint], s.lcp + [r.largestContentfulPaint],
      s.tbt + [r.totalBlockingTime], s.speedIndex + [r.speedIndex],
      s.cls + [r.cumulativeLayoutShift], s.tti + [r.interactive],
      s.redirects + [r.redirects], s.performance + [r.performanceScore * 100.0])
  }

  datatype Failure = LaunchFailed | AuditFailed

  /** How `profile` ends: all series filled, or the promise rejected in run `run`. */
  datatype Outcome = Completed(series: Series) | Aborted(run: nat, failure: Failure)

  datatype RunResult = Finished(report: Report) | Threw(failure: Failure)

  datatype Step = Step(result: RunResult, events: seq<Event>)

  /** The loop body for run `k`; with no `try`, a throwing audit leaves the browser running. */
  function Iteration(url: string, emulator: string, env: Env, k: nat): Step {
    match env.launch(k)
    case LaunchThrew => Step(Threw(LaunchFailed), [Mark(k)])
    case Launched(port) =>
      var request := RequestFor(url, emulator, port);
      match env.lighthouse(k, request)
      case AuditThrew => Step(Threw(AuditFailed), [Mark(k), Launch(k, port), Audit(k, request)])
      case Returned(report) =>
        Step(Finished(report), [Mark(k), Launch(k, port), Audit(k, request), Kill(k, port), Measure(k)])
  }

  datatype SessionState = SessionState(outcome: Outcome, events: seq<Event>)

  /** The first `n` iterations of the loop, stopping at the first throw. */
  function Simulate(url: string, emulator: string, env: Env, n: nat): SessionState {
    if n == 0 then SessionState(Completed(NoSeries), [])
    else
      var prior := Simulate(url, emulator, env, n - 1);
      if prior.outcome.Aborted? then prior
      else
        var step := Iteration(url, emulator, env, n - 1);
        match step.result
        case Finished(report) => SessionState(Completed(Pushed(prior.outcome.series, report)), prior.events + step.events)
        case Threw(failure) => SessionState(Aborted(n - 1, failure), prior.events + step.events)
  }

  /** The whole session that `profile(url, runs, emulator)` runs. */
  function Session(args: Args, env: Env): SessionState {
    Simulate(args.url, args.emulator, env, IterationCount(args.runs))
  }

  /** Once a run has thrown, later iterations change nothing. */
  lemma {:induction false} AbortIsFinal(url: string, emulator: string, env: Env, m: nat, n: nat)
    requires m <= n
    requires Simulate(url, emulator, env, m).outcome.Aborted?
    ensures Simulate(url, emulator, env, n) == Simulate(url, emulator, env, m)
  {
    if m < n {
      var k := n - 1;
      AbortIsFinal(url, emulator, env, m, k);
    }
  }

  /** One more iteration after `k` completed ones appends its events and, if it finished, its pushes. */
  lemma SimulateStep(url: string, emulator: string, env: Env, k: nat, series: Series, events: seq<Event>,
                     result: RunResult, more: seq<Event>)
    requires Simulate(url, emulator, env, k) == SessionState(Completed(series), events)
    requires Iteration(url, emulator, env, k) == Step(result, more)
    ensures result.Finished? ==>
      Simulate(url, emulator, env, k + 1) == SessionState(Completed(Pushed(series, result.report)), events + more)
    ensures result.Threw? ==>
      Simulate(url, emulator, env, k + 1) == SessionState(Aborted(k, result.failure), events + more)
  {
  }

  /** A run that throws ends the session with its own outcome, however many runs were asked for. */
  lemma SessionAborts(url: string, emulator: string, env: Env, k: nat, n: nat, series: Series, events: seq<Event>,
                      failure: Failure, more: seq<Event>)
    requires k < n
    requires Simulate(url, emulator, env, k) == SessionState(Completed(series), events)
    requires Iteration(url, emulator, env, k) == Step(Threw(failure), more)
    ensures Simulate(url, emulator, env, n) == SessionState(Aborted(k, failure), events + more)
  {
    SimulateStep(url, emulator, env, k, series, events, Threw(failure), more);
    AbortIsFinal(url, emulator, env, k + 1, n);
  }

  /** The label `Run ${k + 1}` given to the measure of run `k`. */
  function RunLabel(k: nat): string {
    "Run " + Decimal(k + 1)
  }

  /** What the time observer forwards to `performance` for an event, if anything. */
  function PerfCallsFor(e: Event): seq<TimeObservers.PerfCall> {
    match e
    case Mark(_) => [TimeObservers.PerfMark(RunStartMark)]
    case Measure(k) => [TimeObservers.PerfMeasure(RunLabel(k), RunStartMark)]
    case _ => []
  }

  /** What the time observer forwards to `performance` for a trace of events. */
  function PerfCalls(events: seq<Event>): seq<TimeObservers.PerfCall> {
    if events == [] then [] else PerfCalls(events[..|events| - 1]) + PerfCallsFor(events[|events| - 1])
  }

  lemma PerfCallsAppended(events: seq<Event>, e: Event)
    ensures PerfCalls(events + [e]) == PerfCalls(events) + PerfCallsFor(e)
  {
    assert (events + [e])[..|events|] == events;
  }

  lemma {:induction false} PerfCallsConcat(events: seq<Event>, more: seq<Event>)
    ensures PerfCalls(events + more) == PerfCalls(events) + PerfCalls(more)
  {
    if more == [] {
      assert events + more == events;
    } else {
      var front := more[..|more| - 1];
      var e := more[|more| - 1];
      assert events + more == (events + front) + [e];
      assert more == front + [e];
      PerfCallsConcat(events, front);
      PerfCallsAppended(events + front, e);
      PerfCallsAppended(front, e);
    }
  }

  /** What one pass of the loop body forwards: the mark, and the measure when the pass reaches its end. */
  function ForwardedBy(result: RunResult, k: nat): seq<TimeObservers.PerfCall> {
    [TimeObservers.PerfMark(RunStartMark)] +
    (if result.Finished? then [TimeObservers.PerfMeasure(RunLabel(k), RunStartMark)] else [])
  }

  /** A pass that stops at the launch forwards only its mark. */
  lemma ForwardsLaunchThrew(k: nat)
    ensures PerfCalls([Mark(k)]) == [TimeObservers.PerfMark(RunStartMark)]
  {
    PerfCallsAppended([], Mark(k));
    assert [Mark(k)] == [] + [Mark(k)];
  }

  /** A pass that stops at the audit forwards only its mark. */
  lemma ForwardsAuditThrew(k: nat, port: int, request: Request)
    ensures PerfCalls([Mark(k), Launch(k, port), Audit(k, request)]) == [TimeObservers.PerfMark(RunStartMark)]
  {
    var e2 := [Mark(k), Launch(k, port)];
    ForwardsLaunchThrew(k);
    PerfCallsAppended([Mark(k)], Launch(k, port));
    assert e2 == [Mark(k)] + [Launch(k, port)];
    PerfCallsAppended(e2, Audit(k, request));
    assert [Mark(k), Launch(k, port), Audit(k, request)] == e2 + [Audit(k, request)];
  }

  /** A pass that reaches its end forwards its mark and its measure. */
  lemma ForwardsFinished(k: nat, port: int, request: Request)
    ensures PerfCalls([Mark(k), Launch(k, port), Audit(k, request), Kill(k, port), Measure(k)]) ==
      [TimeObservers.PerfMark(RunStartMark), TimeObservers.PerfMeasure(RunLabel(k), RunStartMark)]
  {
    var e3 := [Mark(k), Launch(k, port), Audit(k, request)];
    var e4 := [Mark(k), Launch(k, port), Audit(k, request), Kill(k, port)];
    ForwardsAuditThrew(k, port, request);
    PerfCallsAppended(e3, Kill(k, port));
    assert e4 == e3 + [Kill(k, port)];
    PerfCallsAppended(e4, Measure(k));
    assert [Mark(k), Launch(k, port), Audit(k, request), Kill(k, port), Measure(k)] == e4 + [Measure(k)];
  }

  /** The events of run `k` stand for exactly the calls its pass forwards to the time observer. */
  lemma IterationForwards(url: string, emulator: string, env: Env, k: nat)
    ensures PerfCalls(Iteration(url, emulator, env, k).events) == ForwardedBy(Iteration(url, emulator, env, k).result, k)
  {
    match env.launch(k)
    case LaunchThrew =>
      ForwardsLaunchThrew(k);
    case Launched(port) =>
      var request := RequestFor(url, emulator, port);
      match env.lighthouse(k, request)
      case AuditThrew =>
        ForwardsAuditThrew(k, port, request);
      case Returned(_) =>
        ForwardsFinished(k, port, request);
  }

  /** The forwarded calls of one more pass of the loop body extend those of the passes before. */
  lemma ForwardedExtended(base: seq<TimeObservers.PerfCall>, events: seq<Event>, more: seq<Event>,
                          before: seq<TimeObservers.PerfCall>, after: seq<TimeObservers.PerfCall>)
    requires before == base + PerfCalls(events)
    requires after == before + PerfCalls(more)
    ensures after == base + PerfCalls(events + more)
  {
    PerfCallsConcat(events, more);
  }

  /**
   * One pass of the loop body of `profile` for run `k`: mark, launch Chrome,
   * build the options and pick the config, audit, push the eight values,
   * kill Chrome, measure. A throw from the launch or the audit ends the pass
   * there, so Chrome is not killed when the audit throws.
   */
  method ProfileRun(timeObserver: TimeObservers.TimeObserver, url: string, emulator: string, env: Env, k: nat, series: Series)
    returns (result: RunResult, pushed: Series, stepEvents: seq<Event>)
    requires timeObserver.Valid()
    modifies timeObserver
    ensures Step(result, stepEvents) == Iteration(url, emulator, env, k)
    ensures pushed == if result.Finished? then Pushed(series, result.report) else series
    ensures timeObserver.Valid()
    ensures timeObserver.isObserving == old(timeObserver.isObserving)
    ensures timeObserver.measurements == old(timeObserver.measurements)
    ensures timeObserver.forwarded == old(timeObserver.forwarded) + ForwardedBy(result, k)
  {
    pushed := series;
    timeObserver.Mark(RunStartMark);

    var chrome := env.launch(k);
    if chrome.LaunchThrew? {
      result := Threw(LaunchFailed);
      stepEvents := [Mark(k)];
      return;
    }
    var port := chrome.port;

    var options := Options("error", ["performance"], port);
    var config := if emulator == "desktop" then Some(DesktopConfig) else None;
    var request := Request(url, options, config);
    assert request == RequestFor(url, emulator, port);
    var runnerResult := env.lighthouse(k, request);
    if runnerResult.AuditThrew? {
      result := Threw(AuditFailed);
      stepEvents := [Mark(k), Launch(k, port), Audit(k, request)];
      return;
    }

    var report := runnerResult.report;
    var tail;
    pushed, tail := FinishRun(timeObserver, k, port, report, series);
    result := Finished(report);
    stepEvents := [Mark(k), Launch(k, port), Audit(k, request)] + tail;
    assert stepEvents == [Mark(k), Launch(k, port), Audit(k, request), Kill(k, port), Measure(k)];
  }

  /**
   * The end of the loop body of a run whose audit returned: push the eight
   * values, kill the Chrome on `port`, measure `Run ${k + 1}` from the
   * "run_start" mark; `tail` records the kill and the measure in that order.
   */
  method FinishRun(timeObserver: TimeObservers.TimeObserver, k: nat, port: int, report: Report, series: Series)
    returns (pushed: Series, tail: seq<Event>)
    requires timeObserver.Valid()
    modifies timeObserver
    ensures pushed == Pushed(series, report)
    ensures tail == [Kill(k, port), Measure(k)]
    ensures timeObserver.Valid()
    ensures timeObserver.isObserving == old(timeObserver.isObserving)
    ensures timeObserver.measurements == old(timeObserver.measurements)
    ensures timeObserver.forwarded == old(timeObserver.forwarded) + [TimeObservers.PerfMeasure(RunLabel(k), RunStartMark)]
  {
    pushed := Pushed(series, report);
    tail := [Kill(k, port)];
    timeObserver.Measure([RunLabel(k), RunStartMark]);
    tail := tail + [Measure(k)];
  }

  /**
   * `profile(url, runs, emulator)`: subscribe the time observer, then run the
   * loop body `runs` times. A throw ends the loop and the promise rejects, so
   * the series are never summarised.
   */
  method Profile(timeObserver: TimeObservers.TimeObserver, url: string, runs: Option<int>, emulator: string, env: Env)
    returns (outcome: Outcome, events: seq<Event>)
    requires timeObserver.Valid()
    modifies timeObserver
    ensures SessionState(outcome, events) == Simulate(url, emulator, env, IterationCount(runs))
    ensures timeObserver.Valid() && timeObserver.isObserving
    ensures timeObserver.measurements == old(timeObserver.measurements)
    ensures timeObserver.forwarded == TimeObservers.Observed(old(timeObserver.State())).forwarded + PerfCalls(events)
  {
    timeObserver.Observe();
    ghost var observed := timeObserver.forwarded;
    var series := NoSeries;
    events := [];
    ghost var n := IterationCount(runs);
    var i := 0;
    while LessThan(i, runs)
      invariant 0 <= i <= n
      invariant Simulate(url, emulator, env, i) == SessionState(Completed(series), events)
      invariant timeObserver.Valid() && timeObserver.isObserving
      invariant timeObserver.measurements == old(timeObserver.measurements)
      invariant timeObserver.forwarded == observed + PerfCalls(events)
      decreases n - i
    {
      ghost var before := timeObserver.forwarded;
      var result, pushed, stepEvents := ProfileRun(timeObserver, url, emulator, env, i, series);
      IterationForwards(url, emulator, env, i);
      ForwardedExtended(observed, events, stepEvents, before, timeObserver.forwarded);
      if result.Threw? {
        SessionAborts(url, emulator, env, i, n, series, events, result.failure, stepEvents);
        outcome := Aborted(i, result.failure);
        events := events + stepEvents;
        return;
      }
      SimulateStep(url, emulator, env, i, series, events, result, stepEvents);
      events := events + stepEvents;
      series := pushed;
      i := i + 1;
    }
    assert i == n;
    outcome := Completed(series);
  }

  /** The top level of app.js: create the time observer, parse the arguments, profile. */
  method Start(argv: seq<string>, env: Env) returns (outcome: Outcome, events: seq<Event>)
    ensures SessionState(outcome, events) == Session(ParseArgs(argv), env)
  {
    var timeObserver := new TimeObservers.TimeObserver();
    var args := ParseArgs(argv);
    outcome, events := Profile(timeObserver, args.url, args.runs, args.emulator, env);
  }
}
