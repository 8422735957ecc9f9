/**
 * Properties of the session that `profile` runs, stated over its
 * specification `Simulate`: a throw ends the session, the series hold one
 * entry per run in run order, the side effects happen run by run in the
 * order mark, launch, audit, kill, measure, and every browser is killed
 * except the one whose audit threw.
 */
module SessionProperties {
  import opened Wrappers
  import opened JsNumbers
  import opened Profiling

  /** How many runs went through the whole loop body. */
  function FinishedRuns(s: SessionState, n: nat): nat {
    match s.outcome
    case Completed(_) => n
    case Aborted(run, _) => run
  }

  /** One unfolding of `Simulate`, split by how the session stood before the next run. */
  lemma SimulateNext(url: string, emulator: string, env: Env, k: nat)
    ensures Simulate(url, emulator, env, k).outcome.Aborted? ==>
      Simulate(url, emulator, env, k + 1) == Simulate(url, emulator, env, k)
    ensures Simulate(url, emulator, env, k).outcome.Completed? ==>
      Simulate(url, emulator, env, k + 1).events ==
        Simulate(url, emulator, env, k).events + Iteration(url, emulator, env, k).events
  {
  }

  /** The five events of run `k`, whose browser listens on `port`, start at index `i`. */
  predicate CompletedRunAt(events: seq<Event>, i: nat, url: string, emulator: string, k: nat, port: int) {
    && i + 5 <= |events|
    && events[i] == Mark(k)
    && events[i + 1] == Launch(k, port)
    && events[i + 2] == Audit(k, RequestFor(url, emulator, port))
    && events[i + 3] == Kill(k, port)
    && events[i + 4] == Measure(k)
  }

  lemma CompletedRunAtAppend(events: seq<Event>, more: seq<Event>, i: nat, url: string, emulator: string, k: nat, port: int)
    requires CompletedRunAt(events, i, url, emulator, k, port)
    ensures CompletedRunAt(events + more, i, url, emulator, k, port)
  {
  }

  /** The events a run that threw leaves behind, by where it threw. */
  predicate ThrownRun(tail: seq<Event>, url: string, emulator: string, env: Env, k: nat, failure: Failure) {
    match failure
    case LaunchFailed => env.launch(k).LaunchThrew? && tail == [Mark(k)]
    case AuditFailed =>
      && env.launch(k).Launched?
      && var port := env.launch(k).port;
      && env.lighthouse(k, RequestFor(url, emulator, port)).AuditThrew?
      && tail == [Mark(k), Launch(k, port), Audit(k, RequestFor(url, emulator, port))]
  }

  /** The first `c` runs finished and left their five events each, from the front of `events`. */
  predicate Blocks(events: seq<Event>, url: string, emulator: string, env: Env, c: nat) {
    && 5 * c <= |events|
    && forall k :: 0 <= k < c ==>
         && Iteration(url, emulator, env, k).result.Finished?
         && env.launch(k).Launched?
         && CompletedRunAt(events, 5 * k, url, emulator, k, env.launch(k).port)
  }

  /** The layout of a session state after `n` iterations of the loop, as `Layout` states it. */
  predicate Laid(s: SessionState, url: string, emulator: string, env: Env, n: nat) {
    var c := FinishedRuns(s, n);
    && c <= n
    && Blocks(s.events, url, emulator, env, c)
    && (s.outcome.Completed? ==> |s.events| == 5 * n)
    && (s.outcome.Aborted? ==>
          && c < n
          && Iteration(url, emulator, env, c).result == Threw(s.outcome.failure)
          && 5 * c < |s.events| <= 5 * c + 3
          && ThrownRun(s.events[5 * c..], url, emulator, env, c, s.outcome.failure))
  }

  /** A run that finishes adds its five events as the next block. */
  lemma BlocksFinished(events: seq<Event>, url: string, emulator: string, env: Env, k: nat)
    requires Blocks(events, url, emulator, env, k) && |events| == 5 * k
    requires Iteration(url, emulator, env, k).result.Finished?
    ensures Blocks(events + Iteration(url, emulator, env, k).events, url, emulator, env, k + 1)
    ensures |events + Iteration(url, emulator, env, k).events| == 5 * k + 5
  {
    var more := Iteration(url, emulator, env, k).events;
    forall j | 0 <= j < k
      ensures CompletedRunAt(events + more, 5 * j, url, emulator, j, env.launch(j).port)
    {
      CompletedRunAtAppend(events, more, 5 * j, url, emulator, j, env.launch(j).port);
    }
  }

  /** A run that throws adds what it did before the throw after the blocks. */
  lemma BlocksThrew(events: seq<Event>, url: string, emulator: string, env: Env, k: nat)
    requires Blocks(events, url, emulator, env, k) && |events| == 5 * k
    requires Iteration(url, emulator, env, k).result.Threw?
    ensures var all := events + Iteration(url, emulator, env, k).events;
      && Blocks(all, url, emulator, env, k)
      && 5 * k < |all| <= 5 * k + 3
      && ThrownRun(all[5 * k..], url, emulator, env, k, Iteration(url, emulator, env, k).result.failure)
  {
    var more := Iteration(url, emulator, env, k).events;
    forall j | 0 <= j < k
      ensures CompletedRunAt(events + more, 5 * j, url, emulator, j, env.launch(j).port)
    {
      CompletedRunAtAppend(events, more, 5 * j, url, emulator, j, env.launch(j).port);
    }
    assert (events + more)[5 * k..] == more;
  }

  /** The loop body after `k` completed runs keeps the layout. */
  lemma LaidAfterCompleted(series: Series, events: seq<Event>, url: string, emulator: string, env: Env, k: nat)
    requires Laid(SessionState(Completed(series), events), url, emulator, env, k)
    ensures var step := Iteration(url, emulator, env, k);
      Laid(match step.result
           case Finished(report) => SessionState(Completed(Pushed(series, report)), events + step.events)
           case Threw(failure) => SessionState(Aborted(k, failure), events + step.events),
           url, emulator, env, k + 1)
  {
    if Iteration(url, emulator, env, k).result.Finished? {
      BlocksFinished(events, url, emulator, env, k);
    } else {
      BlocksThrew(events, url, emulator, env, k);
    }
  }

  /**
   * The layout of the trace: the finished runs leave five events each, in
   * run order, and a run that threw leaves only what happened before the
   * throw, at the end.
   */
  lemma {:induction false} Layout(url: string, emulator: string, env: Env, n: nat)
    ensures Laid(Simulate(url, emulator, env, n), url, emulator, env, n)
  {
    if n > 0 {
      var k := n - 1;
      Layout(url, emulator, env, k);
      SimulateNext(url, emulator, env, k);
      if Simulate(url, emulator, env, k).outcome.Completed? {
        SimulateStep(url, emulator, env, k, Simulate(url, emulator, env, k).outcome.series, Simulate(url, emulator, env, k).events,
          Iteration(url, emulator, env, k).result, Iteration(url, emulator, env, k).events);
        LaidAfterCompleted(Simulate(url, emulator, env, k).outcome.series, Simulate(url, emulator, env, k).events, url, emulator, env, k);
      }
    }
  }

  /** A throw ends the session: it completes exactly when every run finishes, and otherwise stops at the first run that threw. */
  lemma FailFast(url: string, emulator: string, env: Env, n: nat)
    ensures Simulate(url, emulator, env, n).outcome.Completed? <==>
      forall k :: 0 <= k < n ==> Iteration(url, emulator, env, k).result.Finished?
    ensures var o := Simulate(url, emulator, env, n).outcome;
      o.Aborted? ==>
        && o.run < n
        && Iteration(url, emulator, env, o.run).result == Threw(o.failure)
        && forall k :: 0 <= k < o.run ==> Iteration(url, emulator, env, k).result.Finished?
  {
    Layout(url, emulator, env, n);
  }

  /** Every one of the eight series has `n` entries. */
  predicate Lengths(s: Series, n: nat) {
    && |s.fcp| == n && |s.lcp| == n && |s.tbt| == n && |s.speedIndex| == n
    && |s.cls| == n && |s.tti| == n && |s.redirects| == n && |s.performance| == n
  }

  /** Entry `k` of every series is taken from `r`; the performance entry is the score times 100. */
  predicate RecordedAt(s: Series, k: nat, r: Report) {
    && k < |s.fcp| && k < |s.lcp| && k < |s.tbt| && k < |s.speedIndex|
    && k < |s.cls| && k < |s.tti| && k < |s.redirects| && k < |s.performance|
    && s.fcp[k] == r.firstContentfulPaint
    && s.lcp[k] == r.largestContentfulPaint
    && s.tbt[k] == r.totalBlockingTime
    && s.speedIndex[k] == r.speedIndex
    && s.cls[k] == r.cumulativeLayoutShift
    && s.tti[k] == r.interactive
    && s.redirects[k] == r.redirects
    && s.performance[k] == r.performanceScore * 100.0
  }

  /** Runs `0` to `n - 1` all finished, and entry `k` of every series comes from run `k`'s report. */
  predicate AllRecorded(s: Series, url: string, emulator: string, env: Env, n: nat) {
    forall k :: 0 <= k < n ==>
      && Iteration(url, emulator, env, k).result.Finished?
      && RecordedAt(s, k, Iteration(url, emulator, env, k).result.report)
  }

  /** The pushes of run `n` add its report as entry `n` and leave the earlier entries alone. */
  lemma RecordedPushed(s: Series, r: Report, url: string, emulator: string, env: Env, n: nat)
    requires Lengths(s, n) && AllRecorded(s, url, emulator, env, n)
    requires Iteration(url, emulator, env, n).result == Finished(r)
    ensures Lengths(Pushed(s, r), n + 1) && AllRecorded(Pushed(s, r), url, emulator, env, n + 1)
  {
    forall k | 0 <= k < n
      ensures RecordedAt(Pushed(s, r), k, Iteration(url, emulator, env, k).result.report)
    {
      var r0 := Iteration(url, emulator, env, k).result.report;
      assert RecordedAt(s, k, r0);
    }
  }

  /** After `n` completed runs every series has `n` entries, entry `k` coming from run `k`'s report. */
  lemma {:induction false} SeriesInRunOrder(url: string, emulator: string, env: Env, n: nat)
    requires Simulate(url, emulator, env, n).outcome.Completed?
    ensures Lengths(Simulate(url, emulator, env, n).outcome.series, n)
    ensures AllRecorded(Simulate(url, emulator, env, n).outcome.series, url, emulator, env, n)
  {
    if n > 0 {
      var k := n - 1;
      CompletedBefore(url, emulator, env, k);
      SeriesInRunOrder(url, emulator, env, k);
      RecordedPushed(Simulate(url, emulator, env, k).outcome.series, Iteration(url, emulator, env, k).result.report,
        url, emulator, env, k);
    }
  }

  /** A session that completes `n + 1` runs completed the first `n`, and run `n` pushed its report. */
  lemma CompletedBefore(url: string, emulator: string, env: Env, n: nat)
    requires Simulate(url, emulator, env, n + 1).outcome.Completed?
    ensures Simulate(url, emulator, env, n).outcome.Completed?
    ensures Iteration(url, emulator, env, n).result.Finished?
    ensures Simulate(url, emulator, env, n + 1).outcome.series ==
      Pushed(Simulate(url, emulator, env, n).outcome.series, Iteration(url, emulator, env, n).result.report)
  {
  }

  /**
   * Where an event sits in a session that runs to the end: run `k` owns the
   * five positions from `5 * k`, one per step of its loop body.
   */
  function Slot(e: Event): nat {
    match e
    case Mark(k) => 5 * k
    case Launch(k, _) => 5 * k + 1
    case Audit(k, _) => 5 * k + 2
    case Kill(k, _) => 5 * k + 3
    case Measure(k) => 5 * k + 4
  }

  /** Event `j` of `events` sits in slot `from + j`. */
  predicate Slotted(events: seq<Event>, from: nat) {
    forall j :: 0 <= j < |events| ==> Slot(events[j]) == from + j
  }

  /** The events of run `k` fill the slots from `5 * k` on. */
  lemma IterationSlotted(url: string, emulator: string, env: Env, k: nat)
    ensures Slotted(Iteration(url, emulator, env, k).events, 5 * k)
  {
  }

  lemma SlottedAppend(events: seq<Event>, more: seq<Event>, from: nat)
    requires Slotted(events, 0) && |events| == from && Slotted(more, from)
    ensures Slotted(events + more, 0)
  {
    forall j | 0 <= j < |events + more|
      ensures Slot((events + more)[j]) == j
    {
      if j >= |events| {
        assert (events + more)[j] == more[j - |events|];
      }
    }
  }

  /** A session that completes `n` runs leaves five events per run. */
  lemma CompletedLength(url: string, emulator: string, env: Env, n: nat)
    requires Simulate(url, emulator, env, n).outcome.Completed?
    ensures |Simulate(url, emulator, env, n).events| == 5 * n
  {
    Layout(url, emulator, env, n);
  }

  /**
   * The trace is mark, launch, audit, kill, measure of run 0, then of run 1,
   * and so on, cut short after a throw: every event sits in its own slot.
   */
  lemma {:induction false} SlotsInOrder(url: string, emulator: string, env: Env, n: nat)
    ensures Slotted(Simulate(url, emulator, env, n).events, 0)
  {
    if n > 0 {
      var k := n - 1;
      SlotsInOrder(url, emulator, env, k);
      SimulateNext(url, emulator, env, k);
      if Simulate(url, emulator, env, k).outcome.Completed? {
        CompletedLength(url, emulator, env, k);
        IterationSlotted(url, emulator, env, k);
        SlottedAppend(Simulate(url, emulator, env, k).events, Iteration(url, emulator, env, k).events, 5 * k);
      }
    }
  }

  /**
   * The five slots of run `r` hold either its five completed steps, or,
   * when `r` is the run that threw, what it did before the throw.
   */
  lemma Located(url: string, emulator: string, env: Env, n: nat, r: nat)
    requires 5 * r < |Simulate(url, emulator, env, n).events|
    ensures var s := Simulate(url, emulator, env, n);
      || (&& r < FinishedRuns(s, n)
          && env.launch(r).Launched?
          && CompletedRunAt(s.events, 5 * r, url, emulator, r, env.launch(r).port))
      || (&& s.outcome.Aborted?
          && r == s.outcome.run
          && |s.events| <= 5 * r + 3
          && ThrownRun(s.events[5 * r..], url, emulator, env, r, s.outcome.failure))
  {
    Layout(url, emulator, env, n);
  }

  /**
   * Before the browser of run `k + 1` is launched, the browser of run `k` was
   * launched and then killed, on the same port.
   */
  lemma KillPrecedesNextLaunch(url: string, emulator: string, env: Env, n: nat, j: nat)
    requires j < |Simulate(url, emulator, env, n).events|
    requires Simulate(url, emulator, env, n).events[j].Launch?
    requires Simulate(url, emulator, env, n).events[j].run > 0
    ensures var events := Simulate(url, emulator, env, n).events;
      var k := events[j].run - 1;
      && env.launch(k).Launched?
      && 5 * k + 3 < j
      && events[5 * k + 1] == Launch(k, env.launch(k).port)
      && events[5 * k + 3] == Kill(k, env.launch(k).port)
  {
    var events := Simulate(url, emulator, env, n).events;
    SlotsInOrder(url, emulator, env, n);
    assert Slot(events[j]) == j;
    var k := events[j].run - 1;
    Located(url, emulator, env, n, k);
  }

  /**
   * Every audit directly follows the launch of the same run, and its request
   * is the one built for that browser's port.
   */
  lemma AuditUsesLaunchedBrowser(url: string, emulator: string, env: Env, n: nat, j: nat)
    requires j < |Simulate(url, emulator, env, n).events|
    requires Simulate(url, emulator, env, n).events[j].Audit?
    ensures var events := Simulate(url, emulator, env, n).events;
      && 0 < j
      && events[j - 1].Launch?
      && events[j - 1].run == events[j].run
      && events[j].request == RequestFor(url, emulator, events[j - 1].port)
  {
    var s := Simulate(url, emulator, env, n);
    SlotsInOrder(url, emulator, env, n);
    var r := s.events[j].run;
    assert Slot(s.events[j]) == j;
    Located(url, emulator, env, n, r);
    if r >= FinishedRuns(s, n) {
      assert s.events[j] == s.events[5 * r..][2];
      assert s.events[j - 1] == s.events[5 * r..][1];
    }
  }

  /**
   * With no `try`/`finally`, a launched browser is killed two steps later
   * unless its audit threw; then the session ends right after the audit and
   * that browser is never killed.
   */
  lemma ReleaseUnlessAuditThrew(url: string, emulator: string, env: Env, n: nat, j: nat)
    requires j < |Simulate(url, emulator, env, n).events|
    requires Simulate(url, emulator, env, n).events[j].Launch?
    ensures var s := Simulate(url, emulator, env, n);
      var e := s.events[j];
      if s.outcome == Aborted(e.run, AuditFailed) then
        && j + 2 == |s.events|
        && forall i :: 0 <= i < |s.events| ==> s.events[i] != Kill(e.run, e.port)
      else
        && j + 2 < |s.events|
        && s.events[j + 2] == Kill(e.run, e.port)
  {
    var s := Simulate(url, emulator, env, n);
    SlotsInOrder(url, emulator, env, n);
    var r := s.events[j].run;
    assert Slot(s.events[j]) == j;
    Located(url, emulator, env, n, r);
    if r >= FinishedRuns(s, n) {
      assert s.events[j] == s.events[5 * r..][1];
      forall i | 0 <= i < |s.events|
        ensures s.events[i] != Kill(r, s.events[j].port)
      {
        assert Slot(s.events[i]) == i;
      }
    }
  }

  /**
   * The whole run of the script on `argv`: the series of a completed session
   * have one entry per loop iteration, and a run count that is missing
   * stands for one run while a non-positive or unparsable one leaves the
   * session empty.
   */
  lemma SessionSeries(argv: seq<string>, env: Env)
    ensures var args := ParseArgs(argv);
      var s := Session(args, env);
      && (s.outcome.Completed? ==> Lengths(s.outcome.series, IterationCount(args.runs)))
      && (|argv| <= 3 ==> IterationCount(args.runs) == 1)
      && (IterationCount(args.runs) == 0 ==> s == SessionState(Completed(NoSeries), []))
  {
    var args := ParseArgs(argv);
    if Session(args, env).outcome.Completed? {
      SeriesInRunOrder(args.url, args.emulator, env, IterationCount(args.runs));
    }
  }

  /** A run count written as a decimal numeral runs the loop that many times. */
  lemma DecimalRunCount(argv: seq<string>, n: nat)
    requires |argv| > 3 && argv[3] == Decimal(n)
    ensures ParseArgs(argv).runs == Some(n)
    ensures IterationCount(ParseArgs(argv).runs) == n
  {
    ParseIntDecimal(n, []);
    assert Decimal(n) + [] == Decimal(n);
  }
}
