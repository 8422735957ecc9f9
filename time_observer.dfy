/**
 * The `TimeObserver` of utils/time-observer.js: a wrapper around a
 * perf_hooks PerformanceObserver that subscribes it to "measure" entries at
 * most once, unsubscribes it at most once, and forwards marks and measures to
 * `performance`. The observer and `performance` are outside the model; what the
 * class forwards to them is recorded as a trace of `PerfCall`s.
 */
module TimeObservers {
  import opened Wrappers

  /** A call the time observer makes on its PerformanceObserver or on `performance`. */
  datatype PerfCall =
    | Subscribe                    // observer.observe({ entryTypes: ["measure"] })
    | Unsubscribe                  // observer.disconnect()
    | PerfMark(name: string)       // performance.mark(name)
    | PerfMeasure(name: string, startMark: string)
    | PerfMeasureBetween(name: string, startMark: string, endMark: string)

  predicate IsToggle(c: PerfCall) {
    c.Subscribe? || c.Unsubscribe?
  }

  /** The subscribe and unsubscribe calls of a trace, in order. */
  function Toggles(calls: seq<PerfCall>): (t: seq<PerfCall>)
    ensures |t| <= |calls|
  {
    if calls == [] then []
    else
      var last := calls[|calls| - 1];
      Toggles(calls[..|calls| - 1]) + (if IsToggle(last) then [last] else [])
  }

  /** Whether the PerformanceObserver is subscribed after receiving `calls` from a fresh start. */
  function Subscribed(calls: seq<PerfCall>): bool {
    if calls == [] then false
    else
      match calls[|calls| - 1]
      case Subscribe => true
      case Unsubscribe => false
      case _ => Subscribed(calls[..|calls| - 1])
  }

  /** Subscriptions and unsubscriptions alternate, starting with a subscription. */
  predicate Alternating(t: seq<PerfCall>) {
    forall k :: 0 <= k < |t| ==> t[k] == (if k % 2 == 0 then Subscribe else Unsubscribe)
  }

  /**
   * Replays a trace from an unsubscribed observer: the subscription state at
   * the end, or `None` if some call subscribed while subscribed or
   * unsubscribed while unsubscribed.
   */
  function Replay(calls: seq<PerfCall>): Option<bool> {
    if calls == [] then Some(false)
    else
      match Replay(calls[..|calls| - 1])
      case None => None
      case Some(subscribed) =>
        match calls[|calls| - 1]
        case Subscribe => if subscribed then None else Some(true)
        case Unsubscribe => if subscribed then Some(false) else None
        case _ => Some(subscribed)
  }

  /** The fields of a TimeObserver, with the trace of what it has forwarded so far. */
  datatype ObserverState = ObserverState(isObserving: bool, measurements: seq<real>, forwarded: seq<PerfCall>)

  /**
   * The invariant of a TimeObserver: `measurements` is empty, the observer was
   * never subscribed while subscribed nor unsubscribed while unsubscribed, and
   * `isObserving` is the subscription state the trace leads to.
   */
  predicate Consistent(s: ObserverState) {
    s.measurements == [] && Replay(s.forwarded) == Some(s.isObserving)
  }

  /** The state the constructor leaves. */
  const Initial := ObserverState(false, [], [])

  /** `observe()`: subscribe unless already observing. */
  function Observed(s: ObserverState): ObserverState {
    if s.isObserving then s
    else s.(isObserving := true, forwarded := s.forwarded + [Subscribe])
  }

  /** `disconnect()`: unsubscribe unless not observing. */
  function Disconnected(s: ObserverState): ObserverState {
    if s.isObserving then s.(isObserving := false, forwarded := s.forwarded + [Unsubscribe])
    else s
  }

  /** `mark(name)`. */
  function Marked(s: ObserverState, name: string): ObserverState {
    s.(forwarded := s.forwarded + [PerfMark(name)])
  }

  /** `measure(...args)`: forwards two or three arguments; any other count is ignored. */
  function Measured(s: ObserverState, args: seq<string>): ObserverState {
    if |args| == 2 then s.(forwarded := s.forwarded + [PerfMeasure(args[0], args[1])])
    else if |args| == 3 then s.(forwarded := s.forwarded + [PerfMeasureBetween(args[0], args[1], args[2])])
    else s
  }

  /** A call of one of the public methods of a TimeObserver. */
  datatype Command = Observe | Disconnect | Mark(name: string) | Measure(args: seq<string>)

  function Apply(s: ObserverState, c: Command): ObserverState {
    match c
    case Observe => Observed(s)
    case Disconnect => Disconnected(s)
    case Mark(name) => Marked(s, name)
    case Measure(args) => Measured(s, args)
  }

  /** The state after the calls `cmds`, made one after another from `s`. */
  function Run(s: ObserverState, cmds: seq<Command>): ObserverState {
    if cmds == [] then s else Apply(Run(s, cmds[..|cmds| - 1]), cmds[|cmds| - 1])
  }

  lemma RunAppend(s: ObserverState, cmds: seq<Command>, c: Command)
    ensures Run(s, cmds + [c]) == Apply(Run(s, cmds), c)
  {
    assert (cmds + [c])[..|cmds|] == cmds;
  }

  lemma ToggleAppended(calls: seq<PerfCall>, c: PerfCall)
    ensures Toggles(calls + [c]) == Toggles(calls) + (if IsToggle(c) then [c] else [])
    ensures Subscribed(calls + [c]) == (if IsToggle(c) then c == Subscribe else Subscribed(calls))
    ensures !IsToggle(c) ==> Replay(calls + [c]) == Replay(calls)
  {
    assert (calls + [c])[..|calls|] == calls;
  }

  /**
   * A trace that replays without a redundant toggle leaves the observer
   * subscribed exactly as `Replay` says, alternates subscribe, unsubscribe,
   * subscribe, ..., and holds an odd number of toggles exactly when it ends
   * subscribed.
   */
  lemma {:induction false} ReplayAlternates(calls: seq<PerfCall>)
    requires Replay(calls).Some?
    ensures Replay(calls) == Some(Subscribed(calls))
    ensures Alternating(Toggles(calls))
    ensures Subscribed(calls) <==> |Toggles(calls)| % 2 == 1
  {
    if calls != [] {
      var prior := calls[..|calls| - 1];
      var c := calls[|calls| - 1];
      assert calls == prior + [c];
      ReplayAlternates(prior);
      ReplayStep(prior, c);
    }
  }

  /** One more call keeps what `ReplayAlternates` states. */
  lemma ReplayStep(prior: seq<PerfCall>, c: PerfCall)
    requires Replay(prior) == Some(Subscribed(prior))
    requires Alternating(Toggles(prior))
    requires Subscribed(prior) <==> |Toggles(prior)| % 2 == 1
    requires Replay(prior + [c]).Some?
    ensures Replay(prior + [c]) == Some(Subscribed(prior + [c]))
    ensures Alternating(Toggles(prior + [c]))
    ensures Subscribed(prior + [c]) <==> |Toggles(prior + [c])| % 2 == 1
  {
    ToggleAppended(prior, c);
    if IsToggle(c) {
      var t := Toggles(prior);
      assert (prior + [c])[..|prior|] == prior;
      assert c == (if Subscribed(prior) then Unsubscribe else Subscribe);
      assert |t + [c]| % 2 == 1 <==> |t| % 2 == 0;
      AlternatingExtended(t, c);
    }
  }

  /** A toggle of the right kind for its position keeps the toggles alternating. */
  lemma AlternatingExtended(t: seq<PerfCall>, c: PerfCall)
    requires Alternating(t)
    requires c == (if |t| % 2 == 0 then Subscribe else Unsubscribe)
    ensures Alternating(t + [c])
  {
  }

  /** Every public method keeps the invariant. */
  lemma ApplyPreservesConsistent(s: ObserverState, c: Command)
    requires Consistent(s)
    ensures Consistent(Apply(s, c))
  {
    var f := s.forwarded;
    match c
    case Observe =>
      if !s.isObserving {
        assert (f + [Subscribe])[..|f|] == f;
      }
    case Disconnect =>
      if s.isObserving {
        assert (f + [Unsubscribe])[..|f|] == f;
      }
    case Mark(name) =>
      ToggleAppended(f, PerfMark(name));
    case Measure(args) =>
      if |args| == 2 {
        ToggleAppended(f, PerfMeasure(args[0], args[1]));
      } else if |args| == 3 {
        ToggleAppended(f, PerfMeasureBetween(args[0], args[1], args[2]));
      }
  }

  /**
   * Across any sequence of calls on a fresh TimeObserver, `isObserving` is
   * whether the PerformanceObserver is subscribed, subscriptions and
   * unsubscriptions alternate, and `measurements` stays empty.
   */
  lemma {:induction false} RunConsistent(cmds: seq<Command>)
    ensures Consistent(Run(Initial, cmds))
    ensures Run(Initial, cmds).isObserving == Subscribed(Run(Initial, cmds).forwarded)
    ensures Alternating(Toggles(Run(Initial, cmds).forwarded))
  {
    if cmds != [] {
      RunConsistent(cmds[..|cmds| - 1]);
      ApplyPreservesConsistent(Run(Initial, cmds[..|cmds| - 1]), cmds[|cmds| - 1]);
    }
    ReplayAlternates(Run(Initial, cmds).forwarded);
  }

  /** A second `observe()` forwards nothing: two calls subscribe at most once. */
  lemma ObserveIdempotent(s: ObserverState)
    ensures Observed(Observed(s)) == Observed(s)
    ensures Observed(s).isObserving
    ensures Observed(s).forwarded == s.forwarded + (if s.isObserving then [] else [Subscribe])
  {
  }

  /** A second `disconnect()` forwards nothing: two calls unsubscribe at most once. */
  lemma DisconnectIdempotent(s: ObserverState)
    ensures Disconnected(Disconnected(s)) == Disconnected(s)
    ensures !Disconnected(s).isObserving
    ensures Disconnected(s).forwarded == s.forwarded + (if s.isObserving then [Unsubscribe] else [])
  {
  }

  /** `measure` forwards one call exactly for two or three arguments, and nothing else changes. */
  lemma MeasureForwards(s: ObserverState, args: seq<string>)
    ensures Measured(s, args).isObserving == s.isObserving && Measured(s, args).measurements == s.measurements
    ensures |args| == 2 ==> Measured(s, args).forwarded == s.forwarded + [PerfMeasure(args[0], args[1])]
    ensures |args| == 3 ==> Measured(s, args).forwarded == s.forwarded + [PerfMeasureBetween(args[0], args[1], args[2])]
    ensures |args| != 2 && |args| != 3 ==> Measured(s, args) == s
  {
  }

  class TimeObserver {
    var measurements: seq<real>
    var isObserving: bool
    /** What has been forwarded to the PerformanceObserver and to `performance`. */
    ghost var forwarded: seq<PerfCall>

    ghost function State(): ObserverState
      reads this
    {
      ObserverState(isObserving, measurements, forwarded)
    }

    ghost predicate Valid()
      reads this
    {
      Consistent(State())
    }

    constructor ()
      ensures Valid() && State() == Initial
    {
      measurements := [];
      isObserving := false;
      forwarded := [];
    }

    method Observe()
      requires Valid()
      modifies this
      ensures Valid() && State() == Observed(old(State()))
    {
      ApplyPreservesConsistent(State(), Command.Observe);
      if isObserving == false {
        forwarded := forwarded + [Subscribe];
        isObserving := true;
      }
    }

    method Disconnect()
      requires Valid()
      modifies this
      ensures Valid() && State() == Disconnected(old(State()))
    {
      ApplyPreservesConsistent(State(), Command.Disconnect);
      if isObserving == true {
        forwarded := forwarded + [Unsubscribe];
        isObserving := false;
      }
    }

    method Mark(name: string)
      requires Valid()
      modifies this
      ensures Valid() && State() == Marked(old(State()), name)
      ensures isObserving == old(isObserving) && measurements == old(measurements)
      ensures forwarded == old(forwarded) + [PerfMark(name)]
    {
      ApplyPreservesConsistent(State(), Command.Mark(name));
      forwarded := forwarded + [PerfMark(name)];
    }

    method Measure(args: seq<string>)
      requires Valid()
      modifies this
      ensures Valid() && State() == Measured(old(State()), args)
      ensures isObserving == old(isObserving) && measurements == old(measurements)
      ensures |args| == 2 ==> forwarded == old(forwarded) + [PerfMeasure(args[0], args[1])]
    {
      ApplyPreservesConsistent(State(), Command.Measure(args));
      if |args| == 2 {
        forwarded := forwarded + [PerfMeasure(args[0], args[1])];
      } else if |args| == 3 {
        forwarded := forwarded + [PerfMeasureBetween(args[0], args[1], args[2])];
      }
    }
  }
}
