# Lighthouse performance profiler, modelled in Dafny

The profiler is a small Node.js command-line tool. It reads a URL, a run count
and an emulator name from the command line. It then runs that many Lighthouse
performance audits one after another, each against a freshly launched
headless Chrome. For each run it collects seven audit values and the
performance score into eight series. A `TimeObserver` marks the start of each
run and measures its duration through Node's `perf_hooks`.

This project models two parts of the tool:

- **Argument handling and the run loop** (`app.js`).
  - `parseArgs` fills in the default for each missing position. A supplied run
    count goes through JavaScript's `parseInt`, which is modelled as ECMAScript
    defines it: leading white space, a sign, a `0x` prefix, the longest digit
    prefix, and NaN as `None`.
  - The loop condition `i < runs` is false when `runs` is NaN.
  - `profile`'s loop is an imperative method, `Profiling.Profile`, whose loop
    invariant ties its state to the specification function
    `Profiling.Simulate`.
  - The loop body is `Profiling.ProfileRun`. It marks the run start, launches
    Chrome, builds the options and picks the config, audits, pushes the eight
    values, kills Chrome and measures the run.
  - Chrome and Lighthouse are outside the model. An `Env` value says, for run
    `k`, whether `chromeLauncher.launch` returns a port or throws, and whether
    `lighthouse(url, options, config)` returns a report or throws.
  - The side effects are recorded as a trace of `Event`s: mark, launch, audit,
    kill and measure, each tagged with its run number.
- **The `TimeObserver` class** (`utils/time-observer.js`).
  - It is a Dafny class with the fields `measurements` and `isObserving`, plus
    a ghost trace `forwarded`. The trace records the calls made on the
    PerformanceObserver (subscribe, unsubscribe) and on `performance` (mark,
    measure).
  - Its invariant says three things. `measurements` stays empty. Subscribe and
    unsubscribe calls alternate, starting with subscribe. `isObserving` is
    exactly whether the observer is subscribed.

`app.js` has no `try`/`finally`. An exception from `chromeLauncher.launch` or
from `lighthouse` ends the loop, and `profile`'s promise rejects. If the audit
threw, the Chrome launched for that run is never killed. The model follows the
code here. It proves that every browser is killed two steps after its launch,
except the browser of a run whose audit threw, which is never killed
(`SessionProperties.ReleaseUnlessAuditThrew`). Nothing in `app.js` releases
the browser on that path, and the model does not claim it does.

Files:

- `wrappers.dfy` holds `Option`.
- `js_numbers.dfy` holds `parseInt`, the decimal form of a number, and `<`
  against a number that may be NaN.
- `time_observer.dfy` holds the `TimeObserver` class and the pure state
  functions that specify it.
- `app.dfy` holds `parseArgs`, the request and config choice, the loop body and
  loop as methods, and their specification `Simulate`.
- `app_properties.dfy` holds the lemmas about `Simulate`.

## Model

| member | source | states |
|---|---|---|
| Profiling.ParseArgs | app.js:13-20 | the URL is `argv[2]` if present, else `"https://example.com"`; runs is `parseInt(argv[3])` if present, else 1; the emulator is `argv[4]` if present, else `"desktop"`; with no arguments the result is exactly those three defaults |
| SessionProperties.DecimalRunCount | app.js:14-17 | a run count given as a decimal numeral parses to that number, and the loop then runs that many times |
| JsNumbers.ParseIntDecimal | app.js:17 | `parseInt` of a decimal numeral, optionally followed by a non-digit, is the numeral's value; only after the numeral `0` is a following `x`/`X` excluded, as it makes the hex prefix |
| JsNumbers.ParseIntSkipsWhiteSpace | app.js:17 | leading white space does not change the result of `parseInt` |
| JsNumbers.ParseIntNegative | app.js:17 | a leading `-` gives a number exactly when the rest does, and negates it |
| JsNumbers.ParseIntNoDigits | app.js:17 | a string that contains no decimal digit gives NaN |
| JsNumbers.TrimStart | app.js:17 | `parseInt` removes exactly the leading white space: the result is a suffix, everything removed is white space, and what remains does not start with white space |
| JsNumbers.DigitRun | app.js:17 | the digits `parseInt` reads are the longest prefix of digits of the radix |
| JsNumbers.Decimal | app.js:75 | the text of `i + 1` in the label `Run ${i + 1}` is non-empty, all digits, and has no leading zero |
| JsNumbers.DecimalValue | app.js:75 | reading that text back as decimal digits gives the number |
| JsNumbers.LessThan | app.js:41 | `i < runs` holds exactly when runs is a number greater than `i`; it is false when runs is NaN |
| Profiling.IterationCount | app.js:41 | the loop condition holds exactly for `i` below the count; the count is `runs` when positive, and it is 0 when runs is not positive or is NaN |
| Profiling.ConfigFor | app.js:51 | the config is the desktop config exactly when the emulator is `"desktop"`, and `null` otherwise |
| Profiling.RequestFor | app.js:45-52 | the audit gets the run's URL, log level `"error"`, only the `"performance"` category, the port of the browser launched in this run, and the config that `ConfigFor` chooses |
| Profiling.ProfileRun | app.js:42-75 | one pass of the loop body produces exactly the result and events of `Iteration`; it pushes that run's report onto the series only if the audit returned; the time observer stays valid, its fields are unchanged, and it forwards the mark and, for a finished run, the measure |
| Profiling.FinishRun | app.js:64-75 | the eight pushes of a run whose audit returned; then the kill of the browser on the run's own port and the measure of `Run ${k + 1}` from `"run_start"`, recorded in that order; the measure is the only call forwarded to the time observer, which stays valid |
| Profiling.Profile | app.js:22-76 | the loop leaves exactly the outcome and trace of `Simulate` for `IterationCount(runs)` iterations; the observer is subscribed once and stays valid; forwarded calls match the trace |
| Profiling.Start | app.js:8-11 | the script creates a time observer, parses `argv`, and profiles with the parsed values: the result is `Session(ParseArgs(argv), env)` |
| Profiling.AbortIsFinal | app.js:41-76 | once a run has thrown, later iterations change neither the outcome nor the trace |
| Profiling.IterationForwards | app.js:42-75 | the events of one pass of the loop body stand for exactly the calls it forwards to the time observer: the mark of `"run_start"`, then, when the pass reaches its end, the measure of `Run ${k + 1}` from that mark |
| Profiling.SessionAborts | app.js:41-76 | when run `k` throws after `k` completed runs, the session ends there, whatever the run count: the outcome is the abort of run `k` and the trace stops with that run's partial pass |
| SessionProperties.FailFast | app.js:41-76 | the session completes exactly when every run finishes; otherwise it stops at a run that threw, and all earlier runs finished |
| SessionProperties.SeriesInRunOrder | app.js:32-71 | after `n` completed runs each of the eight series has `n` entries; entry `k` of each is the matching value of run `k`'s report, and entry `k` of the performance series is run `k`'s score times 100 |
| SessionProperties.RecordedPushed | app.js:64-71 | the eight pushes add the run's values as the next entry and leave earlier entries unchanged |
| SessionProperties.SessionSeries | app.js:10-41 | a completed session has `IterationCount(runs)` entries per series; no run count means one run; a run count that is not positive or is NaN gives no events and empty series |
| SessionProperties.Layout | app.js:41-76 | each finished run leaves mark, launch, audit, kill and measure, in run order, on the port of its own launch; a run that threw leaves only its mark (launch threw) or its mark, launch and audit (audit threw), at the end of the trace |
| SessionProperties.SlotsInOrder | app.js:41-76 | the trace is mark, launch, audit, kill, measure of run 0, then of run 1, and so on, cut short after a throw: the event at position `j` is step `j % 5` of run `j / 5` |
| SessionProperties.KillPrecedesNextLaunch | app.js:43-73 | before the browser of run `k + 1` is launched, run `k`'s browser was launched and then killed on the same port |
| SessionProperties.AuditUsesLaunchedBrowser | app.js:43-52 | every audit directly follows the launch of the same run, and its request uses that browser's port |
| SessionProperties.ReleaseUnlessAuditThrew | app.js:52-73 | a launched browser is killed two events later, unless its run's audit threw; then the trace ends right after the audit and that browser is never killed |
| SessionProperties.Located | app.js:41-76 | the five positions of run `r` hold that run's complete pass, or the partial pass of the run that threw |
| TimeObservers.TimeObserver.constructor | utils/time-observer.js:4-13 | a new observer is not observing, has no measurements, and has forwarded nothing |
| TimeObservers.TimeObserver.Observe | utils/time-observer.js:15-21 | subscribes and sets `isObserving` only when it was false; the invariant is kept |
| TimeObservers.TimeObserver.Disconnect | utils/time-observer.js:23-29 | unsubscribes and clears `isObserving` only when it was true; the invariant is kept |
| TimeObservers.TimeObserver.Mark | utils/time-observer.js:31-33 | forwards `performance.mark(name)` and changes no field |
| TimeObservers.TimeObserver.Measure | utils/time-observer.js:35-43 | forwards a two-argument measure for two arguments and a three-argument measure for three, nothing otherwise; no field changes |
| TimeObservers.ObserveIdempotent | utils/time-observer.js:15-21 | a second `observe()` changes nothing, so two calls subscribe at most once |
| TimeObservers.DisconnectIdempotent | utils/time-observer.js:23-29 | a second `disconnect()` changes nothing, so two calls unsubscribe at most once |
| TimeObservers.MeasureForwards | utils/time-observer.js:35-43 | `measure` forwards `(a0, a1)` for two arguments and `(a0, a1, a2)` for three; for any other count it forwards nothing; it never changes `isObserving` or `measurements` |
| TimeObservers.ApplyPreservesConsistent | utils/time-observer.js:15-43 | every public method keeps the invariant |
| TimeObservers.ReplayAlternates | utils/time-observer.js:15-29 | in a trace with no redundant subscribe or unsubscribe, the subscription state is the last toggle, toggles alternate starting with subscribe, and the observer is subscribed exactly when the number of toggles is odd |
| TimeObservers.RunConsistent | utils/time-observer.js:5-43 | across any sequence of calls on a fresh TimeObserver, `measurements` stays empty, toggles alternate, and `isObserving` equals whether the observer is subscribed |

## Left out

- The summary after the loop (app.js:79-89): `median` lives in `utils/median`, which is not part of this model; `Math.round` and the printed text are left out too.
- Console output and `chalk` colouring (app.js:23-29, utils/time-observer.js:11) are I/O.
- The PerformanceObserver callback and the timing behind `performance.mark`/`measure` (utils/time-observer.js:8-12) are wall-clock instrumentation. The model records only which calls are forwarded. The `observer` field is represented by that trace.
- `chromeLauncher.launch`, `lighthouse` and `chrome.kill` are foreign, asynchronous calls. They are the `Env` oracles and trace events. `chrome.kill()` is taken to return normally, and the `--headless` flag is not modelled.
- A report that lacks one of the seven audits makes the destructuring at app.js:54-62 throw before any push or kill. The model counts this as a throwing audit (`AuditThrew`).
- Audit values and the score are `real`. JavaScript floating point, a `null` score (which `* 100` turns into 0) and missing `numericValue`s are not modelled.
- `parseInt` works on unbounded integers. The rounding of numerals beyond 2^53 to the nearest double is not modelled.
- lighthouse-config/desktop-config.js: only `extends` and `settings.formFactor` are part of the config value. The throttling, screen emulation and user agent come from `./constants`, which is not part of this model.
- `async`/`await`: the loop is strictly sequential, so each `await` is an ordinary call; the unhandled rejection of `profile`'s promise is the `Aborted` outcome.
- `TimeObserver.disconnect` is never called by `app.js`. It is modelled in the class, but it does not appear in the session.
