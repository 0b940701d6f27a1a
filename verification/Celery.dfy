/** The signal handlers that turn the runs of a celery task into metrics. */
module Celery {
  import opened Options

  /** The counters that count once per task object. */
  datatype Counter = Success | Failure | Revoked

  datatype Metric = QueueLatency(ms: real) | Retry | Once(counter: Counter) | Run(ms: real)

  /** A signal, with the clock readings its handler makes. */
  datatype Signal =
    | Prerun(eager: bool, enqueued: Option<real>, queueNow: real, runNow: real, startNow: real)
    | Postrun(now: real)
    | Retried
    | Finished(counter: Counter)

  /** The attributes kept on the task object, and the metrics emitted so far. */
  datatype State = State(timestamp: Option<real>, sent: set<Counter>, emitted: seq<Metric>)

  function Emit(s: State, ms: seq<Metric>): State {
    s.(emitted := s.emitted + ms)
  }

  function Waited(enqueued: Option<real>, now: real): seq<Metric> {
    if enqueued.Some? then [QueueLatency((now - enqueued.value) * 1000.0)] else []
  }

  /** What celery 4 would have reported before an eager retry, had it not been nested. */
  function Closed(s: State, eager: bool, now: real): seq<Metric> {
    if s.timestamp.Some? && eager then [Retry, Run((now - s.timestamp.value) * 1000.0)] else []
  }

  function Handle(s: State, signal: Signal): State {
    match signal
    case Prerun(eager, enqueued, queueNow, runNow, startNow) =>
      Emit(s, Waited(enqueued, queueNow) + Closed(s, eager, runNow)).(timestamp := Some(startNow))
    case Postrun(now) =>
      if s.timestamp.Some? then Emit(s, [Run((now - s.timestamp.value) * 1000.0)]).(timestamp := None) else s
    case Retried => Emit(s, [Retry])
    case Finished(c) => if c in s.sent then s else Emit(s, [Once(c)]).(sent := s.sent + {c})
  }

  /** The task object, updated by the handlers. */
  class Task {
    var timestamp: Option<real>
    var sent: set<Counter>
    var emitted: seq<Metric>

    constructor ()
      ensures View() == State(None, {}, [])
    {
      timestamp, sent, emitted := None, {}, [];
    }

    function View(): State
      reads this
    {
      State(timestamp, sent, emitted)
    }

    method SendRunMetric(ts: real, now: real)
      modifies this`emitted
      ensures emitted == old(emitted) + [Run((now - ts) * 1000.0)]
    {
      emitted := emitted + [Run((now - ts) * 1000.0)];
    }

    method TaskRetry()
      modifies this`emitted
      ensures View() == Handle(old(View()), Retried)
    {
      emitted := emitted + [Retry];
    }

    method ProtectedSignal(counter: Counter)
      modifies this
      ensures View() == Handle(old(View()), Finished(counter))
    {
      if counter !in sent {
        emitted := emitted + [Once(counter)];
        sent := sent + {counter};
      }
    }

    method TaskPrerun(eager: bool, enqueued: Option<real>, queueNow: real, runNow: real, startNow: real)
      modifies this
      ensures View() == Handle(old(View()), Prerun(eager, enqueued, queueNow, runNow, startNow))
    {
      if enqueued.Some? {
        emitted := emitted + [QueueLatency((queueNow - enqueued.value) * 1000.0)];
      }
      if timestamp.Some? && eager {
        TaskRetry();
        SendRunMetric(timestamp.value, runNow);
      }
      timestamp := Some(startNow);
    }

    method TaskPostrun(now: real)
      modifies this
      ensures View() == Handle(old(View()), Postrun(now))
    {
      if timestamp.Some? {
        SendRunMetric(timestamp.value, now);
        timestamp := None;
      }
    }
  }

  function HandleAll(s: State, signals: seq<Signal>): State
    decreases |signals|
  {
    if signals == [] then s else HandleAll(Handle(s, signals[0]), signals[1..])
  }

  // ---------- every run is counted

  function Runs(ms: seq<Metric>): nat {
    if ms == [] then 0 else Runs(ms[..|ms| - 1]) + if ms[|ms| - 1].Run? then 1 else 0
  }

  lemma {:induction false} RunsAppend(a: seq<Metric>, b: seq<Metric>)
    ensures Runs(a + b) == Runs(a) + Runs(b)
  {
    if b == [] {
      assert a + b == a;
    } else {
      assert (a + b)[..|a + b| - 1] == a + b[..|b| - 1];
      RunsAppend(a, b[..|b| - 1]);
    }
  }

  function Preruns(signals: seq<Signal>): nat {
    if signals == [] then 0 else (if signals[0].Prerun? then 1 else 0) + Preruns(signals[1..])
  }

  /** Preruns that silently replace a timestamp: those of a task that is not eager and has not had its postrun. */
  function Replaced(s: State, signals: seq<Signal>): nat
    decreases |signals|
  {
    if signals == [] then 0
    else
      (if signals[0].Prerun? && !signals[0].eager && s.timestamp.Some? then 1 else 0)
      + Replaced(Handle(s, signals[0]), signals[1..])
  }

  function Open(s: State): nat {
    if s.timestamp.Some? then 1 else 0
  }

  /** Over any sequence of signals: run metrics, and the run still open, account for every prerun not replaced. */
  lemma {:induction false} RunsBalance(s: State, signals: seq<Signal>)
    ensures var t := HandleAll(s, signals);
            Runs(t.emitted) + Open(t) + Replaced(s, signals) == Runs(s.emitted) + Open(s) + Preruns(signals)
    decreases |signals|
  {
    if signals != [] {
      HandleRuns(s, signals[0]);
      RunsBalance(Handle(s, signals[0]), signals[1..]);
    }
  }

  lemma RunsOne(m: Metric)
    ensures Runs([m]) == if m.Run? then 1 else 0
  {
  }

  lemma PrerunRuns(s: State, signal: Signal)
    requires signal.Prerun?
    ensures Runs(Handle(s, signal).emitted) == Runs(s.emitted) + if signal.eager then Open(s) else 0
  {
    var queued, closed := Waited(signal.enqueued, signal.queueNow), Closed(s, signal.eager, signal.runNow);
    RunsAppend(s.emitted, queued + closed);
    RunsAppend(queued, closed);
    if queued != [] {
      RunsOne(queued[0]);
    }
    if closed != [] {
      RunsAppend([closed[0]], [closed[1]]);
      RunsOne(closed[0]);
      RunsOne(closed[1]);
    }
  }

  /** Signals other than a prerun add one metric at most. */
  lemma EmitRuns(s: State, m: Metric)
    ensures Runs(s.emitted + [m]) == Runs(s.emitted) + if m.Run? then 1 else 0
  {
    RunsAppend(s.emitted, [m]);
    RunsOne(m);
  }

  lemma HandleRuns(s: State, signal: Signal)
    ensures Runs(Handle(s, signal).emitted) + Open(Handle(s, signal))
            == Runs(s.emitted) + Open(s) + (if signal.Prerun? then 1 else 0)
               - (if signal.Prerun? && !signal.eager then Open(s) else 0)
  {
    match signal {
      case Prerun(_, _, _, _, _) =>
        PrerunRuns(s, signal);
      case Postrun(now) =>
        if s.timestamp.Some? {
          EmitRuns(s, Run((now - s.timestamp.value) * 1000.0));
        }
      case Retried =>
        EmitRuns(s, Retry);
      case Finished(c) =>
        EmitRuns(s, Once(c));
    }
  }

  lemma {:induction false} EagerNeverReplaces(s: State, signals: seq<Signal>)
    requires forall i :: 0 <= i < |signals| && signals[i].Prerun? ==> signals[i].eager
    ensures Replaced(s, signals) == 0
    decreases |signals|
  {
    if signals != [] {
      EagerNeverReplaces(Handle(s, signals[0]), signals[1..]);
    }
  }

  /** An eager task, from its first signal on: one run metric per prerun, but for a run still open. */
  lemma EagerRunsBalance(s: State, signals: seq<Signal>)
    requires s.timestamp.None? && s.emitted == []
    requires forall i :: 0 <= i < |signals| && signals[i].Prerun? ==> signals[i].eager
    ensures var t := HandleAll(s, signals);
            Runs(t.emitted) + Open(t) == Preruns(signals)
  {
    RunsBalance(s, signals);
    EagerNeverReplaces(s, signals);
  }

  // ---------- what a run is reported to have taken

  /** Signals other than preruns and postruns leave the timestamp alone. */
  lemma {:induction false} TimestampKept(s: State, signals: seq<Signal>)
    requires forall i :: 0 <= i < |signals| ==> signals[i].Retried? || signals[i].Finished?
    ensures HandleAll(s, signals).timestamp == s.timestamp
    decreases |signals|
  {
    if signals != [] {
      TimestampKept(Handle(s, signals[0]), signals[1..]);
    }
  }

  lemma PostrunReports(s: State, start: real, now: real)
    requires s.timestamp == Some(start)
    ensures Handle(s, Postrun(now)) == State(None, s.sent, s.emitted + [Run((now - start) * 1000.0)])
  {
  }

  /** A prerun starts the clock of its run, nested or not. */
  lemma PrerunStarts(s: State, pre: Signal)
    requires pre.Prerun?
    ensures Handle(s, pre).timestamp == Some(pre.startNow)
  {
  }

  /** A run is reported from the start its prerun noted to its postrun, whatever its retries and outcome. */
  lemma RunTimed(s: State, start: real, meanwhile: seq<Signal>, now: real)
    requires s.timestamp == Some(start)
    requires forall i :: 0 <= i < |meanwhile| ==> meanwhile[i].Retried? || meanwhile[i].Finished?
    ensures var t := HandleAll(s, meanwhile);
            Handle(t, Postrun(now)) == State(None, t.sent, t.emitted + [Run((now - start) * 1000.0)])
  {
    TimestampKept(s, meanwhile);
    PostrunReports(HandleAll(s, meanwhile), start, now);
  }

  /**
    A nested prerun of an eager task reports a retry and the run of the prerun before it, from that one's
    start; it starts anew, so that its own end reports only the time since.
   */
  lemma NestedTimed(s: State, outer: real, meanwhile: seq<Signal>, runNow: real, inner: real, now: real)
    requires s.timestamp == Some(outer)
    requires forall i :: 0 <= i < |meanwhile| ==> meanwhile[i].Retried? || meanwhile[i].Finished?
    ensures var t := HandleAll(s, meanwhile);
            var u := Handle(t, Prerun(true, None, 0.0, runNow, inner));
            var v := Handle(u, Postrun(now));
            && u.emitted == t.emitted + [Retry, Run((runNow - outer) * 1000.0)]
            && v.emitted == u.emitted + [Run((now - inner) * 1000.0)] && v.timestamp == None
  {
    TimestampKept(s, meanwhile);
    var t := HandleAll(s, meanwhile);
    assert Waited(None, 0.0) + Closed(t, true, runNow) == [Retry, Run((runNow - outer) * 1000.0)];
    PostrunReports(Handle(t, Prerun(true, None, 0.0, runNow, inner)), inner, now);
  }

  /** The time in the queue is reported first; a prerun that is not nested and eager reports nothing else. */
  lemma QueueTimed(s: State, eager: bool, enqueued: Option<real>, queueNow: real, runNow: real, start: real)
    requires s.timestamp.None? || !eager
    ensures var t := Handle(s, Prerun(eager, enqueued, queueNow, runNow, start));
            && t.timestamp == Some(start) && t.sent == s.sent
            && t.emitted == s.emitted + match enqueued
                                        case None => []
                                        case Some(at) => [QueueLatency((queueNow - at) * 1000.0)]
  {
    assert Waited(enqueued, queueNow) + [] == Waited(enqueued, queueNow);
  }

  // ---------- nested runs report what sequential runs report

  datatype Kind = KRetry | KOnce(counter: Counter) | KRun

  /** What was reported, without the times, and without waiting times in the queue. */
  function Kinds(ms: seq<Metric>): seq<Kind> {
    if ms == [] then []
    else
      var last := ms[|ms| - 1];
      Kinds(ms[..|ms| - 1]) +
      match last
      case QueueLatency(_) => []
      case Retry => [KRetry]
      case Once(c) => [KOnce(c)]
      case Run(_) => [KRun]
  }

  lemma {:induction false} KindsAppend(a: seq<Metric>, b: seq<Metric>)
    ensures Kinds(a + b) == Kinds(a) + Kinds(b)
  {
    if b == [] {
      assert a + b == a;
    } else {
      assert (a + b)[..|a + b| - 1] == a + b[..|b| - 1];
      KindsAppend(a, b[..|b| - 1]);
    }
  }

  lemma KindsOne(m: Metric)
    ensures Kinds([m]) == match m case QueueLatency(_) => [] case Retry => [KRetry]
                            case Once(c) => [KOnce(c)] case Run(_) => [KRun]
  {
  }

  /** What one signal adds to the report. */
  function Reported(s: State, signal: Signal): seq<Kind> {
    match signal
    case Prerun(eager, _, _, _, _) => if s.timestamp.Some? && eager then [KRetry, KRun] else []
    case Postrun(_) => if s.timestamp.Some? then [KRun] else []
    case Retried => [KRetry]
    case Finished(c) => if c in s.sent then [] else [KOnce(c)]
  }

  lemma PrerunKinds(s: State, signal: Signal)
    requires signal.Prerun?
    ensures Kinds(Handle(s, signal).emitted) == Kinds(s.emitted) + Reported(s, signal)
  {
    var queued, closed := Waited(signal.enqueued, signal.queueNow), Closed(s, signal.eager, signal.runNow);
    KindsAppend(s.emitted, queued + closed);
    KindsAppend(queued, closed);
    if queued != [] {
      KindsOne(queued[0]);
    }
    ClosedKinds(s, signal.eager, signal.runNow);
  }

  lemma ClosedKinds(s: State, eager: bool, now: real)
    ensures Kinds(Closed(s, eager, now)) == if s.timestamp.Some? && eager then [KRetry, KRun] else []
  {
    var closed := Closed(s, eager, now);
    if closed != [] {
      assert closed == [closed[0]] + [closed[1]];
      KindsAppend([closed[0]], [closed[1]]);
      KindsOne(closed[0]);
      KindsOne(closed[1]);
    }
  }

  lemma EmitKinds(s: State, m: Metric)
    ensures Kinds(s.emitted + [m]) == Kinds(s.emitted) + Kinds([m])
    ensures Kinds([m]) == match m case QueueLatency(_) => [] case Retry => [KRetry]
                            case Once(c) => [KOnce(c)] case Run(_) => [KRun]
  {
    KindsAppend(s.emitted, [m]);
    KindsOne(m);
  }

  lemma HandleKinds(s: State, signal: Signal)
    ensures Kinds(Handle(s, signal).emitted) == Kinds(s.emitted) + Reported(s, signal)
  {
    match signal {
      case Prerun(_, _, _, _, _) =>
        PrerunKinds(s, signal);
      case Postrun(now) =>
        if s.timestamp.Some? {
          EmitKinds(s, Run((now - s.timestamp.value) * 1000.0));
        }
      case Retried =>
        EmitKinds(s, Retry);
      case Finished(c) =>
        EmitKinds(s, Once(c));
    }
  }

  function Report(s: State, signals: seq<Signal>): seq<Kind>
    decreases |signals|
  {
    if signals == [] then [] else Reported(s, signals[0]) + Report(Handle(s, signals[0]), signals[1..])
  }

  lemma ReportCons(s: State, signal: Signal, rest: seq<Signal>)
    ensures Report(s, [signal] + rest) == Reported(s, signal) + Report(Handle(s, signal), rest)
  {
  }

  lemma {:induction false} HandleAllKinds(s: State, signals: seq<Signal>)
    ensures Kinds(HandleAll(s, signals).emitted) == Kinds(s.emitted) + Report(s, signals)
    decreases |signals|
  {
    if signals != [] {
      HandleKinds(s, signals[0]);
      HandleAllKinds(Handle(s, signals[0]), signals[1..]);
    }
  }

  predicate EagerPreruns(pres: seq<Signal>) {
    forall i :: 0 <= i < |pres| ==> pres[i].Prerun? && pres[i].eager
  }

  /** The ends of nested runs, innermost first: each finishes and then has its postrun. */
  function Endings(c: Counter, posts: seq<real>): seq<Signal> {
    if posts == [] then [] else [Finished(c)] + ([Postrun(posts[0])] + Endings(c, posts[1..]))
  }

  /** Retries as celery runs them one after the other, ending in a run that finishes. */
  function OneByOne(pres: seq<Signal>, c: Counter, posts: seq<real>): seq<Signal>
    requires |pres| == |posts| > 0
  {
    if |pres| == 1 then [pres[0]] + Endings(c, posts)
    else [pres[0]] + ([Retried] + ([Postrun(posts[0])] + OneByOne(pres[1..], c, posts[1..])))
  }

  function RetriesThen(n: nat, last: seq<Kind>): seq<Kind> {
    if n == 0 then last else [KRetry, KRun] + RetriesThen(n - 1, last)
  }

  /** Once the innermost run is over, the ends of the outer ones add nothing. */
  lemma {:induction false} QuietEndings(s: State, c: Counter, posts: seq<real>)
    requires s.timestamp.None? && c in s.sent
    ensures Report(s, Endings(c, posts)) == []
  {
    if posts != [] {
      ReportCons(s, Finished(c), [Postrun(posts[0])] + Endings(c, posts[1..]));
      ReportCons(s, Postrun(posts[0]), Endings(c, posts[1..]));
      QuietEndings(s, c, posts[1..]);
    }
  }

  function Outcome(s: State, c: Counter): seq<Kind> {
    (if c in s.sent then [] else [KOnce(c)]) + [KRun]
  }

  lemma EndingsReport(s: State, c: Counter, posts: seq<real>)
    requires s.timestamp.Some? && posts != []
    ensures Report(s, Endings(c, posts)) == Outcome(s, c)
  {
    var t := Handle(s, Finished(c));
    ReportCons(s, Finished(c), [Postrun(posts[0])] + Endings(c, posts[1..]));
    ReportCons(t, Postrun(posts[0]), Endings(c, posts[1..]));
    QuietEndings(Handle(t, Postrun(posts[0])), c, posts[1..]);
  }

  lemma {:induction false} NestedReport(s: State, pres: seq<Signal>, c: Counter, posts: seq<real>)
    requires EagerPreruns(pres) && posts != [] && (s.timestamp.Some? || pres != [])
    ensures Report(s, pres + Endings(c, posts))
            == RetriesThen(|pres| - if s.timestamp.Some? then 0 else 1, Outcome(s, c))
    decreases |pres|
  {
    if pres == [] {
      assert pres + Endings(c, posts) == Endings(c, posts);
      EndingsReport(s, c, posts);
    } else {
      assert pres + Endings(c, posts) == [pres[0]] + (pres[1..] + Endings(c, posts));
      ReportCons(s, pres[0], pres[1..] + Endings(c, posts));
      NestedReport(Handle(s, pres[0]), pres[1..], c, posts);
    }
  }

  lemma {:induction false} OneByOneReport(s: State, pres: seq<Signal>, c: Counter, posts: seq<real>)
    requires EagerPreruns(pres) && |pres| == |posts| > 0 && s.timestamp.None?
    ensures Report(s, OneByOne(pres, c, posts))
            == RetriesThen(|pres| - 1, Outcome(s, c))
    decreases |pres|
  {
    if |pres| == 1 {
      ReportCons(s, pres[0], Endings(c, posts));
      EndingsReport(Handle(s, pres[0]), c, posts);
    } else {
      var t := RoundReport(s, pres[0], posts[0], OneByOne(pres[1..], c, posts[1..]));
      OneByOneReport(t, pres[1..], c, posts[1..]);
    }
  }

  /** One run that is retried, from its prerun to its postrun. */
  lemma RoundReport(s: State, pre: Signal, post: real, rest: seq<Signal>) returns (t: State)
    requires pre.Prerun? && s.timestamp.None?
    ensures t.timestamp.None? && t.sent == s.sent
    ensures Report(s, [pre] + ([Retried] + ([Postrun(post)] + rest))) == [KRetry, KRun] + Report(t, rest)
  {
    var s1 := Handle(s, pre);
    var s2 := Handle(s1, Retried);
    t := Handle(s2, Postrun(post));
    ReportCons(s, pre, [Retried] + ([Postrun(post)] + rest));
    ReportCons(s1, Retried, [Postrun(post)] + rest);
    ReportCons(s2, Postrun(post), rest);
  }

  /**
    A task retried n times while eager reports, for any n, any clock and any earlier history, the same
    retries, runs and outcome whether its runs are nested (celery 4) or follow each other (celery 5).
   */
  lemma {:induction false} NestedIsSequential(s: State, pres: seq<Signal>, c: Counter, posts: seq<real>)
    requires EagerPreruns(pres) && |pres| == |posts| > 0 && s.timestamp.None?
    ensures var nested := HandleAll(s, pres + Endings(c, posts));
            var sequential := HandleAll(s, OneByOne(pres, c, posts));
            && Kinds(nested.emitted) == Kinds(sequential.emitted)
            && Kinds(nested.emitted) == Kinds(s.emitted) + RetriesThen(|pres| - 1, Outcome(s, c))
  {
    NestedReport(s, pres, c, posts);
    OneByOneReport(s, pres, c, posts);
    HandleAllKinds(s, pres + Endings(c, posts));
    HandleAllKinds(s, OneByOne(pres, c, posts));
  }

  /** A protected counter fires once in the life of a task object, not once per run. */
  lemma {:induction false} OncePerTask(s: State, signals: seq<Signal>, c: Counter)
    requires c in s.sent
    ensures KOnce(c) !in Report(s, signals)
    decreases |signals|
  {
    if signals != [] {
      OncePerTask(Handle(s, signals[0]), signals[1..], c);
    }
  }
}
