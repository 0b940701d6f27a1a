/** The load-balancing, retrying adapter, as the objects it updates. */
module Adapter {
  import opened Options
  import opened Sequences
  import opened Retrying

  // ---------- backends

  /** A configured backend, split at `://`; `Bare` has none. */
  datatype BackendUrl = Bare | Full(backend: Backend)

  predicate Known(scheme: string) {
    scheme == "http" || scheme == "https"
  }

  /** Selections `0`, `1`, ... of a cycle over `n` backends, each given by the backend's position. */
  predicate InTurn(history: seq<nat>, n: nat)
    requires n > 0
  {
    forall i :: 0 <= i < |history| ==> history[i] == i % n
  }

  /** `itertools.cycle` over a shuffled copy of the backends, and every selection made from it. */
  class BackendCycle {
    const order: seq<Backend>
    var position: nat
    ghost var history: seq<nat>

    ghost predicate Valid()
      reads this
    {
      order != [] && |history| == position && InTurn(history, |order|)
    }

    constructor (order: seq<Backend>)
      requires order != []
      ensures Valid() && this.order == order && position == 0
    {
      this.order := order;
      position := 0;
      history := [];
    }

    method Next() returns (b: Backend)
      requires Valid()
      modifies this
      ensures Valid() && position == old(position) + 1
      ensures history == old(history) + [old(position) % |order|] && b == order[history[old(position)]]
    {
      b := order[position % |order|];
      history := history + [position % |order|];
      position := position + 1;
    }
  }

  predicate SameSchemes(backends: seq<BackendUrl>) {
    forall a, b :: a in backends && b in backends && a.Full? && b.Full? ==> a.backend.scheme == b.backend.scheme
  }

  /**
    `backends` after shuffling. Nothing is returned where the source raises ValueError: for a backend
    without a known scheme, for mixed schemes, and for no backend at all.
   */
  method CreateBackendIterable(backends: seq<BackendUrl>) returns (cycle: BackendCycle?)
    ensures cycle != null ==>
              fresh(cycle) && cycle.Valid() && cycle.position == 0 && |cycle.order| == |backends|
    ensures cycle != null ==> forall i :: 0 <= i < |backends| ==> backends[i] == Full(cycle.order[i])
    ensures cycle != null <==>
              && backends != []
              && (forall b :: b in backends ==> b.Full? && Known(b.backend.scheme))
              && SameSchemes(backends)
  {
    var order: seq<Backend> := [];
    var schemes: set<string> := {};
    for i := 0 to |backends|
      invariant |order| == i && forall j :: 0 <= j < i ==> backends[j] == Full(order[j]) && Known(order[j].scheme)
      invariant schemes == set j | 0 <= j < i :: order[j].scheme
    {
      if backends[i].Bare? || !Known(backends[i].backend.scheme) {
        assert backends[i] in backends;
        return null;
      }
      order := order + [backends[i].backend];
      schemes := schemes + {backends[i].backend.scheme};
    }
    if |schemes| != 1 {
      OneScheme(backends, order, schemes);
      return null;
    }
    cycle := new BackendCycle(order);
    OneScheme(backends, order, schemes);
  }

  lemma OneScheme(backends: seq<BackendUrl>, order: seq<Backend>, schemes: set<string>)
    requires |order| == |backends| && forall j :: 0 <= j < |order| ==> backends[j] == Full(order[j])
    requires schemes == set j | 0 <= j < |order| :: order[j].scheme
    ensures |schemes| == 1 <==>
              && backends != [] && SameSchemes(backends)
  {
    if backends != [] {
      var s := order[0].scheme;
      assert s in schemes;
      if SameSchemes(backends) {
        assert forall j :: 0 <= j < |order| ==> backends[j] in backends;
        assert schemes == {s};
      } else if |schemes| == 1 {
        assert |schemes - {s}| == |schemes| - 1;
        assert forall j :: 0 <= j < |order| ==> order[j].scheme in schemes;
      }
    } else {
      assert schemes == {};
    }
  }

  lemma DivStep(m: nat, n: nat)
    requires m > 0 && n > 0
    ensures (m - 1) % n == n - 1 ==> m % n == 0 && m / n == (m - 1) / n + 1
    ensures (m - 1) % n != n - 1 ==> m % n == (m - 1) % n + 1 && m / n == (m - 1) / n
  {
    var q, r := (m - 1) / n, (m - 1) % n;
    assert m - 1 == q * n + r;
    if r == n - 1 {
      assert m == (q + 1) * n;
      DivModUnique(m, n, q + 1, 0);
    } else {
      DivModUnique(m, n, q, r + 1);
    }
  }

  lemma DivModUnique(m: nat, n: nat, q: nat, r: nat)
    requires n > 0 && r < n && m == q * n + r
    ensures m / n == q && m % n == r
  {
    var q', r' := m / n, m % n;
    var d := q - q';
    assert d * n == q * n - q' * n == r' - r;
    if d >= 1 {
      AtLeast(d, n);
    } else if d <= -1 {
      AtLeast(-d, n);
    }
  }

  lemma AtLeast(d: int, n: nat)
    requires d >= 1
    ensures d * n >= n
  {
  }

  /** How often position `k` comes in the first `m` selections from `n` backends. */
  function Turns(m: nat, n: nat, k: nat): nat
    requires n > 0
  {
    if m == 0 then 0 else Turns(m - 1, n, k) + if (m - 1) % n == k then 1 else 0
  }

  lemma {:induction false} TurnsAre(m: nat, n: nat, k: nat)
    requires k < n
    ensures Turns(m, n, k) == m / n + if k < m % n then 1 else 0
  {
    if m > 0 {
      TurnsAre(m - 1, n, k);
      DivStep(m, n);
    }
  }

  lemma {:induction false} CountInTurn(history: seq<nat>, n: nat, k: nat)
    requires k < n && InTurn(history, n)
    ensures multiset(history)[k] == Turns(|history|, n, k)
  {
    if history != [] {
      var m := |history| - 1;
      CountInTurn(history[..m], n, k);
      assert history == history[..m] + [history[m]];
    }
  }

  /** However sends and retries share the cycle, no backend is ever two selections ahead of another. */
  lemma Balanced(history: seq<nat>, n: nat, j: nat, k: nat)
    requires j < n && k < n && InTurn(history, n)
    ensures multiset(history)[j] <= multiset(history)[k] + 1
  {
    CountInTurn(history, n, j);
    CountInTurn(history, n, k);
    TurnsAre(|history|, n, j);
    TurnsAre(|history|, n, k);
  }

  // ---------- the outside world

  /** The transport, the policy and the clock, following a script; and the calls made so far. */
  class World {
    const script: nat -> Attempt
    const clock: nat -> real
    var calls: seq<Call>
    var ticks: nat

    constructor (script: nat -> Attempt, clock: nat -> real)
      ensures this.script == script && this.clock == clock && calls == [] && ticks == 0
    {
      this.script, this.clock := script, clock;
      calls, ticks := [], 0;
    }

    method Time() returns (t: real)
      modifies this`ticks
      ensures t == clock(old(ticks)) && ticks == old(ticks) + 1
    {
      t := clock(ticks);
      ticks := ticks + 1;
    }

    method Transport(url: Url, connect: real, read: real) returns (a: Attempt)
      modifies this`calls
      ensures a == script(|old(calls)|) && calls == old(calls) + [Call(url, connect, read)]
    {
      a := script(|calls|);
      calls := calls + [Call(url, connect, read)];
    }
  }

  // ---------- the adapter

  /** The part of urllib3's Retry that matters: how much it still counts, and `raise_on_status`. */
  datatype Policy = Policy(left: nat, raiseOnStatus: bool)

  /** The `timeout` argument of a send. */
  datatype TimeoutArg =
    | NoTimeout
    | Number(t: real)
    | Only(policy: Policy)
    | Several(times: seq<real>, retry: Option<Policy>)
    | Malformed

  datatype Settings = Settings(connect: real, read: real, retry: Option<Policy>)

  /** Settings for one send, or None where ValueError is raised. A plain number is not used as a timeout. */
  function Configured(s: Settings, arg: TimeoutArg): Option<Settings> {
    match arg
    case NoTimeout => Some(s)
    case Number(t) => Some(if t == 0.0 then s else s.(read := s.connect))
    case Only(policy) => Some(s.(retry := Some(policy)))
    case Several(times, retry) =>
      var policy := if retry.Some? then retry else s.retry;
      if times == [] && retry.None? then Some(s)
      else if |times| == 1 then Some(Settings(s.connect, times[0], policy))
      else if |times| == 2 then Some(Settings(times[0], times[1], policy))
      else None
    case Malformed => None
  }

  /** The url of the `position`th selection. */
  function Target(original: Url, order: seq<Backend>, position: nat): Url {
    if order == [] then original else Rewritten(original, order[position % |order|])
  }

  function PlanFor(script: nat -> Attempt, clock: nat -> real, calls: nat, ticks: nat,
                   original: Url, order: seq<Backend>, position: nat, read: real, raiseOnStatus: bool): Plan {
    Plan((i: nat) => script(calls + i), (i: nat) => Target(original, order, position + i),
         (i: nat) => clock(ticks + i), read, raiseOnStatus)
  }

  lemma PlanUrl(p: Plan, world: World, i: nat, calls: nat, ticks: nat,
                original: Url, order: seq<Backend>, position: nat)
    requires p == PlanFor(world.script, world.clock, calls, ticks, original, order, position,
                          p.readTimeout, p.raiseOnStatus)
    ensures p.url(i) == Target(original, order, position + i)
    ensures p.script(i) == world.script(calls + i) && p.clock(i) == world.clock(ticks + i)
  {
  }

  /** A timeout noted at `now` that is no longer than asked for and, unless it is over at once, ends by `end`. */
  predicate Fits(t: real, asked: real, now: real, end: real) {
    t <= asked && (t <= 0.0 || now + t <= end)
  }

  ghost predicate Longest(t: real, asked: real, now: real, end: real) {
    forall u :: Fits(u, asked, now, end) <==> u <= t
  }

  lemma LongestIs(t: real, asked: real, now: real, end: real)
    requires Longest(t, asked, now, end)
    ensures t == Min(asked, Max(0.0, end - now))
  {
    assert Fits(t, asked, now, end);
    assert Fits(Min(asked, Max(0.0, end - now)), asked, now, end);
  }

  class PreparedRequest {
    var url: Url
    var originalUrl: Url
    var retry: Policy
    var start: real
    var readTimeout: real

    constructor (url: Url)
      ensures this.url == url
    {
      this.url, originalUrl := url, url;
      retry, start, readTimeout := Policy(0, false), 0.0, 0.0;
    }
  }

  class TaliskerAdapter {
    const connectTimeout: real
    const readTimeout: real
    const retry: Option<Policy>
    const backends: BackendCycle?

    constructor (connect: real, read: real, retry: Option<Policy>, backends: BackendCycle?)
      ensures connectTimeout == connect && readTimeout == read && this.retry == retry && this.backends == backends
    {
      connectTimeout, readTimeout, this.retry, this.backends := connect, read, retry, backends;
    }

    ghost predicate Valid()
      reads backends
    {
      backends != null ==> backends.Valid()
    }

    function Order(): seq<Backend> {
      if backends == null then [] else backends.order
    }

    function Position(): nat
      reads backends
    {
      if backends == null then 0 else backends.position
    }

    method SelectBackend(request: PreparedRequest)
      requires Valid()
      modifies request`url, backends
      ensures Valid()
      ensures backends == null ==> request.url == old(request.url)
      ensures backends != null ==>
                var b := Order()[old(Position()) % |Order()|];
                && request.url.scheme == b.scheme && request.url.netloc == b.netloc
                && request.url.path == request.originalUrl.path
                && request.url.query == request.originalUrl.query
                && request.url.fragment == request.originalUrl.fragment
      ensures Position() == old(Position()) + if backends == null then 0 else 1
    {
      if backends != null {
        var next := backends.Next();
        request.url := Rewritten(request.originalUrl, next);
      }
    }

    /** Each timeout is the longest that is no longer than asked for and ends within the budget. */
    method CalculateTimeouts(request: PreparedRequest, world: World, connect: real, read: real)
      returns (c: real, r: real)
      modifies world`ticks
      ensures world.ticks == old(world.ticks) + 1
      ensures Longest(c, connect, world.clock(old(world.ticks)), request.start + request.readTimeout)
      ensures Longest(r, read, world.clock(old(world.ticks)), request.start + request.readTimeout)
    {
      var now := world.Time();
      var left := Max(0.0, request.readTimeout - (now - request.start));
      c, r := Min(connect, left), Min(read, left);
    }

    /** The request, the clock and the backends stand where attempt `i` of plan `p` needs them. */
    ghost predicate Ready(request: PreparedRequest, world: World, p: Plan, i: nat,
                          calls: nat, ticks: nat, position: nat)
      reads request, world, backends
    {
      && world.ticks == ticks + i + 1
      && Position() == (if backends == null then 0 else position + i + 1)
      && request.url == p.url(i)
      && request.start == p.clock(0) && request.readTimeout == p.readTimeout
      && request.retry.raiseOnStatus == p.raiseOnStatus
      && p == PlanFor(world.script, world.clock, calls, ticks, request.originalUrl, Order(), position,
                      p.readTimeout, p.raiseOnStatus)
    }

    /** One call, and the policy's verdict on it, which is noted in the request if it allows a retry. */
    method Attempt(request: PreparedRequest, world: World, connect: real, read: real) returns (verdict: Verdict)
      modifies request`retry, world`calls
      ensures world.calls == old(world.calls) + [Call(request.url, connect, read)]
      ensures verdict == Judge(world.script(|old(world.calls)|), old(request.retry.left),
                               old(request.retry.raiseOnStatus))
      ensures request.retry == if verdict.Again? then old(request.retry).(left := verdict.left)
                               else old(request.retry)
    {
      var a := world.Transport(request.url, connect, read);
      match a.outcome {
        case ReadTimedOut(id) =>
          return Stop(Raised(TransportReadTimeout(id)));
        case OtherFailure(id) =>
          return Stop(Raised(TransportFailure(id)));
        case ConnectionFailed(id, wrapped) =>
          if !wrapped {
            return Stop(Raised(NothingWrapped));
          }
          var counted := Counted(request.retry.left, a.decision);
          if counted.None? {
            return Stop(Raised(if a.decision.Break? then PolicyError(a.decision) else ConnectionError(id)));
          }
          request.retry := request.retry.(left := counted.value);
          return Again(counted.value, None);
        case Answered(answer, retryable) =>
          if !retryable {
            return Stop(Returned(answer));
          }
          var counted := Counted(request.retry.left, a.decision);
          if counted.None? {
            if a.decision.Reraise? || a.decision.Break? {
              return Stop(Raised(PolicyError(a.decision)));
            } else if request.retry.raiseOnStatus {
              return Stop(Raised(RetryError));
            }
            return Stop(Returned(answer));
          }
          request.retry := request.retry.(left := counted.value);
          return Again(counted.value, Some(answer));
      }
    }

    /** `_send`: one attempt, and the rest of them. */
    method SendAttempt(request: PreparedRequest, world: World, connect: real, read: real,
                       ghost p: Plan, ghost i: nat, ghost calls: nat, ghost ticks: nat, ghost position: nat)
      returns (result: Result)
      requires Valid() && Ready(request, world, p, i, calls, ticks, position) && |world.calls| == calls + i
      modifies request, world, backends
      ensures Valid()
      ensures var t := Loop(p, old(request.retry.left), i, connect, read);
              && world.calls == old(world.calls) + t.calls
              && result == t.result
              && Position() == old(Position()) + if backends == null then 0 else t.selections
      decreases request.retry.left
    {
      PlanUrl(p, world, i, calls, ticks, request.originalUrl, Order(), position);
      ghost var left := request.retry.left;
      var verdict := Attempt(request, world, connect, read);
      LoopStep(p, left, i, connect, read, verdict);
      if verdict.Stop? {
        return verdict.result;
      }
      var c, r := PrepareRetry(request, world, connect, read, p, i, calls, ticks, position);
      if r <= 0.0 {
        return Raised(BudgetSpent(verdict.response));
      }
      label recurse:
      result := SendAttempt(request, world, c, r, p, i + 1, calls, ticks, position);
      Regroup(old(world.calls), [Call(old(request.url), connect, read)], world.calls[|old@recurse(world.calls)|..]);
    }

    /** The next backend and the timeouts that are left, for the attempt after attempt `i`. */
    method PrepareRetry(request: PreparedRequest, world: World, connect: real, read: real,
                        ghost p: Plan, ghost i: nat, ghost calls: nat, ghost ticks: nat, ghost position: nat)
      returns (c: real, r: real)
      requires Valid() && Ready(request, world, p, i, calls, ticks, position)
      modifies request`url, world`ticks, backends
      ensures Valid()
      ensures c == Min(connect, BudgetLeft(p, i + 1)) && r == Min(read, BudgetLeft(p, i + 1))
      ensures Position() == old(Position()) + if backends == null then 0 else 1
      ensures Ready(request, world, p, i + 1, calls, ticks, position)
    {
      PlanUrl(p, world, i, calls, ticks, request.originalUrl, Order(), position);
      PlanUrl(p, world, i + 1, calls, ticks, request.originalUrl, Order(), position);
      SelectBackend(request);
      ghost var now, end := world.clock(world.ticks), request.start + request.readTimeout;
      c, r := CalculateTimeouts(request, world, connect, read);
      LongestIs(c, connect, now, end);
      LongestIs(r, read, now, end);
    }

    /** The rest of `send`, once timeouts and policy are settled. */
    method SendWith(request: PreparedRequest, world: World, s: Settings) returns (result: Result)
      requires Valid() && request.originalUrl == request.url
      modifies request, world, backends
      ensures Valid() && old(world.calls) <= world.calls
      ensures SettledDoes(s, world.script, world.clock, old(request.url), Order(), old(Position()), old(|world.calls|),
                          old(world.ticks), world.calls[old(|world.calls|)..], Position() - old(Position()), result)
    {
      ghost var position, calls, ticks := Position(), |world.calls|, world.ticks;
      SelectBackend(request);
      if s.retry.None? {
        var a := world.Transport(request.url, s.connect, s.read);
        return Direct(a.outcome);
      }
      request.retry := s.retry.value;
      request.start := world.Time();
      request.readTimeout := s.read;
      ghost var p := PlanFor(world.script, world.clock, calls, ticks, request.originalUrl, Order(), position,
                             s.read, s.retry.value.raiseOnStatus);
      PlanUrl(p, world, 0, calls, ticks, request.originalUrl, Order(), position);
      result := SendAttempt(request, world, s.connect, s.read, p, 0, calls, ticks, position);
    }

    /** `send`, with the deadline of the current context, if it has one. */
    method Send(request: PreparedRequest, world: World, timeout: TimeoutArg, deadline: Option<real>)
      returns (result: Result)
      requires Valid()
      modifies request, world, backends
      ensures Valid() && old(world.calls) <= world.calls
      ensures SendDoes(Configured(Settings(connectTimeout, readTimeout, retry), timeout), world.script, world.clock,
                       deadline, old(request.url), Order(), old(Position()), old(|world.calls|), old(world.ticks),
                       world.calls[old(|world.calls|)..], Position() - old(Position()), result)
    {
      request.originalUrl := request.url;
      var configured := Configured(Settings(connectTimeout, readTimeout, retry), timeout);
      if configured.None? {
        return Raised(BadTimeout);
      }
      var settings := configured.value;
      if deadline.Some? {
        var now := world.Time();
        var left := deadline.value - now;
        if left <= 0.0 {
          return Raised(DeadlineExceeded);
        }
        settings := Limited(settings, left);
      }
      result := SendWith(request, world, settings);
    }
  }

  /** Without a retry policy, the transport's answer or exception is the caller's. */
  function Direct(o: Outcome): Result {
    match o
    case Answered(response, _) => Returned(response)
    case ConnectionFailed(id, _) => Raised(ConnectionError(id))
    case ReadTimedOut(id) => Raised(TransportReadTimeout(id))
    case OtherFailure(id) => Raised(TransportFailure(id))
  }

  /** Both timeouts are cut to what the deadline leaves. */
  function Limited(s: Settings, left: real): Settings {
    s.(connect := Min(s.connect, left), read := Min(s.read, left))
  }

  /** What a send does with settled timeouts: the calls it makes, how many backends it selects, and its result. */
  ghost predicate SettledDoes(s: Settings, script: nat -> Attempt, clock: nat -> real,
                              original: Url, order: seq<Backend>, position: nat, calls: nat, ticks: nat,
                              made: seq<Call>, selected: int, result: Result)
  {
    if s.retry.None? then
      && made == [Call(Target(original, order, position), s.connect, s.read)] && result == Direct(script(calls).outcome)
      && selected == if order == [] then 0 else 1
    else
      var p := PlanFor(script, clock, calls, ticks, original, order, position, s.read, s.retry.value.raiseOnStatus);
      var t := Loop(p, s.retry.value.left, 0, s.connect, s.read);
      made == t.calls && result == t.result && selected == if order == [] then 0 else 1 + t.selections
  }

  /** What a send does. */
  ghost predicate SendDoes(configured: Option<Settings>, script: nat -> Attempt, clock: nat -> real,
                           deadline: Option<real>, original: Url, order: seq<Backend>, position: nat,
                           calls: nat, ticks: nat, made: seq<Call>, selected: int, result: Result)
  {
    if configured.None? then made == [] && selected == 0 && result == Raised(BadTimeout)
    else if deadline.None? then
      SettledDoes(configured.value, script, clock, original, order, position, calls, ticks, made, selected, result)
    else
      var left := deadline.value - clock(ticks);
      if left <= 0.0 then made == [] && selected == 0 && result == Raised(DeadlineExceeded)
      else SettledDoes(Limited(configured.value, left), script, clock, original, order, position, calls, ticks + 1,
                       made, selected, result)
  }
}
