/** What a send of the adapter promises its caller. */
module AdapterTheorems {
  import opened Options
  import opened Retrying
  import opened RetryTheorems
  import opened Adapter

  /** With a retry policy one call and as many retries as it counts; without one, a single call. */
  function MaxCalls(retry: Option<Policy>): nat {
    if retry.Some? then retry.value.left + 1 else 1
  }

  /**
    Any send that calls the transport at all, with or without a context deadline or a retry policy. It
    makes at most one call more than the policy counts, each to the original path, query and fragment at
    the next backend of the cycle, if there are any. The first call has the timeouts that were settled,
    cut to what a deadline leaves. Retries read within the read timeout of the first call; under a
    deadline, read as the `ticks`th clock reading, all calls read within it, but for the time that passes
    before the loop notes its start.
   */
  lemma SendPromises(configured: Option<Settings>, script: nat -> Attempt, clock: nat -> real, deadline: Option<real>,
                     original: Url, order: seq<Backend>, position: nat, calls: nat, ticks: nat,
                     made: seq<Call>, selected: int, result: Result, j: nat)
    requires Monotone(clock) && j < |made|
    requires SendDoes(configured, script, clock, deadline, original, order, position, calls, ticks,
                      made, selected, result)
    ensures configured.Some? && (deadline.Some? ==> clock(ticks) < deadline.value)
    ensures var s := configured.value;
            var first := ticks + if deadline.Some? then 1 else 0;
            && |made| <= MaxCalls(s.retry)
            && (if order == [] then selected == 0 else |made| <= selected <= |made| + 1)
            && SentTo(made[j].url, original, order, position + j)
            && made[j].connect <= s.connect && made[j].read <= s.read
            && (deadline.None? ==>
                  && (j == 0 ==> made[0].connect == s.connect && made[0].read == s.read)
                  && clock(first + j) + made[j].read == clock(first) + s.read)
            && (deadline.Some? ==>
                  var left := deadline.value - clock(ticks);
                  && (j == 0 ==> made[0].connect == Min(s.connect, left) && made[0].read == Min(s.read, left))
                  && made[j].connect <= left
                  && clock(first + j) + made[j].read <= deadline.value + (clock(first) - clock(ticks)))
            && (s.connect > 0.0 && s.read > 0.0 ==> made[j].connect > 0.0 && made[j].read > 0.0)
  {
    var left := if deadline.Some? then deadline.value - clock(ticks) else 0.0;
    var s := if deadline.Some? then Limited(configured.value, left) else configured.value;
    var first := ticks + if deadline.Some? then 1 else 0;
    if s.retry.Some? {
      SettledPromises(s, script, clock, original, order, position, calls, first, made, selected, result, j);
    }
  }

  /** The url has the scheme and host of selection `i` and everything else from the original url. */
  predicate SentTo(url: Url, original: Url, order: seq<Backend>, i: nat) {
    if order == [] then url == original
    else
      && url.scheme == order[i % |order|].scheme && url.netloc == order[i % |order|].netloc
      && url.path == original.path && url.query == original.query && url.fragment == original.fragment
  }

  lemma SettledPromises(s: Settings, script: nat -> Attempt, clock: nat -> real, original: Url,
                        order: seq<Backend>, position: nat, calls: nat, first: nat,
                        made: seq<Call>, selected: int, result: Result, j: nat)
    requires Monotone(clock) && s.retry.Some? && j < |made|
    requires SettledDoes(s, script, clock, original, order, position, calls, first, made, selected, result)
    ensures |made| <= s.retry.value.left + 1
    ensures if order == [] then selected == 0 else |made| <= selected <= |made| + 1
    ensures SentTo(made[j].url, original, order, position + j)
    ensures made[j].connect <= s.connect && made[j].read <= s.read
    ensures j == 0 ==> made[0].connect == s.connect && made[0].read == s.read
    ensures clock(first + j) + made[j].read == clock(first) + s.read
    ensures s.connect > 0.0 && s.read > 0.0 ==> made[j].connect > 0.0 && made[j].read > 0.0
  {
    var p := PlanFor(script, clock, calls, first, original, order, position, s.read, s.retry.value.raiseOnStatus);
    assert made == Sent(p, s.retry.value.left, s.connect).calls;
    PlanPromises(p, s.retry.value.left, s.connect, clock, first, j);
    assert p.url(j) == Target(original, order, position + j);
  }

  /**
    Each call of a send goes to the backend that was selected for it: the history of the cycle, which is
    in turn over all sends and retries and so balanced, is the history of where the calls went.
   */
  lemma CallsFollowHistory(configured: Option<Settings>, script: nat -> Attempt, clock: nat -> real,
                           deadline: Option<real>, original: Url, order: seq<Backend>, position: nat,
                           calls: nat, ticks: nat, made: seq<Call>, selected: int, result: Result,
                           history: seq<nat>, j: nat)
    requires Monotone(clock) && order != [] && j < |made|
    requires SendDoes(configured, script, clock, deadline, original, order, position, calls, ticks,
                      made, selected, result)
    requires InTurn(history, |order|) && |history| == position + selected
    ensures position + j < |history| && history[position + j] < |order|
    ensures var (url, b) := (made[j].url, order[history[position + j]]);
            && url.scheme == b.scheme && url.netloc == b.netloc
            && url.path == original.path && url.query == original.query && url.fragment == original.fragment
  {
    SendPromises(configured, script, clock, deadline, original, order, position, calls, ticks,
                 made, selected, result, j);
  }

  lemma MonotoneFrom(p: Plan, clock: nat -> real, first: nat)
    requires Monotone(clock) && (forall i: nat :: p.clock(i) == clock(first + i))
    ensures Monotone(p.clock)
  {
    forall i: nat, k: nat | i <= k
      ensures p.clock(i) <= p.clock(k)
    {
      assert clock(first + i) <= clock(first + k);
    }
  }

  /** What holds of any plan that reads a monotone clock from some reading on. */
  lemma PlanPromises(p: Plan, left: nat, connect: real, clock: nat -> real, first: nat, j: nat)
    requires Monotone(clock) && (forall i: nat :: p.clock(i) == clock(first + i))
    requires j < |Sent(p, left, connect).calls|
    ensures var made := Sent(p, left, connect).calls;
            && |made| <= left + 1
            && made[j].url == p.url(j)
            && |made| - 1 <= Sent(p, left, connect).selections <= |made|
            && clock(first + j) + made[j].read == clock(first) + p.readTimeout
            && made[j].connect <= connect && made[j].read <= p.readTimeout
            && (j == 0 ==> made[0].connect == connect && made[0].read == p.readTimeout)
            && (connect > 0.0 && p.readTimeout > 0.0 ==> made[j].connect > 0.0 && made[j].read > 0.0)
  {
    MonotoneFrom(p, clock, first);
    CallsBounded(p, left, connect);
    TimeBudget(p, left, connect, j);
    UrlsFollowPlan(p, left, connect, j);
    assert p.clock(0) == clock(first + 0) && p.clock(j) == clock(first + j);
  }

  /**
    What becomes of the `timeout` argument: the connect and read timeouts of the first call and the policy
    that is followed. A plain number other than zero makes the read timeout the connect timeout.
   */
  lemma TimeoutForms(s: Settings, arg: TimeoutArg)
    ensures Configured(s, arg)
            == match arg
               case NoTimeout => Some(s)
               case Number(t) =>
                 if t == 0.0 then Some(s) else Some(Settings(s.connect, s.connect, s.retry))
               case Only(policy) => Some(Settings(s.connect, s.read, Some(policy)))
               case Several(times, retry) =>
                 var followed := match retry case Some(policy) => Some(policy) case None => s.retry;
                 if |times| == 2 then Some(Settings(times[0], times[1], followed))
                 else if |times| == 1 then Some(Settings(s.connect, times[0], followed))
                 else if times == [] && retry == None then Some(s)
                 else None
               case Malformed => None
  {
  }

  /** For a pair of timeouts: the first call has them, in that order. */
  lemma PairIsUsed(own: Settings, script: nat -> Attempt, clock: nat -> real, connect: real, read: real,
                   retry: Option<Policy>, original: Url, order: seq<Backend>, position: nat,
                   calls: nat, ticks: nat, made: seq<Call>, selected: int, result: Result)
    requires Monotone(clock)
    requires SendDoes(Configured(own, Several([connect, read], retry)), script, clock, None, original, order,
                      position, calls, ticks, made, selected, result)
    ensures made != [] && made[0].connect == connect && made[0].read == read
  {
  }

  /**
    How a send ends that makes no call, or one without a policy: ValueError for a bad timeout, a timeout
    for a deadline that has passed, and else just what the transport answers or raises.
   */
  lemma WithoutRetry(configured: Option<Settings>, script: nat -> Attempt, clock: nat -> real,
                     deadline: Option<real>, original: Url, order: seq<Backend>, position: nat,
                     calls: nat, ticks: nat, made: seq<Call>, selected: int, result: Result)
    requires configured.Some? ==> configured.value.retry == None
    requires SendDoes(configured, script, clock, deadline, original, order, position, calls, ticks,
                      made, selected, result)
    ensures if configured == None then made == [] && selected == 0 && result == Raised(BadTimeout)
            else if deadline.Some? && deadline.value <= clock(ticks) then
              made == [] && selected == 0 && result == Raised(DeadlineExceeded)
            else
              && |made| == 1 && (selected == 1 <==> order != []) && (selected == 0 <==> order == [])
              && match script(calls).outcome
                 case Answered(response, _) => result == Returned(response)
                 case ConnectionFailed(id, _) => result == Raised(ConnectionError(id))
                 case ReadTimedOut(id) => result == Raised(TransportReadTimeout(id))
                 case OtherFailure(id) => result == Raised(TransportFailure(id))
  {
  }
}
