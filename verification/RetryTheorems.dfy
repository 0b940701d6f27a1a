/** What the retry loop promises, for every script. */
module RetryTheorems {
  import opened Options
  import opened Retrying

  // ---------- the loop, described without recursion

  /** What is left of the read timeout when attempt `i` is prepared. */
  function ReadAt(p: Plan, i: nat): real {
    p.readTimeout - (p.clock(i) - p.clock(0))
  }

  function ConnectAt(p: Plan, connect: real, i: nat): real {
    if i == 0 then connect else Min(connect, ReadAt(p, i))
  }

  /** The attempt failed in a way that may be retried, and the policy is willing to count a retry. */
  predicate Retried(a: Attempt) {
    && a.decision.Allow? && a.decision.drop > 0
    && match a.outcome
       case ConnectionFailed(_, wrapped) => wrapped
       case Answered(_, retryable) => retryable
       case _ => false
  }

  /** How much attempts `i` to `j - 1` take from the policy's counter. */
  function Spent(p: Plan, i: nat, j: nat): nat
    decreases j - i
  {
    if i >= j then 0
    else (if p.script(i).decision.Allow? then p.script(i).decision.drop else 0) + Spent(p, i + 1, j)
  }

  predicate Afforded(p: Plan, left: nat, i: nat, j: nat) {
    Retried(p.script(j)) && Spent(p, i, j + 1) <= left
  }

  /** Attempt `j` of a loop entered at attempt `i` is followed by another one. */
  predicate GoesOn(p: Plan, left: nat, i: nat, j: nat) {
    Afforded(p, left, i, j) && ReadAt(p, j + 1) > 0.0
  }

  /** How a send ends when its last attempt is `a`, and `a` may not be retried. */
  function Ending(a: Attempt, raiseOnStatus: bool): Result {
    match a.outcome
    case ReadTimedOut(id) => Raised(TransportReadTimeout(id))
    case OtherFailure(id) => Raised(TransportFailure(id))
    case ConnectionFailed(id, wrapped) =>
      if !wrapped then Raised(NothingWrapped)
      else if a.decision.Break? then Raised(PolicyError(a.decision))
      else Raised(ConnectionError(id))
    case Answered(response, retryable) =>
      if !retryable then Returned(response)
      else if a.decision.Reraise? || a.decision.Break? then Raised(PolicyError(a.decision))
      else if raiseOnStatus then Raised(RetryError)
      else Returned(response)
  }

  function LastResponse(a: Attempt): Option<Response> {
    if a.outcome.Answered? then Some(a.outcome.response) else None
  }

  function Final(p: Plan, left: nat, i: nat, n: nat): Result {
    if Afforded(p, left, i, n) then Raised(BudgetSpent(LastResponse(p.script(n))))
    else Ending(p.script(n), p.raiseOnStatus)
  }

  lemma JudgeIs(a: Attempt, left: nat, raiseOnStatus: bool)
    ensures Judge(a, left, raiseOnStatus)
            == if Retried(a) && a.decision.drop <= left then Again(left - a.decision.drop, LastResponse(a))
               else Stop(Ending(a, raiseOnStatus))
  {
  }

  /** Attempts `i` to `n` go on and on, but `n` is the last. */
  predicate LastIs(p: Plan, left: nat, i: nat, n: nat) {
    i <= n && !GoesOn(p, left, i, n) && forall j :: i <= j < n ==> GoesOn(p, left, i, j)
  }

  /** `t` makes calls `i` to `n`, each with its own url and what the clock leaves of the budget. */
  predicate Describes(p: Plan, left: nat, i: nat, connect: real, n: nat, t: Trace) {
    && i <= n && |t.calls| == n - i + 1
    && (forall k :: 0 <= k < |t.calls| ==>
                      t.calls[k] == Call(p.url(i + k), ConnectAt(p, connect, i + k), ReadAt(p, i + k)))
    && t.result == Final(p, left, i, n)
    && t.selections == n - i + if Afforded(p, left, i, n) then 1 else 0
  }

  /** The loop stops at the first attempt that does not go on; that attempt alone decides the result. */
  lemma {:induction false} LoopIs(p: Plan, left: nat, i: nat, connect: real) returns (n: nat)
    requires Monotone(p.clock)
    ensures LastIs(p, left, i, n)
    ensures Describes(p, left, i, connect, n, Loop(p, left, i, ConnectAt(p, connect, i), ReadAt(p, i)))
    decreases left
  {
    if GoesOn(p, left, i, i) {
      var drop := p.script(i).decision.drop;
      LoopGoesOn(p, left, i, connect);
      n := LoopIs(p, left - drop, i + 1, connect);
      DescribesNext(p, left, i, connect, n, Loop(p, left, i, ConnectAt(p, connect, i), ReadAt(p, i)),
                    Loop(p, left - drop, i + 1, ConnectAt(p, connect, i + 1), ReadAt(p, i + 1)));
      LastIsNext(p, left, i, n);
    } else {
      n := i;
      LoopStops(p, left, i, connect);
    }
  }

  lemma AffordedShift(p: Plan, left: nat, i: nat, j: nat)
    requires GoesOn(p, left, i, i) && i < j
    ensures p.script(i).decision.drop <= left
    ensures Afforded(p, left, i, j) <==> Afforded(p, left - p.script(i).decision.drop, i + 1, j)
  {
  }

  lemma LastIsNext(p: Plan, left: nat, i: nat, n: nat)
    requires GoesOn(p, left, i, i) && p.script(i).decision.drop <= left
    requires LastIs(p, left - p.script(i).decision.drop, i + 1, n)
    ensures LastIs(p, left, i, n)
  {
    forall j | i < j
      ensures GoesOn(p, left, i, j) <==> GoesOn(p, left - p.script(i).decision.drop, i + 1, j)
    {
      AffordedShift(p, left, i, j);
    }
  }

  lemma DescribesNext(p: Plan, left: nat, i: nat, connect: real, n: nat, t: Trace, rest: Trace)
    requires GoesOn(p, left, i, i) && p.script(i).decision.drop <= left
    requires Describes(p, left - p.script(i).decision.drop, i + 1, connect, n, rest)
    requires t.calls == [Call(p.url(i), ConnectAt(p, connect, i), ReadAt(p, i))] + rest.calls
    requires t.result == rest.result && t.selections == 1 + rest.selections
    ensures Describes(p, left, i, connect, n, t)
  {
  }

  lemma LoopStops(p: Plan, left: nat, i: nat, connect: real)
    requires Monotone(p.clock) && !GoesOn(p, left, i, i)
    ensures Describes(p, left, i, connect, i, Loop(p, left, i, ConnectAt(p, connect, i), ReadAt(p, i)))
  {
    var a := p.script(i);
    JudgeIs(a, left, p.raiseOnStatus);
    assert Spent(p, i, i + 1) == if a.decision.Allow? then a.decision.drop else 0;
  }

  lemma LoopGoesOn(p: Plan, left: nat, i: nat, connect: real)
    requires Monotone(p.clock) && GoesOn(p, left, i, i)
    ensures p.script(i).decision.drop <= left
    ensures var t := Loop(p, left, i, ConnectAt(p, connect, i), ReadAt(p, i));
            var rest := Loop(p, left - p.script(i).decision.drop, i + 1,
                             ConnectAt(p, connect, i + 1), ReadAt(p, i + 1));
            && t.calls == [Call(p.url(i), ConnectAt(p, connect, i), ReadAt(p, i))] + rest.calls
            && t.result == rest.result && t.selections == 1 + rest.selections
  {
  }

  lemma {:induction false} SpentAtLeast(p: Plan, i: nat, j: nat)
    requires i <= j && forall k :: i <= k < j ==> Retried(p.script(k))
    ensures Spent(p, i, j) >= j - i
    decreases j - i
  {
    if i < j {
      SpentAtLeast(p, i + 1, j);
    }
  }

  // ---------- what follows

  /** The whole loop of one send. */
  function Sent(p: Plan, left: nat, connect: real): Trace {
    Loop(p, left, 0, connect, p.readTimeout)
  }

  /** A policy that counts to N makes for N + 1 calls at most, and at least one. */
  lemma CallsBounded(p: Plan, left: nat, connect: real)
    requires Monotone(p.clock)
    ensures 1 <= |Sent(p, left, connect).calls| <= left + 1
  {
    var n := LoopIs(p, left, 0, connect);
    if n > 0 {
      assert GoesOn(p, left, 0, n - 1);
      forall k | 0 <= k < n ensures Retried(p.script(k)) {
        assert GoesOn(p, left, 0, k);
      }
      SpentAtLeast(p, 0, n);
    }
  }

  /**
    No answer that may not be retried is thrown away, no transport read timeout is retried, and only the
    last call decides: a connection error that exhausts the policy is raised as it was, and an exhausted
    status raises RetryError or returns the last response, as `raise_on_status` says.
   */
  lemma LastCallDecides(p: Plan, left: nat, connect: real, j: nat)
    requires Monotone(p.clock)
    requires j < |Sent(p, left, connect).calls|
    ensures var t := Sent(p, left, connect);
            var a := p.script(j);
            && (j < |t.calls| - 1 ==> Retried(a))
            && (a.outcome.Answered? && !a.outcome.retryable ==>
                  j == |t.calls| - 1 && t.result == Returned(a.outcome.response))
            && (a.outcome.ReadTimedOut? ==>
                  j == |t.calls| - 1 && t.result == Raised(TransportReadTimeout(a.outcome.id)))
            && (j == |t.calls| - 1 ==>
                  || t.result == Ending(a, p.raiseOnStatus)
                  || (t.result == Raised(BudgetSpent(LastResponse(a))) && Retried(a) && ReadAt(p, j + 1) <= 0.0))
  {
    var n := LoopIs(p, left, 0, connect);
    if j < n {
      assert GoesOn(p, left, 0, j);
    }
  }

  /** Exhaustion by count, with time to spare: the two ways it shows. */
  lemma Exhausted(p: Plan, left: nat, connect: real)
    requires Monotone(p.clock)
    requires var t := Sent(p, left, connect); !(t.result.Raised? && t.result.error.BudgetSpent?)
    ensures var t := Sent(p, left, connect);
            var a := p.script(|t.calls| - 1);
            && (a.outcome.ConnectionFailed? && a.outcome.wrapped && !a.decision.Break? ==>
                  t.result == Raised(ConnectionError(a.outcome.id)))
            && (a.outcome.Answered? && a.outcome.retryable && (a.decision.Refuse? || a.decision.Allow?) ==>
                  t.result == if p.raiseOnStatus then Raised(RetryError) else Returned(a.outcome.response))
  {
    var n := LoopIs(p, left, 0, connect);
  }

  /** The timeouts of every call: never longer than before, positive, and within the budget. */
  lemma TimeBudget(p: Plan, left: nat, connect: real, j: nat)
    requires Monotone(p.clock) && j < |Sent(p, left, connect).calls|
    ensures var call := Sent(p, left, connect).calls[j];
            && call.read == ReadAt(p, j) && call.connect == ConnectAt(p, connect, j)
            && p.clock(j) + call.read == p.clock(0) + p.readTimeout
            && (connect > 0.0 && p.readTimeout > 0.0 ==> call.connect > 0.0 && call.read > 0.0)
            && (j > 0 ==> call.connect <= call.read)
    ensures forall i :: 0 <= i < j ==>
              var (a, b) := (Sent(p, left, connect).calls[i], Sent(p, left, connect).calls[j]);
              b.read <= a.read && b.connect <= a.connect
  {
    var n := LoopIs(p, left, 0, connect);
    if j > 0 {
      assert GoesOn(p, left, 0, j - 1);
    }
    forall i | 0 <= i < j
      ensures p.clock(i) <= p.clock(j)
    {
    }
  }

  /** If the transport honours its timeouts, no attempt runs past the budget and one connect timeout. */
  lemma EndsInTime(p: Plan, left: nat, connect: real, j: nat, end: real)
    requires Monotone(p.clock) && j < |Sent(p, left, connect).calls|
    requires end <= p.clock(j) + Sent(p, left, connect).calls[j].connect + Sent(p, left, connect).calls[j].read
    ensures end <= p.clock(0) + p.readTimeout + connect
  {
    TimeBudget(p, left, connect, j);
  }

  /**
    With a context deadline, read at `asked` before the loop starts: reads end by the deadline, but for
    the time between asking for it and starting.
   */
  lemma DeadlineKept(p: Plan, left: nat, connect: real, j: nat, deadline: real, asked: real)
    requires Monotone(p.clock) && j < |Sent(p, left, connect).calls|
    requires p.readTimeout <= deadline - asked
    ensures p.clock(j) + Sent(p, left, connect).calls[j].read <= deadline + (p.clock(0) - asked)
  {
    TimeBudget(p, left, connect, j);
  }

  /** Attempt after attempt, the calls go to the urls of the plan. */
  lemma UrlsFollowPlan(p: Plan, left: nat, connect: real, j: nat)
    requires Monotone(p.clock) && j < |Sent(p, left, connect).calls|
    ensures var t := Sent(p, left, connect);
            t.calls[j].url == p.url(j) && |t.calls| - 1 <= t.selections <= |t.calls|
  {
    var n := LoopIs(p, left, 0, connect);
  }
}
