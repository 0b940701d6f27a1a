/**
  The retry loop of the adapter as a function: from a script of what the transport, urllib3's retry
  policy and the clock will do, the calls that are made and how the loop ends.
 */
module Retrying {
  import opened Options

  // ---------- urls and backends

  datatype Url = Url(scheme: string, netloc: string, path: string, query: string, fragment: string)

  datatype Backend = Backend(scheme: string, netloc: string)

  /** The original url, sent to a backend. */
  function Rewritten(original: Url, backend: Backend): Url {
    original.(scheme := backend.scheme, netloc := backend.netloc)
  }

  // ---------- the script

  datatype Response = Response(id: nat, status: int)

  /**
    What one transport call does. `retryable` is the policy's verdict on a response, from its method,
    status and Retry-After header; `wrapped` says that a connection error carries the error below it.
   */
  datatype Outcome =
    | Answered(response: Response, retryable: bool)
    | ConnectionFailed(id: nat, wrapped: bool)
    | ReadTimedOut(id: nat)
    | OtherFailure(id: nat)

  /**
    What the policy does when asked to count one more retry: allow it and lower its counter, refuse with
    MaxRetryError, raise the given error again, or raise another exception.
   */
  datatype Decision = Allow(drop: nat) | Refuse | Reraise | Break(id: nat)

  datatype Attempt = Attempt(outcome: Outcome, decision: Decision)

  datatype Exn =
    | ConnectionError(id: nat)
    | TransportReadTimeout(id: nat)
    | TransportFailure(id: nat)
    | NothingWrapped
    | PolicyError(decision: Decision)
    | RetryError
    | BudgetSpent(after: Option<Response>)
    | DeadlineExceeded
    | BadTimeout

  datatype Result = Returned(response: Response) | Raised(error: Exn)

  datatype Call = Call(url: Url, connect: real, read: real)

  // ---------- one verdict

  /** The counter after an allowed retry, if the policy allows it: it can not without lowering its counter. */
  function Counted(left: nat, decision: Decision): Option<nat> {
    if decision.Allow? && 0 < decision.drop <= left then Some(left - decision.drop) else None
  }

  /** A policy with nothing left refuses. */
  function Refusal(decision: Decision): Decision {
    if decision.Allow? then Refuse else decision
  }

  datatype Verdict = Stop(result: Result) | Again(left: nat, response: Option<Response>)

  function Judge(a: Attempt, left: nat, raiseOnStatus: bool): Verdict {
    match a.outcome
    case ReadTimedOut(id) => Stop(Raised(TransportReadTimeout(id)))
    case OtherFailure(id) => Stop(Raised(TransportFailure(id)))
    case ConnectionFailed(id, wrapped) =>
      if !wrapped then Stop(Raised(NothingWrapped))
      else if Counted(left, a.decision).Some? then Again(Counted(left, a.decision).value, None)
      else if Refusal(a.decision).Break? then Stop(Raised(PolicyError(a.decision)))
      else Stop(Raised(ConnectionError(id)))
    case Answered(response, retryable) =>
      if !retryable then Stop(Returned(response))
      else if Counted(left, a.decision).Some? then Again(Counted(left, a.decision).value, Some(response))
      else if !Refusal(a.decision).Refuse? then Stop(Raised(PolicyError(a.decision)))
      else if raiseOnStatus then Stop(Raised(RetryError))
      else Stop(Returned(response))
  }

  // ---------- the loop

  function Min(a: real, b: real): real {
    if a <= b then a else b
  }

  function Max(a: real, b: real): real {
    if a <= b then b else a
  }

  /**
    One send: its script, the url each attempt goes to, the clock reading made before each attempt (the
    first one is the start), the read timeout that is the budget, and the policy's `raise_on_status`.
   */
  datatype Plan = Plan(
    script: nat -> Attempt,
    url: nat -> Url,
    clock: nat -> real,
    readTimeout: real,
    raiseOnStatus: bool)

  datatype Trace = Trace(calls: seq<Call>, result: Result, selections: nat)

  function BudgetLeft(p: Plan, i: nat): real {
    Max(0.0, p.readTimeout - (p.clock(i) - p.clock(0)))
  }

  /** Attempt `i` and those after it. */
  function Loop(p: Plan, left: nat, i: nat, connect: real, read: real): Trace
    decreases left
  {
    var call := Call(p.url(i), connect, read);
    match Judge(p.script(i), left, p.raiseOnStatus)
    case Stop(result) => Trace([call], result, 0)
    case Again(left', response) =>
      var budget := BudgetLeft(p, i + 1);
      if Min(read, budget) <= 0.0 then Trace([call], Raised(BudgetSpent(response)), 1)
      else
        var rest := Loop(p, left', i + 1, Min(connect, budget), Min(read, budget));
        Trace([call] + rest.calls, rest.result, 1 + rest.selections)
  }

  /** One turn of the loop, given the verdict on its attempt. */
  lemma LoopStep(p: Plan, left: nat, i: nat, connect: real, read: real, v: Verdict)
    requires v == Judge(p.script(i), left, p.raiseOnStatus)
    ensures var t := Loop(p, left, i, connect, read);
            var call := Call(p.url(i), connect, read);
            var (c, r) := (Min(connect, BudgetLeft(p, i + 1)), Min(read, BudgetLeft(p, i + 1)));
            match v
            case Stop(result) => t == Trace([call], result, 0)
            case Again(left', response) =>
              && left' < left
              && if r <= 0.0 then t == Trace([call], Raised(BudgetSpent(response)), 1)
                 else
                   var rest := Loop(p, left', i + 1, c, r);
                   t == Trace([call] + rest.calls, rest.result, 1 + rest.selections)
  {
  }

  ghost predicate Monotone(clock: nat -> real) {
    forall i: nat, j: nat :: i <= j ==> clock(i) <= clock(j)
  }
}
