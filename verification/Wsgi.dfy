/** The wrapper of one WSGI request and its response, and the table of requests in flight. */
module Wsgi {
  import opened Options
  import opened InFlightTable

  // ---------- the application and the server

  type Chunk = string

  /** What can be raised. `Interrupt` stands for the exceptions that are neither Exception nor SystemExit. */
  datatype Exn =
    | StopIteration
    | GeneratorExit
    | Error(id: nat, requestTimeout: bool)
    | HandlerFailed
    | IterNotSet
    | SystemExit(code: int)
    | Interrupt(id: nat)

  predicate IsException(e: Exn) {
    e.StopIteration? || e.Error? || e.HandlerFailed? || e.IterNotSet?
  }

  predicate IsRequestTimeout(e: Exn) {
    e.Error? && e.requestTimeout
  }

  /** A call of start_response by the application. */
  datatype Start = Start(code: nat, exc: Option<Exn>)

  datatype Pull = Got(chunk: Chunk) | Threw(error: Exn)

  /** One `next` on the application's iterator: the start_response calls made meanwhile, and what comes of it. */
  datatype AppStep = AppStep(starts: seq<Start>, pull: Pull)

  /** The iterator in use: none yet, the application's, or one over given chunks. */
  datatype Iter = Unset | App(steps: seq<AppStep>) | Static(chunks: seq<Chunk>)

  /**
    What surrounds the request: what the server's start_response raises at its nth call, if anything, what
    the error handler renders, if it does not fail, and what closing the application's iterator raises.
   */
  datatype Env = Env(server: nat -> Option<Exn>, errorBody: Option<Chunk>, closing: Option<Exn>)

  /** A call of the server's start_response. */
  datatype Forward = Forward(status: Option<nat>, exc: Option<Exn>)

  /**
    The log record of a finished request, and, for its specification, what the server had last been told
    and the chunks that had been returned.
   */
  datatype Logged = Logged(statusCode: nat, length: nat, timedOut: bool, exc: Option<Exn>,
                           sent: Option<Option<nat>>, late: bool, chunks: seq<Chunk>)

  /**
    The request object. History: the server's start_response calls, the log records, the chunks returned,
    and whether the application called start_response after something had been forwarded.
   */
  datatype Request = Request(
    status: Option<nat>, statusCode: nat, excInfo: Option<Exn>, iter: Iter, contentLength: nat,
    called: bool, closed: bool, timedOut: bool,
    forwarded: seq<Forward>, finished: seq<Logged>, returned: seq<Chunk>, late: bool)

  const FRESH := Request(None, 0, None, Unset, 0, false, false, false, [], [], [], false)

  // ---------- the methods, as functions

  function Started(s: Request, start: Start): Request {
    s.(status := Some(start.code), statusCode := start.code, excInfo := start.exc, late := s.late || s.forwarded != [])
  }

  function AllStarted(s: Request, starts: seq<Start>): Request {
    if starts == [] then s else Started(AllStarted(s, starts[..|starts| - 1]), starts[|starts| - 1])
  }

  function CallServer(s: Request, env: Env): (Request, Option<Exn>) {
    var raised := env.server(|s.forwarded|);
    (s.(forwarded := s.forwarded + [Forward(s.status, s.excInfo)], called := s.called || raised.None?), raised)
  }

  function PullIter(s: Request): (Request, Pull) {
    match s.iter
    case App(steps) =>
      if steps == [] then (s, Threw(StopIteration))
      else (AllStarted(s.(iter := App(steps[1..])), steps[0].starts), steps[0].pull)
    case Static(chunks) =>
      if chunks == [] then (s, Threw(StopIteration)) else (s.(iter := Static(chunks[1..])), Got(chunks[0]))
    case Unset => (s, Threw(IterNotSet))
  }

  /** `error`: the error response is announced to the server; its body is what is left to send. */
  function ErrorResponse(s: Request, env: Env, e: Exn): (Request, Pull) {
    if env.errorBody.None? then (s, Threw(HandlerFailed))
    else
      var (t, raised) := CallServer(s.(status := Some(500), statusCode := 500, excInfo := Some(e)), env);
      (t, if raised.Some? then Threw(raised.value) else Got(env.errorBody.value))
  }

  function LastSent(forwarded: seq<Forward>): Option<Option<nat>> {
    if forwarded == [] then None else Some(forwarded[|forwarded| - 1].status)
  }

  function Record(s: Request): Logged {
    Logged(s.statusCode, s.contentLength, s.timedOut, s.excInfo, LastSent(s.forwarded), s.late, s.returned)
  }

  function Finish(s: Request, timeout: bool): Request {
    var t := s.(timedOut := s.timedOut || timeout);
    t.(finished := t.finished + [Record(t)])
  }

  function Close(s: Request, env: Env): (Request, Option<Exn>) {
    if s.closed then (s, None)
    else (Finish(s, false).(closed := true), if s.iter.App? then env.closing else None)
  }

  /** The next item, announced first if the application has been lazy: the innermost try of `__next__`. */
  function PullAndCall(s: Request, env: Env): (Request, Pull) {
    var (t, p) := PullIter(s);
    if p.Threw? || t.called then (t, p)
    else
      var (u, raised) := CallServer(t, env);
      (u, if raised.Some? then Threw(raised.value) else p)
  }

  /** The exception is noted, and an error response takes over. */
  function Switched(s: Request, env: Env, e: Exn): (Request, Pull) {
    ErrorResponse(s.(excInfo := Some(e), timedOut := s.timedOut || IsRequestTimeout(e)), env, e)
  }

  /** The handlers of that try. */
  function Recover(s: Request, env: Env, e: Exn): (Request, Pull) {
    if e.StopIteration? || e.GeneratorExit? then
      if s.called then (s, Threw(e))
      else
        var (t, raised) := CallServer(s, env);
        (t, Threw(if raised.Some? then raised.value else e))
    else if IsException(e) then
      var (t, p) := Switched(s, env, e);
      (if p.Got? then t.(iter := Static([])) else t, p)
    else if e.SystemExit? && e.code != 0 then (s.(excInfo := Some(e)), Threw(e))
    else (s, Threw(e))
  }

  function Tried(s: Request, env: Env): (Request, Pull) {
    var (t, p) := PullAndCall(s, env);
    if p.Got? then (t, p) else Recover(t, env, p.error)
  }

  predicate EndsRequest(e: Exn) {
    IsException(e) || e.SystemExit?
  }

  /** What precedes the try block: an eager application's status is forwarded. */
  function Announce(s: Request, env: Env): (Request, Option<Exn>) {
    if s.status.Some? && !s.called then CallServer(s, env) else (s, None)
  }

  /** An exception leaves the try block: the request is over, unless it is one that nothing here catches. */
  function Ended(s: Request, env: Env, e: Exn): (Request, Pull) {
    if EndsRequest(e) then
      var (t, closing) := Close(s, env);
      (t, Threw(if closing.Some? then closing.value else e))
    else (s, Threw(e))
  }

  /** The try block and what follows it. */
  function Iterate(s: Request, env: Env): (Request, Pull) {
    var (t, p) := Tried(s, env);
    match p
    case Got(chunk) => (Counted(t, chunk), p)
    case Threw(e) => Ended(t, env, e)
  }

  function Counted(s: Request, chunk: Chunk): Request {
    s.(contentLength := s.contentLength + |chunk|, returned := s.returned + [chunk])
  }

  function Next(s: Request, env: Env): (Request, Pull) {
    if s.iter.Unset? then (s, Threw(IterNotSet))
    else
      var (t, raised) := Announce(s, env);
      if raised.Some? then (t, Threw(raised.value)) else Iterate(t, env)
  }

  /** What calling the application leads to. */
  datatype AppResult = Iterable(steps: seq<AppStep>) | FileWrapper(size: nat) | Fails(error: Exn)

  datatype Reply = Wrapped | File | Escaped(error: Exn)

  /** The end of the middleware's `__call__`, from calling the application on. */
  function Handle(env: Env, starts: seq<Start>, result: AppResult): (Request, Reply) {
    var s := AllStarted(FRESH, starts);
    match result
    case Iterable(steps) => (s.(iter := App(steps)), Wrapped)
    case FileWrapper(size) =>
      var (t, raised) := CallServer(s.(contentLength := size), env);
      (t, if raised.Some? then Escaped(raised.value) else File)
    case Fails(e) => Failed(s, env, e)
  }

  /** The application raises instead of answering. */
  function Failed(s: Request, env: Env, e: Exn): (Request, Reply) {
    if IsException(e) then
      var (t, p) := Switched(s, env, e);
      if p.Got? then (t.(iter := Static([p.chunk])), Wrapped) else (t, Escaped(p.error))
    else if e.SystemExit? && e.code != 0 then (Finish(s.(excInfo := Some(e)), false), Escaped(e))
    else (s, Escaped(e))
  }

  // ---------- what pulling an item leaves alone

  lemma {:induction false} StartsKeep(s: Request, starts: seq<Start>)
    ensures var t := AllStarted(s, starts);
            && t.iter == s.iter && t.contentLength == s.contentLength && t.called == s.called && t.closed == s.closed
            && t.forwarded == s.forwarded && t.finished == s.finished && t.returned == s.returned
            && t.timedOut == s.timedOut
            && (starts != [] ==> t.status.Some?) && (starts == [] ==> t == s)
            && (s.statusCode == Code(s.status) ==> t.statusCode == Code(t.status))
            && (t.late <==> s.late || (starts != [] && s.forwarded != []))
            && (!t.late && s.forwarded != [] ==> t.status == s.status)
            && (s.status.Some? ==> t.status.Some?)
  {
    if starts != [] {
      StartsKeep(s, starts[..|starts| - 1]);
    }
  }

  /** The code of a status line; zero before there is one. */
  function Code(status: Option<nat>): nat {
    if status.Some? then status.value else 0
  }

  /** Nothing was finished, returned or counted in between. */
  predicate SameRecord(s: Request, t: Request) {
    t.closed == s.closed && t.finished == s.finished && t.returned == s.returned && t.contentLength == s.contentLength
  }

  lemma PullKeeps(s: Request)
    ensures SameRecord(s, PullIter(s).0)
  {
    if s.iter.App? && s.iter.steps != [] {
      StartsKeep(s.(iter := App(s.iter.steps[1..])), s.iter.steps[0].starts);
    }
  }

  lemma CallKeeps(s: Request, env: Env)
    ensures SameRecord(s, CallServer(s, env).0)
  {
  }

  lemma RecoverKeeps(s: Request, env: Env, e: Exn)
    ensures SameRecord(s, Recover(s, env, e).0)
  {
  }

  lemma TriedKeeps(s: Request, env: Env)
    ensures SameRecord(s, Tried(s, env).0)
  {
    var (t, p) := PullIter(s);
    PullKeeps(s);
    CallKeeps(t, env);
    var (u, q) := PullAndCall(s, env);
    if q.Threw? {
      RecoverKeeps(u, env, q.error);
    }
  }

  // ---------- the objects

  /** One more record, of a request cut short by `exit`. */
  predicate TimedOutOnce(before: seq<Logged>, after: seq<Logged>, exit: Exn) {
    |after| == |before| + 1 && before <= after && after[|before|].timedOut && after[|before|].exc == Some(exit)
  }

  /** The module-level table REQUESTS. */
  class InFlight {
    var requests: map<RequestId, TaliskerWSGIRequest>

    constructor ()
      ensures requests == map[]
    {
      requests := map[];
    }

    /** Track a request, unless its id is in use already. */
    method Begin(request: TaliskerWSGIRequest)
      modifies this
      ensures requests == Tracked(old(requests), request.rid, request)
    {
      if request.rid !in requests {
        requests := requests[request.rid := request];
      }
    }

    /**
      The worker-exit hook. Every request in the table is finished once, as timed out, with the exception of
      the hook; afterwards only a request with an empty id, which is never taken out, can be in the table.
     */
    method FinishAll(exit: Exn, ghost all: set<TaliskerWSGIRequest>)
      requires forall k :: k in requests ==> requests[k].rid == k && requests[k].table == this && requests[k] in all
      modifies this, all
      ensures forall k :: k in old(requests) ==>
                TimedOutOnce(old(requests[k].finished), old(requests)[k].finished, exit)
      ensures requests == old(requests) - (old(requests).Keys - {Empty})
    {
      var todo := requests.Keys;
      ghost var before := requests;
      while todo != {}
        invariant todo <= before.Keys
        invariant forall k :: k in requests <==> k in before && (k in todo || k == Empty)
        invariant forall k :: k in requests ==> requests[k] == before[k]
        invariant forall k :: k in before && k !in todo ==>
                    TimedOutOnce(old(before[k].finished), before[k].finished, exit)
        invariant forall k :: k in todo ==> before[k].finished == old(before[k].finished)
        decreases todo
      {
        var rid :| rid in todo;
        assert forall k :: k in before && k != rid ==> before[k] != before[rid];
        todo := todo - {rid};
        FinishOne(rid, exit);
      }
    }

    method FinishOne(rid: RequestId, exit: Exn)
      requires rid in requests && requests[rid].rid == rid && requests[rid].table == this
      modifies this, requests[rid]
      ensures old(requests)[rid].View() == Finish(old(requests[rid].View()).(excInfo := Some(exit)), true)
      ensures TimedOutOnce(old(requests[rid].finished), old(requests)[rid].finished, exit)
      ensures requests == Untracked(old(requests), rid)
    {
      var request := requests[rid];
      request.excInfo := Some(exit);
      request.FinishRequest(true);
    }
  }

  class TaliskerWSGIRequest {
    const rid: RequestId
    const env: Env
    const table: InFlight
    var status: Option<nat>
    var statusCode: nat
    var excInfo: Option<Exn>
    var iter: Iter
    var contentLength: nat
    var startResponseCalled: bool
    var closed: bool
    var timedOut: bool
    var forwarded: seq<Forward>
    var finished: seq<Logged>
    var returned: seq<Chunk>
    var late: bool

    constructor (rid: RequestId, env: Env, table: InFlight)
      ensures this.rid == rid && this.env == env && this.table == table && View() == FRESH
    {
      this.rid, this.env, this.table := rid, env, table;
      status, statusCode, excInfo, iter, contentLength := None, 0, None, Unset, 0;
      startResponseCalled, closed, timedOut := false, false, false;
      forwarded, finished, returned, late := [], [], [], false;
    }

    function View(): Request
      reads this
    {
      Request(status, statusCode, excInfo, iter, contentLength, startResponseCalled, closed, timedOut,
              forwarded, finished, returned, late)
    }

    method StartResponse(start: Start)
      modifies this
      ensures View() == Started(old(View()), start)
    {
      status, statusCode, excInfo := Some(start.code), start.code, start.exc;
      late := late || forwarded != [];
    }

    method CallStartResponse() returns (raised: Option<Exn>)
      modifies this
      ensures (View(), raised) == CallServer(old(View()), env)
    {
      raised := env.server(|forwarded|);
      forwarded := forwarded + [Forward(status, excInfo)];
      if raised.None? {
        startResponseCalled := true;
      }
    }

    /** `next(self.iter)`. */
    method PullFromIter() returns (p: Pull)
      modifies this
      ensures (View(), p) == PullIter(old(View()))
    {
      match iter {
        case App(steps) =>
          if steps == [] {
            return Threw(StopIteration);
          }
          iter := App(steps[1..]);
          var starts := steps[0].starts;
          ghost var s := View();
          for i := 0 to |starts|
            invariant View() == AllStarted(s, starts[..i])
          {
            StartResponse(starts[i]);
            assert starts[..i + 1][..i] == starts[..i];
          }
          assert starts[..|starts|] == starts;
          return steps[0].pull;
        case Static(chunks) =>
          if chunks == [] {
            return Threw(StopIteration);
          }
          iter := Static(chunks[1..]);
          return Got(chunks[0]);
        case Unset =>
          return Threw(IterNotSet);
      }
    }

    method RespondError(e: Exn) returns (p: Pull)
      modifies this
      ensures (View(), p) == ErrorResponse(old(View()), env, e)
    {
      if env.errorBody.None? {
        return Threw(HandlerFailed);
      }
      status, statusCode, excInfo := Some(500), 500, Some(e);
      var raised := CallStartResponse();
      p := if raised.Some? then Threw(raised.value) else Got(env.errorBody.value);
    }

    method SwitchToError(e: Exn) returns (p: Pull)
      modifies this
      ensures (View(), p) == Switched(old(View()), env, e)
    {
      excInfo := Some(e);
      if IsRequestTimeout(e) {
        timedOut := true;
      }
      p := RespondError(e);
    }

    method FinishRequest(timeout: bool)
      modifies this, table
      ensures View() == Finish(old(View()), timeout)
      ensures table.requests == Untracked(old(table.requests), rid)
    {
      if timeout {
        timedOut := true;
      }
      finished := finished + [
        Logged(statusCode, contentLength, timedOut, excInfo, LastSent(forwarded), late, returned)];
      if rid != Empty {
        table.requests := table.requests - {rid};
      }
    }

    method CloseResponse() returns (raised: Option<Exn>)
      modifies this, table
      ensures (View(), raised) == Close(old(View()), env)
      ensures table.requests
              == if old(closed) then old(table.requests) else Untracked(old(table.requests), rid)
    {
      if closed {
        return None;
      }
      raised := if iter.App? then env.closing else None;
      FinishRequest(false);
      closed := true;
    }

    /** The handlers around the middleware's call of the application. */
    method AppFailed(e: Exn) returns (reply: Reply)
      modifies this, table
      ensures (View(), reply) == Failed(old(View()), env, e)
      ensures table.requests
              == if finished == old(finished) then old(table.requests) else Untracked(old(table.requests), rid)
    {
      if IsException(e) {
        var p := SwitchToError(e);
        if p.Threw? {
          return Escaped(p.error);
        }
        iter := Static([p.chunk]);
        return Wrapped;
      }
      if e.SystemExit? && e.code != 0 {
        excInfo := Some(e);
        FinishRequest(false);
      }
      return Escaped(e);
    }

    /** The try of `__next__` with its inner handlers. */
    method TryNext() returns (p: Pull)
      modifies this
      ensures (View(), p) == Tried(old(View()), env)
    {
      p := PullFromIter();
      if p.Got? {
        if startResponseCalled {
          return p;
        }
        var raised := CallStartResponse();
        if raised.None? {
          return p;
        }
        p := Threw(raised.value);
      }
      p := HandleError(p.error);
    }

    method HandleError(e: Exn) returns (p: Pull)
      modifies this
      ensures (View(), p) == Recover(old(View()), env, e)
    {
      if e.StopIteration? || e.GeneratorExit? {
        if !startResponseCalled {
          var raised := CallStartResponse();
          if raised.Some? {
            return Threw(raised.value);
          }
        }
        return Threw(e);
      } else if IsException(e) {
        p := SwitchToError(e);
        if p.Got? {
          iter := Static([]);
        }
      } else {
        if e.SystemExit? && e.code != 0 {
          excInfo := Some(e);
        }
        return Threw(e);
      }
    }

    /** `__next__`. */
    method NextChunk() returns (p: Pull)
      modifies this, table
      ensures (View(), p) == Next(old(View()), env)
      ensures table.requests
              == if closed == old(closed) then old(table.requests) else Untracked(old(table.requests), rid)
    {
      if iter.Unset? {
        return Threw(IterNotSet);
      }
      var raised := AnnounceStatus();
      if raised.Some? {
        return Threw(raised.value);
      }
      TriedKeeps(View(), env);
      p := TryNext();
      match p {
        case Got(chunk) =>
          contentLength := contentLength + |chunk|;
          returned := returned + [chunk];
        case Threw(e) =>
          p := EndIteration(e);
      }
    }

    method AnnounceStatus() returns (raised: Option<Exn>)
      modifies this
      ensures (View(), raised) == Announce(old(View()), env)
      ensures closed == old(closed)
    {
      raised := None;
      if status.Some? && !startResponseCalled {
        raised := CallStartResponse();
      }
    }

    method EndIteration(e: Exn) returns (p: Pull)
      modifies this, table
      ensures (View(), p) == Ended(old(View()), env, e)
      ensures table.requests
              == if closed == old(closed) then old(table.requests) else Untracked(old(table.requests), rid)
    {
      p := Threw(e);
      if EndsRequest(e) {
        var closing := CloseResponse();
        if closing.Some? {
          p := Threw(closing.value);
        }
      }
    }
  }

  /** The middleware's `__call__`: track the request, call the application, and wrap what it answers. */
  method Call(rid: RequestId, env: Env, table: InFlight, starts: seq<Start>, result: AppResult)
    returns (request: TaliskerWSGIRequest, reply: Reply)
    modifies table
    ensures fresh(request) && request.rid == rid && request.env == env && request.table == table
    ensures (request.View(), reply) == Handle(env, starts, result)
    ensures var tracked := Tracked(old(table.requests), rid, request);
            table.requests == if request.finished == [] then tracked else Untracked(tracked, rid)
  {
    request := new TaliskerWSGIRequest(rid, env, table);
    table.Begin(request);
    ghost var tracked := table.requests;
    for i := 0 to |starts|
      invariant table.requests == tracked
      invariant fresh(request) && request.View() == AllStarted(FRESH, starts[..i])
    {
      request.StartResponse(starts[i]);
      assert starts[..i + 1][..i] == starts[..i];
    }
    assert starts[..|starts|] == starts;
    StartsKeep(FRESH, starts);
    match result {
      case Iterable(steps) =>
        request.iter := App(steps);
        reply := Wrapped;
      case FileWrapper(size) =>
        request.contentLength := size;
        var raised := request.CallStartResponse();
        reply := if raised.Some? then Escaped(raised.value) else File;
      case Fails(e) =>
        reply := request.AppFailed(e);
    }
  }
}
