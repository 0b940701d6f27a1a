/** What a wrapped WSGI response promises the server and the log. */
module WsgiTheorems {
  import opened Options
  import opened Wsgi

  function Total(chunks: seq<Chunk>): nat {
    if chunks == [] then 0 else Total(chunks[..|chunks| - 1]) + |chunks[|chunks| - 1]|
  }

  /** The request is logged once, when it is closed. */
  predicate FinishedOnce(s: Request) {
    |s.finished| == if s.closed then 1 else 0
  }

  /** Some call of the server's start_response has succeeded. */
  ghost predicate Announced(s: Request, env: Env) {
    exists i :: 0 <= i < |s.forwarded| && Accepted(env, i)
  }

  predicate Accepted(env: Env, i: nat) {
    env.server(i).None?
  }

  /** After the server's first call of start_response succeeded, every other call carries exc_info. */
  predicate LaterCallsCarryExc(s: Request, env: Env) {
    Accepted(env, 0) ==>
      && (s.forwarded != [] ==> s.called)
      && forall i :: 1 <= i < |s.forwarded| ==> s.forwarded[i].exc.Some?
  }

  /** Unless the application changes its mind too late, the status of the request is the one last sent. */
  predicate StatusIsSent(s: Request) {
    && s.statusCode == Code(s.status)
    && (!s.late && s.forwarded != [] ==> s.forwarded[|s.forwarded| - 1].status == s.status)
  }

  predicate LogIsSent(s: Request) {
    forall i :: 0 <= i < |s.finished| && !s.finished[i].late && s.finished[i].sent.Some? ==>
                  s.finished[i].statusCode == Code(s.finished[i].sent.value)
  }

  /** What is logged is the length of the chunks returned by then. */
  predicate LogIsLength(s: Request) {
    forall i :: 0 <= i < |s.finished| ==>
                  s.finished[i].length == Total(s.finished[i].chunks) && s.finished[i].chunks <= s.returned
  }

  /** The application has called start_response, or will while its first item is pulled. */
  predicate Prompt(s: Request) {
    s.status.Some? || (s.iter.App? && s.iter.steps != [] && s.iter.steps[0].starts != [])
  }

  predicate SentStatuses(s: Request) {
    forall i :: 0 <= i < |s.forwarded| ==> s.forwarded[i].status.Some?
  }

  /** What holds between the steps that forward something to the server. */
  ghost predicate Talk(s: Request, env: Env) {
    && !s.iter.Unset?
    && (s.called ==> Announced(s, env))
    && LaterCallsCarryExc(s, env)
    && StatusIsSent(s)
  }

  /** What holds between the server's calls of `next` and `close`. */
  ghost predicate Ok(s: Request, env: Env) {
    && Talk(s, env)
    && FinishedOnce(s) && LogIsSent(s) && LogIsLength(s)
    && s.contentLength == Total(s.returned)
    && (s.returned != [] ==> s.called)
  }

  // ---------- steps that forward

  lemma PullTalk(s: Request, env: Env)
    requires Talk(s, env)
    ensures Talk(PullIter(s).0, env)
    ensures PullIter(s).0.called == s.called && PullIter(s).0.forwarded == s.forwarded
    ensures Prompt(s) ==> PullIter(s).0.status.Some?
  {
    if s.iter.App? && s.iter.steps != [] {
      StartsKeep(s.(iter := App(s.iter.steps[1..])), s.iter.steps[0].starts);
    }
  }

  /** A call of start_response keeps the promises, if it is the first one or carries exc_info. */
  lemma CallTalk(s: Request, env: Env)
    requires !s.iter.Unset? && s.statusCode == Code(s.status)
    requires s.called ==> Announced(s, env)
    requires LaterCallsCarryExc(s, env)
    requires s.called ==> s.excInfo.Some?
    ensures Talk(CallServer(s, env).0, env)
    ensures CallServer(s, env).1.None? ==> CallServer(s, env).0.called
  {
    var (t, raised) := CallServer(s, env);
    var n := |s.forwarded|;
    if raised.None? {
      assert Accepted(env, n) && n < |t.forwarded|;
    } else if s.called {
      var i :| 0 <= i < |s.forwarded| && Accepted(env, i);
      assert i < |t.forwarded|;
    }
    if Accepted(env, 0) && n == 0 {
      assert raised.None?;
    }
  }

  lemma ErrorTalk(s: Request, env: Env, e: Exn)
    requires Talk(s, env)
    ensures var (t, p) := ErrorResponse(s, env, e);
            Talk(t, env) && (p.Got? ==> t.called)
  {
    if env.errorBody.Some? {
      CallTalk(s.(status := Some(500), statusCode := 500, excInfo := Some(e)), env);
    }
  }

  lemma RecoverTalk(s: Request, env: Env, e: Exn)
    requires Talk(s, env)
    ensures var (t, p) := Recover(s, env, e);
            Talk(t, env) && (p.Got? ==> t.called)
  {
    if (e.StopIteration? || e.GeneratorExit?) && !s.called {
      CallTalk(s, env);
    } else if IsException(e) {
      var u := s.(excInfo := Some(e), timedOut := s.timedOut || IsRequestTimeout(e));
      assert Talk(u, env);
      ErrorTalk(u, env, e);
    }
  }

  lemma TriedTalk(s: Request, env: Env)
    requires Talk(s, env)
    ensures var (t, p) := Tried(s, env);
            Talk(t, env) && (p.Got? ==> t.called)
  {
    var (t, p) := PullIter(s);
    PullTalk(s, env);
    if p.Got? && !t.called {
      CallTalk(t, env);
    }
    var (u, q) := PullAndCall(s, env);
    if q.Threw? {
      RecoverTalk(u, env, q.error);
    }
  }

  // ---------- statuses are there to be sent

  lemma CallStatuses(s: Request, env: Env)
    requires s.status.Some? && SentStatuses(s)
    ensures var t := CallServer(s, env).0; t.status.Some? && SentStatuses(t)
  {
  }

  lemma RecoverStatuses(s: Request, env: Env, e: Exn)
    requires s.status.Some? && SentStatuses(s)
    ensures var t := Recover(s, env, e).0; t.status.Some? && SentStatuses(t)
  {
    if IsException(e) {
      CallStatuses(s.(status := Some(500), statusCode := 500, excInfo := Some(e),
                      timedOut := s.timedOut || IsRequestTimeout(e)), env);
    }
  }

  lemma TriedStatuses(s: Request, env: Env)
    requires Prompt(s) && SentStatuses(s)
    ensures var t := Tried(s, env).0; t.status.Some? && SentStatuses(t)
  {
    var t := PullIter(s).0;
    if s.iter.App? && s.iter.steps != [] {
      StartsKeep(s.(iter := App(s.iter.steps[1..])), s.iter.steps[0].starts);
    }
    CallStatuses(t, env);
    var (u, q) := PullAndCall(s, env);
    if q.Threw? {
      RecoverStatuses(u, env, q.error);
    }
  }

  // ---------- next and close

  lemma CloseOk(s: Request, env: Env)
    requires Ok(s, env)
    ensures Ok(Close(s, env).0, env) && Close(s, env).0.closed
    ensures Prompt(s) ==> Prompt(Close(s, env).0)
    ensures SentStatuses(s) ==> SentStatuses(Close(s, env).0)
  {
  }

  lemma AnnounceTalk(s: Request, env: Env)
    requires Talk(s, env)
    ensures var t := Announce(s, env).0;
            && Talk(t, env) && SameRecord(s, t)
            && t.iter == s.iter && t.status == s.status && (s.called ==> t.called)
            && (SentStatuses(s) ==> SentStatuses(t))
  {
    if s.status.Some? && !s.called {
      CallTalk(s, env);
    }
  }

  lemma {:induction false} TriedCalled(s: Request, env: Env)
    requires s.called
    ensures Tried(s, env).0.called
  {
    if s.iter.App? && s.iter.steps != [] {
      StartsKeep(s.(iter := App(s.iter.steps[1..])), s.iter.steps[0].starts);
    }
  }

  lemma GotOk(s: Request, env: Env, chunk: Chunk)
    requires Ok(s, env) && s.called
    ensures Ok(Counted(s, chunk), env)
  {
  }

  lemma SameRecordOk(s: Request, t: Request, env: Env)
    requires Ok(s, env) && SameRecord(s, t) && Talk(t, env) && (s.called ==> t.called)
    ensures Ok(t, env)
  {
  }

  lemma TriedOk(s: Request, env: Env)
    requires Ok(s, env)
    ensures var (t, p) := Tried(s, env); Ok(t, env) && (p.Got? ==> t.called)
  {
    TriedTalk(s, env);
    TriedKeeps(s, env);
    if s.called {
      TriedCalled(s, env);
    }
    SameRecordOk(s, Tried(s, env).0, env);
  }

  lemma EndedOk(s: Request, env: Env, e: Exn)
    requires Ok(s, env)
    ensures Ok(Ended(s, env, e).0, env)
  {
  }

  lemma NextOk(s: Request, env: Env)
    requires Ok(s, env)
    ensures Ok(Next(s, env).0, env)
  {
    var (t, raised) := Announce(s, env);
    AnnounceTalk(s, env);
    SameRecordOk(s, t, env);
    if raised.None? {
      IterateOk(t, env);
    }
  }

  lemma IterateOk(s: Request, env: Env)
    requires Ok(s, env)
    ensures Ok(Iterate(s, env).0, env)
  {
    var (t, p) := Tried(s, env);
    TriedOk(s, env);
    match p {
      case Got(chunk) => GotOk(t, env, chunk);
      case Threw(e) => EndedOk(t, env, e);
    }
  }

  lemma NextStatuses(s: Request, env: Env)
    requires Ok(s, env) && Prompt(s) && SentStatuses(s)
    ensures Prompt(Next(s, env).0) && SentStatuses(Next(s, env).0)
  {
    var (t, raised) := Announce(s, env);
    AnnounceTalk(s, env);
    if raised.None? {
      TriedStatuses(t, env);
    }
  }

  // ---------- whole responses

  datatype Op = NextOp | CloseOp

  function Apply(s: Request, env: Env, op: Op): Request {
    if op.NextOp? then Next(s, env).0 else Close(s, env).0
  }

  function Run(s: Request, env: Env, ops: seq<Op>): Request
    decreases |ops|
  {
    if ops == [] then s else Run(Apply(s, env, ops[0]), env, ops[1..])
  }

  lemma {:induction false} RunOk(s: Request, env: Env, ops: seq<Op>)
    requires Ok(s, env)
    ensures Ok(Run(s, env, ops), env)
    ensures Prompt(s) && SentStatuses(s) ==> SentStatuses(Run(s, env, ops))
    decreases |ops|
  {
    if ops != [] {
      if ops[0].NextOp? {
        NextOk(s, env);
        if Prompt(s) && SentStatuses(s) {
          NextStatuses(s, env);
        }
      } else {
        CloseOk(s, env);
      }
      RunOk(Apply(s, env, ops[0]), env, ops[1..]);
    }
  }

  /** A response handed to the server wrapped starts out right. */
  lemma HandledOk(env: Env, starts: seq<Start>, result: AppResult)
    requires Handle(env, starts, result).1.Wrapped?
    ensures Ok(Handle(env, starts, result).0, env) && SentStatuses(Handle(env, starts, result).0)
    ensures Handle(env, starts, result).0.finished == []
  {
    StartsKeep(FRESH, starts);
    var s := AllStarted(FRESH, starts);
    match result {
      case Iterable(_) =>
      case FileWrapper(_) =>
      case Fails(e) =>
        CallTalk(s.(status := Some(500), statusCode := 500, excInfo := Some(e), timedOut := IsRequestTimeout(e),
                    iter := Static([])), env);
    }
  }

  /**
    PEP 3333, "The start_response() Callable". Whatever the application, whenever it raises, and however
    the server mixes `next` and `close`: a chunk is only returned once the server's start_response has been
    called and has succeeded; if its first call succeeds, every later call carries exc_info; and a prompt
    application never makes it be called without a status.
   */
  lemma StartResponseProtocol(env: Env, starts: seq<Start>, result: AppResult, ops: seq<Op>)
    requires Handle(env, starts, result).1.Wrapped?
    ensures var h := Handle(env, starts, result).0;
            var s := Run(h, env, ops);
            && (s.returned != [] ==> Announced(s, env))
            && (Accepted(env, 0) ==> forall i :: 1 <= i < |s.forwarded| ==> s.forwarded[i].exc.Some?)
            && (Prompt(h) ==> SentStatuses(s))
  {
    HandledOk(env, starts, result);
    RunOk(Handle(env, starts, result).0, env, ops);
  }

  /**
    The log: a response is logged at most once, and exactly when it has been closed; what is logged is the
    length of the chunks returned by then, and what is counted that of all; and the logged status is the
    one the server was last given, unless the application called start_response again after that.
   */
  lemma LoggedOnce(env: Env, starts: seq<Start>, result: AppResult, ops: seq<Op>)
    requires Handle(env, starts, result).1.Wrapped?
    ensures var s := Run(Handle(env, starts, result).0, env, ops);
            && |s.finished| == (if s.closed then 1 else 0)
            && s.contentLength == Total(s.returned)
            && (s.closed ==>
                  && s.finished[0].chunks <= s.returned
                  && s.finished[0].length == Total(s.finished[0].chunks)
                  && (!s.finished[0].late && s.finished[0].sent.Some? ==>
                        s.finished[0].statusCode == Code(s.finished[0].sent.value)))
            && (!s.late && s.forwarded != [] ==>
                  s.statusCode == Code(s.forwarded[|s.forwarded| - 1].status))
  {
    HandledOk(env, starts, result);
    RunOk(Handle(env, starts, result).0, env, ops);
  }

  /** A record is added exactly if the response gets closed, and it lists what had been returned. */
  predicate Recording(s: Request, t: Request) {
    && s.returned <= t.returned && (s.closed ==> t.closed)
    && (if t.closed == s.closed then t.finished == s.finished
        else
          && |t.finished| == |s.finished| + 1 && s.finished <= t.finished
          && t.finished[|s.finished|].chunks == s.returned)
  }

  lemma IterateRecords(s: Request, env: Env)
    ensures Recording(s, Iterate(s, env).0)
  {
    TriedKeeps(s, env);
  }

  lemma ApplyRecords(s: Request, env: Env, op: Op)
    ensures Recording(s, Apply(s, env, op)) && (op.CloseOp? ==> Apply(s, env, op).closed)
  {
    if op.NextOp? && !s.iter.Unset? {
      IterateRecords(Announce(s, env).0, env);
    }
  }

  lemma {:induction false} ClosedStays(s: Request, env: Env, ops: seq<Op>)
    requires s.closed
    ensures Run(s, env, ops).closed && Run(s, env, ops).finished == s.finished
    decreases |ops|
  {
    if ops != [] {
      ApplyRecords(s, env, ops[0]);
      ClosedStays(Apply(s, env, ops[0]), env, ops[1..]);
    }
  }

  lemma {:induction false} RunAppend(s: Request, env: Env, a: seq<Op>, b: seq<Op>)
    ensures Run(s, env, a + b) == Run(Run(s, env, a), env, b)
    decreases |a|
  {
    if a == [] {
      assert a + b == b;
    } else {
      assert (a + b)[1..] == a[1..] + b;
      RunAppend(Apply(s, env, a[0]), env, a[1..], b);
    }
  }

  /**
    A close has its effect whatever comes before and after it: from then on the response is closed, its
    one log record never changes, and if nothing had closed it before, that record has the length of all
    the chunks returned before the close.
   */
  lemma CloseHolds(env: Env, starts: seq<Start>, result: AppResult, before: seq<Op>, after: seq<Op>)
    requires Handle(env, starts, result).1.Wrapped?
    ensures var h := Handle(env, starts, result).0;
            var (s, t) := (Run(h, env, before), Run(h, env, before + [CloseOp]));
            var u := Run(h, env, before + [CloseOp] + after);
            && t.closed && u.closed && |u.finished| == 1 && u.finished == t.finished
            && (if s.closed then u.finished == s.finished else u.finished[0].length == Total(s.returned))
  {
    var h := Handle(env, starts, result).0;
    var s, t := Run(h, env, before), Run(h, env, before + [CloseOp]);
    RunAppend(h, env, before, [CloseOp]);
    RunAppend(h, env, before + [CloseOp], after);
    assert t == Run(Apply(s, env, CloseOp), env, [CloseOp][1..]);
    ApplyRecords(s, env, CloseOp);
    ClosedStays(t, env, after);
    LoggedOnce(env, starts, result, before);
    LoggedOnce(env, starts, result, before + [CloseOp]);
  }

  // ---------- the worker-exit hook

  /** What can happen to a response while its worker lives, and as it exits. */
  datatype Happening = Asked(op: Op) | Exit(e: Exn)

  /** A response, whether the table has it, and how often the hook has found it there. */
  datatype Life = Life(s: Request, tracked: bool, exits: nat)

  /**
    Finishing takes a request out of the table unless its id is empty (`sticky`). The hook finishes, as
    `InFlight.FinishOne` does, what it finds there. No other request uses the id.
   */
  function Lived(l: Life, env: Env, sticky: bool, h: Happening): Life {
    match h
    case Asked(op) =>
      var t := Apply(l.s, env, op);
      Life(t, l.tracked && (sticky || t.closed == l.s.closed), l.exits)
    case Exit(e) =>
      if l.tracked then Life(Finish(l.s.(excInfo := Some(e)), true), sticky, l.exits + 1) else l
  }

  function LivedAll(l: Life, env: Env, sticky: bool, hs: seq<Happening>): Life
    decreases |hs|
  {
    if hs == [] then l else LivedAll(Lived(l, env, sticky, hs[0]), env, sticky, hs[1..])
  }

  /** How many records there are, and that the table has the request until there is one. */
  ghost predicate Recorded(l: Life, sticky: bool) {
    && |l.s.finished| == (if l.s.closed then 1 else 0) + l.exits
    && (!sticky ==> (l.tracked <==> l.s.finished == []))
    && (!sticky ==> l.exits <= 1)
    && (!sticky && l.exits == 1 ==> l.s.finished[0].timedOut)
  }

  lemma {:induction false} LivedRecorded(l: Life, env: Env, sticky: bool, hs: seq<Happening>)
    requires Recorded(l, sticky)
    ensures Recorded(LivedAll(l, env, sticky, hs), sticky)
    decreases |hs|
  {
    if hs != [] {
      if hs[0].Asked? {
        ApplyRecords(l.s, env, hs[0].op);
      }
      LivedRecorded(Lived(l, env, sticky, hs[0]), env, sticky, hs[1..]);
    }
  }

  /**
    With the worker-exit hook among the operations a response with an id of its own gets at most two
    records: one from its close, if it is closed, and one timed out, if the hook found it unfinished.
    With an empty id it gets one more each time the hook runs.
   */
  lemma RecordsWithExit(env: Env, starts: seq<Start>, result: AppResult, sticky: bool, hs: seq<Happening>)
    requires Handle(env, starts, result).1.Wrapped?
    ensures var l := LivedAll(Life(Handle(env, starts, result).0, true, 0), env, sticky, hs);
            && |l.s.finished| == (if l.s.closed then 1 else 0) + l.exits
            && (!sticky ==> l.exits <= 1 && (l.exits == 1 ==> l.s.finished[0].timedOut))
            && (!sticky ==> (l.tracked <==> l.s.finished == []))
  {
    HandledOk(env, starts, result);
    LivedRecorded(Life(Handle(env, starts, result).0, true, 0), env, sticky, hs);
  }

  // ---------- the end of a response

  /** An item was asked for inside the try block of `__next__`. */
  predicate CanPull(s: Request, env: Env) {
    !s.iter.Unset? && Announce(s, env).1.None?
  }

  /**
    Once asked for an item, the request is over, and logged, exactly when what leaves the try block is an
    Exception or SystemExit: exhaustion and unrecovered errors, but no GeneratorExit and no interrupt.
   */
  lemma NextCloses(s: Request, env: Env)
    requires Ok(s, env) && !s.closed && CanPull(s, env)
    ensures var p := Tried(Announce(s, env).0, env).1;
            var t := Next(s, env).0;
            t.closed && |t.finished| == 1 <==> p.Threw? && EndsRequest(p.error)
  {
    var (t, raised) := Announce(s, env);
    AnnounceTalk(s, env);
    TriedKeeps(t, env);
  }

  /**
    An exhausted response has been announced, however lazy the application, even with no item at all; it
    is closed, and logged once, whatever was asked of it before, and even if closing the application's
    iterator raises, which is then what the server sees.
   */
  lemma ExhaustionCloses(env: Env, starts: seq<Start>, result: AppResult, ops: seq<Op>)
    requires Handle(env, starts, result).1.Wrapped?
    requires CanPull(Run(Handle(env, starts, result).0, env, ops), env)
    requires Tried(Announce(Run(Handle(env, starts, result).0, env, ops), env).0, env).1 == Threw(StopIteration)
    requires forall i :: env.server(i) != Some(StopIteration)
    ensures var (t, p) := Next(Run(Handle(env, starts, result).0, env, ops), env);
            && t.closed && |t.finished| == 1 && t.called && Announced(t, env)
            && (p == Threw(StopIteration) || (env.closing.Some? && p == Threw(env.closing.value)))
  {
    var s := Run(Handle(env, starts, result).0, env, ops);
    HandledOk(env, starts, result);
    RunOk(Handle(env, starts, result).0, env, ops);
    NextOk(s, env);
    var t := Announce(s, env).0;
    AnnounceTalk(s, env);
    ExhaustedCalled(t, env);
  }

  lemma ExhaustedCalled(s: Request, env: Env)
    requires Talk(s, env) && Tried(s, env).1 == Threw(StopIteration)
    requires forall i :: env.server(i) != Some(StopIteration)
    ensures Tried(s, env).0.called
  {
    var (t, p) := PullAndCall(s, env);
    if p.Threw? {
      assert Tried(s, env) == Recover(t, env, p.error);
    }
  }

  /**
    An application that raises while an item is pulled is answered for: if the handler renders a body and
    the server accepts being told, the item is that body, announced with status 500 and the exception,
    which also becomes the logged status, and a request timeout is noted.
   */
  lemma ErrorAnswered(s: Request, env: Env, e: Exn)
    requires Ok(s, env) && !s.closed && CanPull(s, env)
    requires PullAndCall(Announce(s, env).0, env).1 == Threw(e) && e.Error?
    requires Accepted(env, |PullAndCall(Announce(s, env).0, env).0.forwarded|)
    requires env.errorBody.Some?
    ensures var (t, p) := Next(s, env);
            && p == Got(env.errorBody.value)
            && t.forwarded[|t.forwarded| - 1..] == [Forward(Some(500), Some(e))]
            && t.statusCode == 500 && !t.closed && t.called
            && (IsRequestTimeout(e) ==> t.timedOut)
            && Next(t, env).1.Threw?
  {
    var (u, q) := PullAndCall(Announce(s, env).0, env);
    AnnounceTalk(s, env);
    PullKeeps(Announce(s, env).0);
    CallKeeps(PullIter(Announce(s, env).0).0, env);
    var (v, p) := Recover(u, env, e);
    assert v.iter == Static([]);
  }
}
