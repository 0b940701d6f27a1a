/** What the server gets from an application through the wrapper, and what is logged of it. */
module WsgiContents {
  import opened Options
  import opened Sequences
  import opened Wsgi
  import opened WsgiTheorems

  /** The items among what an application does when it is asked again and again. */
  function Gots(steps: seq<AppStep>): seq<Chunk> {
    if steps == [] then []
    else
      var last := steps[|steps| - 1];
      Gots(steps[..|steps| - 1]) + if last.pull.Got? then [last.pull.chunk] else []
  }

  /** `a` is what is left of `b` when some items are dropped. */
  predicate Within(a: seq<Chunk>, b: seq<Chunk>) {
    if a == [] then true
    else if b == [] then false
    else
      var (m, n) := (|a| - 1, |b| - 1);
      (a[m] == b[n] && Within(a[..m], b[..n])) || Within(a, b[..n])
  }

  predicate Kept(exact: bool, a: seq<Chunk>, b: seq<Chunk>) {
    if exact then a == b else Within(a, b)
  }

  lemma KeptGrows(exact: bool, a: seq<Chunk>, b: seq<Chunk>, c: Chunk)
    requires Kept(exact, a, b)
    ensures Kept(exact, a + [c], b + [c])
    ensures !exact ==> Kept(exact, a, b + [c])
  {
    assert (a + [c])[..|a|] == a && (b + [c])[..|b|] == b;
  }

  lemma GotsGrow(steps: seq<AppStep>, n: nat)
    requires n < |steps|
    ensures Gots(steps[..n + 1])
            == if steps[n].pull.Got? then Gots(steps[..n]) + [steps[n].pull.chunk] else Gots(steps[..n])
  {
    assert steps[..n + 1][..n] == steps[..n];
  }

  /** The server accepts to be told whenever the application was too lazy to be announced before its first item. */
  ghost predicate Heard(s: Request, env: Env) {
    s.called || s.status.Some? || forall i :: Accepted(env, i)
  }

  /** How far the server has got: through `n` steps of the application, or these and the error body. */
  ghost predicate Upto(s: Request, env: Env, steps: seq<AppStep>, exact: bool, n: nat) {
    && n <= |steps|
    && match s.iter
       case App(rest) => rest == steps[n..] && Kept(exact, s.returned, Gots(steps[..n]))
       case Static(chunks) =>
         && chunks == [] && env.errorBody.Some? && s.returned != []
         && s.returned[|s.returned| - 1] == env.errorBody.value
         && Kept(exact, s.returned[..|s.returned| - 1], Gots(steps[..n]))
       case Unset => false
  }

  lemma AnnounceContents(s: Request, env: Env)
    ensures var (t, raised) := Announce(s, env);
            && t.iter == s.iter && t.returned == s.returned && t.status == s.status
            && (s.called ==> t.called)
            && (raised.None? && Heard(s, env) ==> t.called || forall i :: Accepted(env, i))
  {
  }

  /** What pulling an item touches. */
  lemma PullContents(s: Request)
    ensures var (t, p) := PullIter(s);
            && t.returned == s.returned && t.forwarded == s.forwarded && t.called == s.called
            && t.iter == (match s.iter
                          case App(steps) => App(if steps == [] then [] else steps[1..])
                          case Static(chunks) => Static(if chunks == [] then [] else chunks[1..])
                          case Unset => Unset)
            && p == (match s.iter
                     case App(steps) => if steps == [] then Threw(StopIteration) else steps[0].pull
                     case Static(chunks) => if chunks == [] then Threw(StopIteration) else Got(chunks[0])
                     case Unset => Threw(IterNotSet))
  {
    if s.iter.App? && s.iter.steps != [] {
      StartsKeep(s.(iter := App(s.iter.steps[1..])), s.iter.steps[0].starts);
    }
  }

  lemma SwitchedContents(s: Request, env: Env, e: Exn)
    ensures var (t, p) := Switched(s, env, e);
            && t.returned == s.returned && t.iter == s.iter && s.forwarded <= t.forwarded
            && (p.Got? ==> env.errorBody == Some(p.chunk))
  {
  }

  /** What the handlers touch: an item, if there is one, is the error body, and nothing comes after it. */
  lemma RecoverContents(s: Request, env: Env, e: Exn)
    ensures var (t, p) := Recover(s, env, e);
            && t.returned == s.returned && s.forwarded <= t.forwarded
            && (if p.Got? then env.errorBody == Some(p.chunk) && t.iter == Static([]) else t.iter == s.iter)
  {
    SwitchedContents(s, env, e);
  }

  /** What asking for an item touches. */
  lemma TriedContents(s: Request, env: Env)
    ensures var (u, q) := PullIter(s);
            var (t, p) := Tried(s, env);
            && t.returned == s.returned && s.forwarded <= t.forwarded
            && (if q.Got? && (s.called || Accepted(env, |s.forwarded|)) then p == q && t.iter == u.iter && t.called
                else if p.Got? then env.errorBody == Some(p.chunk) && t.iter == Static([])
                else t.iter == u.iter)
  {
    PullContents(s);
    var (t, p) := PullAndCall(s, env);
    if p.Threw? {
      RecoverContents(t, env, p.error);
    }
  }

  /** One step of the application, when nothing the server is told in the meantime is refused. */
  lemma TriedGot(s: Request, env: Env, steps: seq<AppStep>)
    requires s.iter == App(steps) && steps != [] && steps[0].pull.Got?
    requires s.called || Accepted(env, |s.forwarded|)
    ensures var (t, p) := Tried(s, env);
            && p == steps[0].pull && t.iter == App(steps[1..]) && t.returned == s.returned && t.called
            && t.closed == s.closed && t.finished == s.finished && t.contentLength == s.contentLength
            && t.timedOut == s.timedOut
  {
    StartsKeep(s.(iter := App(steps[1..])), steps[0].starts);
  }

  lemma EndedContents(s: Request, env: Env, e: Exn)
    ensures var (t, p) := Ended(s, env, e); p.Threw? && t.iter == s.iter && t.returned == s.returned
  {
  }

  lemma HeardStays(s: Request, env: Env)
    requires Heard(s, env) && s.iter.App?
    ensures Heard(Next(s, env).0, env)
  {
    var (t, raised) := Announce(s, env);
    AnnounceContents(s, env);
    if raised.None? && !(forall i :: Accepted(env, i)) {
      TriedCalled(t, env);
    }
  }

  lemma IterateUpto(s: Request, env: Env, steps: seq<AppStep>, exact: bool, n: nat) returns (m: nat)
    requires Upto(s, env, steps, exact, n)
    requires exact && s.iter.App? ==> s.called || forall i :: Accepted(env, i)
    ensures Upto(Iterate(s, env).0, env, steps, exact, m)
  {
    var (t, p) := Tried(s, env);
    PullContents(s);
    TriedContents(s, env);
    if p.Threw? {
      EndedContents(t, env, p.error);
    }
    m := n;
    if s.iter.App? && n < |steps| {
      m := n + 1;
      UptoStep(s, env, steps, exact, n, p);
    }
    if p.Got? {
      assert (s.returned + [p.chunk])[..|s.returned|] == s.returned;
    }
  }

  /** One more step: its item, if it has one, is returned, or lost and not exact. */
  lemma UptoStep(s: Request, env: Env, steps: seq<AppStep>, exact: bool, n: nat, p: Pull)
    requires Upto(s, env, steps, exact, n) && s.iter.App? && n < |steps| && p == Tried(s, env).1
    requires exact ==> s.called || forall i :: Accepted(env, i)
    ensures s.iter.steps[0] == steps[n] && s.iter.steps[1..] == steps[n + 1..]
    ensures if steps[n].pull.Got? && (s.called || Accepted(env, |s.forwarded|)) then
              p == steps[n].pull && Kept(exact, s.returned + [p.chunk], Gots(steps[..n + 1]))
            else Kept(exact, s.returned, Gots(steps[..n + 1]))
  {
    PullContents(s);
    TriedContents(s, env);
    GotsGrow(steps, n);
    assert steps[n..][0] == steps[n] && steps[n..][1..] == steps[n + 1..];
    if steps[n].pull.Got? {
      KeptGrows(exact, s.returned, Gots(steps[..n]), steps[n].pull.chunk);
    }
  }

  lemma NextUpto(s: Request, env: Env, steps: seq<AppStep>, exact: bool, n: nat) returns (m: nat)
    requires Upto(s, env, steps, exact, n) && (exact && s.iter.App? ==> Heard(s, env))
    ensures Upto(Next(s, env).0, env, steps, exact, m)
  {
    var (t, raised) := Announce(s, env);
    AnnounceContents(s, env);
    m := n;
    if raised.None? {
      m := IterateUpto(t, env, steps, exact, n);
    }
  }

  lemma ApplyUpto(s: Request, env: Env, steps: seq<AppStep>, exact: bool, n: nat, op: Op) returns (m: nat)
    requires Upto(s, env, steps, exact, n) && (exact && s.iter.App? ==> Heard(s, env))
    ensures var t := Apply(s, env, op);
            Upto(t, env, steps, exact, m) && (exact && t.iter.App? ==> Heard(t, env))
  {
    m := n;
    if op.NextOp? {
      m := NextUpto(s, env, steps, exact, n);
      if s.iter.App? && Heard(s, env) {
        HeardStays(s, env);
      }
      if s.iter.Static? {
        StaticStays(s, env);
      }
    }
  }

  lemma StaticStays(s: Request, env: Env)
    requires s.iter == Static([])
    ensures Next(s, env).0.iter == Static([])
  {
    TriedContents(Announce(s, env).0, env);
    PullContents(Announce(s, env).0);
  }

  lemma {:induction false} RunUpto(s: Request, env: Env, steps: seq<AppStep>, exact: bool, n: nat, ops: seq<Op>)
    returns (m: nat)
    requires Upto(s, env, steps, exact, n) && (exact && s.iter.App? ==> Heard(s, env))
    ensures Upto(Run(s, env, ops), env, steps, exact, m)
    decreases |ops|
  {
    m := n;
    if ops != [] {
      m := ApplyUpto(s, env, steps, exact, n, ops[0]);
      m := RunUpto(Apply(s, env, ops[0]), env, steps, exact, m, ops[1..]);
    }
  }

  /**
    However the server mixes `next` and `close`: what it has been given is, in order, the items of the
    first steps of the application, and after them perhaps the error body; items can be missing, but none
    is if the application called start_response at once or the server never refuses it.
   */
  lemma ReturnsItems(env: Env, starts: seq<Start>, steps: seq<AppStep>, ops: seq<Op>) returns (n: nat)
    ensures var s := Run(Handle(env, starts, Iterable(steps)).0, env, ops);
            var exact := starts != [] || forall i :: Accepted(env, i);
            && n <= |steps|
            && (|| Kept(exact, s.returned, Gots(steps[..n]))
                || (env.errorBody.Some? && s.returned != []
                    && s.returned[|s.returned| - 1] == env.errorBody.value
                    && Kept(exact, s.returned[..|s.returned| - 1], Gots(steps[..n]))))
  {
    StartsKeep(FRESH, starts);
    ghost var exact := starts != [] || forall i :: Accepted(env, i);
    n := RunUpto(Handle(env, starts, Iterable(steps)).0, env, steps, exact, 0, ops);
  }

  /** An item is lost: a lazy application, and a server that does not accept its start_response. */
  lemma LostItem(env: Env, step: AppStep, steps: seq<AppStep>)
    requires step.pull.Got? && env.errorBody.None? && env.server(0) == Some(Interrupt(0))
    ensures var s := Next(Handle(env, [], Iterable([step] + steps)).0, env).0;
            s.returned == [] && s.iter == App(steps)
  {
    assert ([step] + steps)[1..] == steps;
    StartsKeep(FRESH.(iter := App(steps)), step.starts);
  }

  // ---------- a response that goes well

  function Asks(n: nat): seq<Op> {
    seq(n, _ => NextOp)
  }

  /** Items and nothing else. */
  predicate AllGot(steps: seq<AppStep>) {
    forall i :: 0 <= i < |steps| ==> steps[i].pull.Got?
  }

  function Chunks(steps: seq<AppStep>): (r: seq<Chunk>)
    requires AllGot(steps)
    ensures |r| == |steps| && forall i :: 0 <= i < |steps| ==> Got(r[i]) == steps[i].pull
  {
    seq(|steps|, i requires 0 <= i < |steps| => steps[i].pull.chunk)
  }

  lemma NextGot(s: Request, env: Env, steps: seq<AppStep>)
    requires s.iter == App(steps) && steps != [] && steps[0].pull.Got? && forall i :: Accepted(env, i)
    ensures var (t, p) := Next(s, env);
            && p == steps[0].pull && t.iter == App(steps[1..]) && t.returned == s.returned + [steps[0].pull.chunk]
            && t.called && t.closed == s.closed && t.finished == s.finished && t.timedOut == s.timedOut
            && t.contentLength == s.contentLength + |steps[0].pull.chunk|
  {
    assert Accepted(env, |s.forwarded|);
    var (u, raised) := Announce(s, env);
    assert Accepted(env, |u.forwarded|);
    TriedGot(u, env, steps);
  }

  lemma AsksTail(n: nat)
    requires n > 0
    ensures Asks(n)[0] == NextOp && Asks(n)[1..] == Asks(n - 1)
  {
  }

  lemma ChunksTail(steps: seq<AppStep>, n: nat)
    requires 0 < n <= |steps| && AllGot(steps[..n])
    ensures steps[0].pull.Got? && AllGot(steps[1..][..n - 1]) && steps[1..][n - 1..] == steps[n..]
    ensures [steps[0].pull.chunk] + Chunks(steps[1..][..n - 1]) == Chunks(steps[..n])
  {
    assert steps[..n][0] == steps[0];
    assert steps[1..][..n - 1] == steps[..n][1..];
  }

  lemma {:induction false} AsksGot(s: Request, env: Env, steps: seq<AppStep>, n: nat)
    requires s.iter == App(steps) && n <= |steps| && AllGot(steps[..n]) && forall i :: Accepted(env, i)
    ensures var t := Run(s, env, Asks(n));
            && t.iter == App(steps[n..]) && t.returned == s.returned + Chunks(steps[..n])
            && t.closed == s.closed && t.finished == s.finished && t.timedOut == s.timedOut
    decreases n
  {
    if n == 0 {
      assert Run(s, env, Asks(0)) == s;
    } else {
      ChunksTail(steps, n);
      NextGot(s, env, steps);
      AsksTail(n);
      AsksGot(Next(s, env).0, env, steps[1..], n - 1);
      Regroup(s.returned, [steps[0].pull.chunk], Chunks(steps[1..][..n - 1]));
    }
  }

  /**
    A server that refuses nothing, asking n times an application that has n items to give, gets exactly
    those items; nothing is closed or logged meanwhile.
   */
  lemma ItemsInOrder(env: Env, starts: seq<Start>, steps: seq<AppStep>, n: nat)
    requires n <= |steps| && AllGot(steps[..n]) && forall i :: Accepted(env, i)
    ensures var s := Run(Handle(env, starts, Iterable(steps)).0, env, Asks(n));
            && s.returned == Chunks(steps[..n]) && s.iter == App(steps[n..])
            && !s.closed && s.finished == [] && !s.timedOut
  {
    StartsKeep(FRESH, starts);
    AsksGot(Handle(env, starts, Iterable(steps)).0, env, steps, n);
  }

  /** The application's last call of start_response is the one that stands. */
  lemma LastStart(s: Request, starts: seq<Start>)
    requires starts != []
    ensures var t, last := AllStarted(s, starts), starts[|starts| - 1];
            t.status == Some(last.code) && t.statusCode == last.code && t.excInfo == last.exc
  {
  }

  // ---------- what the server is told

  lemma ForwardedGrows(s: Request, env: Env)
    ensures s.forwarded <= Next(s, env).0.forwarded
  {
    var (t, raised) := Announce(s, env);
    assert s.forwarded <= t.forwarded;
    TriedContents(t, env);
  }

  lemma {:induction false} FirstForward(s: Request, env: Env, code: nat, exc: Option<Exn>, ops: seq<Op>)
    requires !s.iter.Unset? && !(s.forwarded == [] && s.called)
    requires s.forwarded == [] ==> s.status == Some(code) && s.excInfo == exc
    requires s.forwarded != [] ==> s.forwarded[0] == Forward(Some(code), exc)
    ensures var t := Run(s, env, ops);
            (NextOp in ops ==> t.forwarded != []) && (t.forwarded != [] ==> t.forwarded[0] == Forward(Some(code), exc))
    decreases |ops|
  {
    if ops != [] {
      var t := Apply(s, env, ops[0]);
      if ops[0].NextOp? {
        ForwardedGrows(s, env);
        if s.forwarded == [] {
          NextForwards(s, env);
        }
        StaysSet(s, env);
      }
      FirstForward(t, env, code, exc, ops[1..]);
      KeepsForwards(t, env, ops[1..]);
      assert NextOp in ops ==> ops[0].NextOp? || NextOp in ops[1..];
    }
  }

  lemma StaysSet(s: Request, env: Env)
    requires !s.iter.Unset?
    ensures !Next(s, env).0.iter.Unset?
  {
    PullContents(Announce(s, env).0);
    TriedContents(Announce(s, env).0, env);
  }

  /** A status that is known is the first thing that is passed on. */
  lemma NextForwards(s: Request, env: Env)
    requires !s.iter.Unset? && s.forwarded == [] && !s.called && s.status.Some?
    ensures var t := Next(s, env).0;
            t.forwarded != [] && t.forwarded[0] == Forward(s.status, s.excInfo)
  {
    TriedContents(Announce(s, env).0, env);
  }

  lemma {:induction false} KeepsForwards(s: Request, env: Env, ops: seq<Op>)
    ensures s.forwarded <= Run(s, env, ops).forwarded
    decreases |ops|
  {
    if ops != [] {
      if ops[0].NextOp? {
        ForwardedGrows(s, env);
      }
      KeepsForwards(Apply(s, env, ops[0]), env, ops[1..]);
    }
  }

  /**
    The server is told what the application said last before it was first asked for an item, with its
    exc_info; and a lazy application that gives an item, what it said last while it was asked for it.
   */
  lemma ServerTold(env: Env, starts: seq<Start>, steps: seq<AppStep>, ops: seq<Op>)
    requires starts != []
    ensures var t, last := Run(Handle(env, starts, Iterable(steps)).0, env, ops), starts[|starts| - 1];
            && (NextOp in ops ==> t.forwarded != [])
            && (t.forwarded != [] ==> t.forwarded[0] == Forward(Some(last.code), last.exc))
  {
    StartsKeep(FRESH, starts);
    LastStart(FRESH, starts);
    var last := starts[|starts| - 1];
    FirstForward(Handle(env, starts, Iterable(steps)).0, env, last.code, last.exc, ops);
  }

  lemma LazyTold(env: Env, steps: seq<AppStep>)
    requires steps != [] && steps[0].starts != [] && steps[0].pull.Got? && Accepted(env, 0)
    ensures var (t, p) := Next(Handle(env, [], Iterable(steps)).0, env);
            var last := steps[0].starts[|steps[0].starts| - 1];
            && p == steps[0].pull && t.statusCode == last.code
            && t.forwarded == [Forward(Some(last.code), last.exc)]
  {
    var s := FRESH.(iter := App(steps[1..]));
    StartsKeep(s, steps[0].starts);
    LastStart(s, steps[0].starts);
  }

  /** A file response is announced once, and its size is what will be logged. */
  lemma FileTold(env: Env, starts: seq<Start>, size: nat)
    requires starts != []
    ensures var (s, reply) := Handle(env, starts, FileWrapper(size));
            var last := starts[|starts| - 1];
            && s.forwarded == [Forward(Some(last.code), last.exc)]
            && (reply.File? <==> Accepted(env, 0))
            && (reply.File? ==>
                  var done := Close(s, env).0.finished;
                  |done| == 1 && done[0].length == size && done[0].statusCode == last.code && done[0].exc == last.exc)
  {
    StartsKeep(FRESH, starts);
    LastStart(FRESH, starts);
  }

  /** The whole of a response that goes well: its items, the end, and its one log record. */
  lemma WellServed(env: Env, starts: seq<Start>, steps: seq<AppStep>)
    requires starts != [] && AllGot(steps) && (forall i :: Accepted(env, i))
    requires forall i :: 0 <= i < |steps| ==> steps[i].starts == []
    ensures var s := Run(Handle(env, starts, Iterable(steps)).0, env, Asks(|steps|));
            var (t, p) := Next(s, env);
            var last := starts[|starts| - 1];
            && s.returned == Chunks(steps) == t.returned
            && (p == Threw(StopIteration) || (env.closing.Some? && p == Threw(env.closing.value)))
            && |t.finished| == 1 && t.finished[0].statusCode == last.code && t.finished[0].exc == last.exc
            && t.finished[0].length == Total(Chunks(steps)) && !t.finished[0].timedOut
  {
    var h := Handle(env, starts, Iterable(steps)).0;
    var s := Run(h, env, Asks(|steps|));
    assert steps[..|steps|] == steps && steps[|steps|..] == [];
    StartsKeep(FRESH, starts);
    LastStart(FRESH, starts);
    ItemsInOrder(env, starts, steps, |steps|);
    HandledOk(env, starts, Iterable(steps));
    RunOk(h, env, Asks(|steps|));
    QuietKeeps(h, env, steps, |steps|);
    assert Accepted(env, |s.forwarded|);
  }

  /** Pulling items without start_response calls changes neither status nor exc_info. */
  lemma {:induction false} QuietKeeps(s: Request, env: Env, steps: seq<AppStep>, n: nat)
    requires s.iter == App(steps) && n <= |steps| && AllGot(steps[..n]) && forall i :: Accepted(env, i)
    requires forall i :: 0 <= i < n ==> steps[i].starts == []
    ensures var t := Run(s, env, Asks(n));
            t.status == s.status && t.statusCode == s.statusCode && t.excInfo == s.excInfo
    decreases n
  {
    if n > 0 {
      ChunksTail(steps, n);
      NextGot(s, env, steps);
      QuietNext(s, env, steps);
      AsksTail(n);
      QuietKeeps(Next(s, env).0, env, steps[1..], n - 1);
    }
  }

  lemma QuietNext(s: Request, env: Env, steps: seq<AppStep>)
    requires s.iter == App(steps) && steps != [] && steps[0].pull.Got? && steps[0].starts == []
    requires forall i :: Accepted(env, i)
    ensures var t := Next(s, env).0;
            t.status == s.status && t.statusCode == s.statusCode && t.excInfo == s.excInfo
  {
    assert Accepted(env, |s.forwarded|);
    assert Accepted(env, |Announce(s, env).0.forwarded|);
  }

  // ---------- responses that go wrong

  /** An application that fails when it is called: the server is told 500 and gets the error body, once. */
  lemma {:induction false} FailedServed(env: Env, starts: seq<Start>, e: Exn, ops: seq<Op>)
    requires IsException(e) && env.errorBody.Some? && Accepted(env, 0)
    ensures var (h, reply) := Handle(env, starts, Fails(e));
            var s := Run(h, env, ops);
            && reply == Wrapped
            && s.returned == (if NextOp in ops then [env.errorBody.value] else [])
            && s.forwarded == [Forward(Some(500), Some(e))]
  {
    StartsKeep(FRESH, starts);
    FailedRun(Handle(env, starts, Fails(e)).0, env, e, ops);
  }

  lemma {:induction false} FailedRun(s: Request, env: Env, e: Exn, ops: seq<Op>)
    requires env.errorBody.Some? && s.called && s.forwarded == [Forward(Some(500), Some(e))]
    requires (s.iter == Static([env.errorBody.value]) && s.returned == [])
          || (s.iter == Static([]) && s.returned == [env.errorBody.value])
    ensures var t := Run(s, env, ops);
            && t.returned == (if s.returned == [] && NextOp !in ops then [] else [env.errorBody.value])
            && t.forwarded == s.forwarded
    decreases |ops|
  {
    if ops != [] {
      FailedRun(Apply(s, env, ops[0]), env, e, ops[1..]);
      assert NextOp in ops <==> ops[0].NextOp? || NextOp in ops[1..];
    }
  }

  /**
    What an application raises while it is asked for an item, and that is not answered with an error body:
    SystemExit ends and logs the response, as an error unless its code is zero, and goes on to the server;
    an interrupt goes on without ending it; a handler that fails ends it with its own exception, and what
    is logged is the application's.
   */
  lemma NotAnswered(s: Request, env: Env, steps: seq<AppStep>, e: Exn)
    requires Ok(s, env) && !s.closed && s.called && s.iter == App(steps) && steps != []
    requires steps[0] == AppStep([], Threw(e)) && env.closing.None?
    ensures var (t, p) := Next(s, env);
            match e
            case SystemExit(code) =>
              && p == Threw(e) && t.closed && |t.finished| == 1
              && t.finished[0].exc == (if code != 0 then Some(e) else s.excInfo)
            case Interrupt(_) => p == Threw(e) && !t.closed && t.finished == []
            case GeneratorExit => p == Threw(e) && !t.closed && t.finished == []
            case Error(_, timeout) =>
              env.errorBody.None? ==>
                && p == Threw(HandlerFailed) && t.closed && |t.finished| == 1
                && t.finished[0].exc == Some(e) && t.finished[0].timedOut == (s.timedOut || timeout)
            case _ => true
  {
  }

  /** What closing the application's iterator raises is raised, once, and the response is logged all the same. */
  lemma ClosingRaises(s: Request, env: Env)
    requires Ok(s, env) && !s.closed && s.iter.App?
    ensures var (t, raised) := Close(s, env);
            raised == env.closing && t.closed && |t.finished| == 1 && Close(t, env) == (t, None)
  {
  }

  /**
    What an application raises when it is called, and that is not answered with an error body, goes on to
    the server; only a SystemExit with a code other than zero is logged.
   */
  lemma FailedCall(env: Env, starts: seq<Start>, e: Exn)
    ensures var (s, reply) := Handle(env, starts, Fails(e));
            match e
            case SystemExit(code) =>
              && reply == Escaped(e)
              && (if code == 0 then s.finished == [] else |s.finished| == 1 && s.finished[0].exc == Some(e))
            case Interrupt(_) => reply == Escaped(e) && s.finished == []
            case GeneratorExit => reply == Escaped(e) && s.finished == []
            case _ =>
              && s.finished == []
              && (env.errorBody.None? ==> reply == Escaped(HandlerFailed))
              && (env.errorBody.Some? && env.server(0).Some? ==> reply == Escaped(env.server(0).value))
  {
    StartsKeep(FRESH, starts);
  }

  /** An error that was answered is what is logged, with status 500 and the length of all chunks. */
  lemma ErrorLogged(s: Request, env: Env, e: Exn)
    requires Ok(s, env) && !s.closed && CanPull(s, env)
    requires PullAndCall(Announce(s, env).0, env).1 == Threw(e) && e.Error?
    requires Accepted(env, |PullAndCall(Announce(s, env).0, env).0.forwarded|)
    requires env.errorBody.Some?
    ensures var done := Close(Next(s, env).0, env).0.finished;
            && |done| == 1 && done[0].statusCode == 500 && done[0].exc == Some(e)
            && done[0].length == Total(s.returned) + |env.errorBody.value|
            && (IsRequestTimeout(e) ==> done[0].timedOut)
  {
    var (t, p) := Next(s, env);
    ErrorAnswered(s, env, e);
    NextOk(s, env);
    ErrorNoted(s, env, e);
    assert (s.returned + [env.errorBody.value])[..|s.returned|] == s.returned;
  }

  lemma ErrorNoted(s: Request, env: Env, e: Exn)
    requires CanPull(s, env) && env.errorBody.Some? && e.Error?
    requires PullAndCall(Announce(s, env).0, env).1 == Threw(e)
    requires Accepted(env, |PullAndCall(Announce(s, env).0, env).0.forwarded|)
    ensures var t := Next(s, env).0;
            t.excInfo == Some(e) && t.returned == s.returned + [env.errorBody.value]
  {
    var u := Announce(s, env).0;
    PullKeeps(u);
    CallKeeps(PullIter(u).0, env);
    var (v, p) := PullAndCall(u, env);
    assert v.returned == s.returned;
    assert Tried(u, env) == Recover(v, env, e);
  }
}
