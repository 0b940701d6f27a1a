/** The table of requests in flight, over any sequence of requests beginning and finishing. */
module InFlightTable {

  /** A request id: empty, or one of the other ids, which matter only as being equal or not. */
  datatype RequestId = Empty | Id(n: nat)

  /** The table when `r` has begun: an id in use stays with the request it has. */
  function Tracked<R>(entries: map<RequestId, R>, rid: RequestId, r: R): map<RequestId, R> {
    if rid in entries then entries else entries[rid := r]
  }

  /** The table when a request has finished, whoever is under its id: an empty id is never taken out. */
  function Untracked<R>(entries: map<RequestId, R>, rid: RequestId): map<RequestId, R> {
    if rid == Empty then entries else entries - {rid}
  }

  /** The table, and, for its specification, the id of each request begun and the requests not finished. */
  datatype State<R(==)> = State(entries: map<RequestId, R>, ids: map<R, RequestId>, open: set<R>)

  /** A request finishes when it is closed and when the worker-exit hook finds it, so perhaps more than once. */
  datatype Event<R> = Begun(request: R, rid: RequestId) | Finished(request: R)

  ghost predicate Possible<R>(s: State<R>, e: Event<R>) {
    match e
    case Begun(r, _) => r !in s.ids
    case Finished(r) => r in s.ids
  }

  ghost function Apply<R>(s: State<R>, e: Event<R>): State<R>
    requires Possible(s, e)
  {
    match e
    case Begun(r, rid) => State(Tracked(s.entries, rid, r), s.ids[r := rid], s.open + {r})
    case Finished(r) => State(Untracked(s.entries, s.ids[r]), s.ids, s.open - {r})
  }

  /** The table holds exactly the open requests, each under its own id. */
  ghost predicate Exact<R>(s: State<R>) {
    && (forall r :: r in s.open ==> r in s.ids && s.ids[r] in s.entries && s.entries[s.ids[r]] == r)
    && (forall rid :: rid in s.entries ==>
                        s.entries[rid] in s.open && s.entries[rid] in s.ids && s.ids[s.entries[rid]] == rid)
  }

  /** No open request has this id. */
  ghost predicate Unused<R>(s: State<R>, rid: RequestId) {
    forall r :: r in s.open && r in s.ids ==> s.ids[r] != rid
  }

  /**
    An event that the table can cope with: a request begins with an id that no open request has; it
    finishes with an id that is not empty; and it finishes again only while no other has got its id.
   */
  ghost predicate Proper<R>(s: State<R>, e: Event<R>)
    requires Possible(s, e)
  {
    match e
    case Begun(r, rid) => Unused(s, rid)
    case Finished(r) =>
      if r in s.open then s.ids[r] != Empty else s.ids[r] == Empty || Unused(s, s.ids[r])
  }

  /** A request that begins with an id in use is not tracked; the one that has the id keeps it. */
  lemma FirstKeepsId<R>(s: State<R>, r: R, rid: RequestId)
    requires Exact(s) && Possible(s, Begun(r, rid)) && !Unused(s, rid)
    ensures var t := Apply(s, Begun(r, rid));
            && t.entries == s.entries && rid in t.entries && t.entries[rid] in s.open
            && forall k :: k in t.entries ==> t.entries[k] != r
  {
    var q :| q in s.open && q in s.ids && s.ids[q] == rid;
    assert s.entries[rid] == q;
  }

  lemma StepExact<R>(s: State<R>, e: Event<R>)
    requires Exact(s) && Possible(s, e)
    ensures Exact(Apply(s, e)) <==> Proper(s, e)
  {
  }

  ghost predicate Run<R>(s: State<R>, events: seq<Event<R>>, t: State<R>)
    decreases |events|
  {
    if events == [] then s == t
    else Possible(s, events[0]) && Run(Apply(s, events[0]), events[1..], t)
  }

  /** Every event of a run is proper. */
  ghost predicate AllProper<R>(s: State<R>, events: seq<Event<R>>)
    decreases |events|
  {
    events != [] ==>
      Possible(s, events[0]) && Proper(s, events[0]) && AllProper(Apply(s, events[0]), events[1..])
  }

  /** The table is exact before, between and after the events of a run. */
  ghost predicate AllExact<R>(s: State<R>, events: seq<Event<R>>)
    decreases |events|
  {
    Exact(s) && (events != [] ==> Possible(s, events[0]) && AllExact(Apply(s, events[0]), events[1..]))
  }

  lemma {:induction false} RunExact<R>(s: State<R>, events: seq<Event<R>>, t: State<R>)
    requires Exact(s) && Run(s, events, t)
    ensures AllExact(s, events) <==> AllProper(s, events)
    ensures AllProper(s, events) ==> Exact(t)
    decreases |events|
  {
    if events != [] {
      StepExact(s, events[0]);
      if Proper(s, events[0]) {
        RunExact(Apply(s, events[0]), events[1..], t);
      } else {
        assert !Exact(Apply(s, events[0]));
      }
    }
  }

  /**
    In every state the table holds exactly the requests begun and not finished, each under its own id, if
    and only if no request begins with an id in use, none with an empty id finishes, and none finishes a
    second time after its id has gone to another.
   */
  lemma AlwaysExact<R>(events: seq<Event<R>>, t: State<R>)
    requires Run(State(map[], map[], {}), events, t)
    ensures AllExact(State(map[], map[], {}), events) <==> AllProper(State(map[], map[], {}), events)
  {
    RunExact(State(map[], map[], {}), events, t);
  }

  /** With ids that are not empty and never used twice, second finishes included, the table is always exact. */
  lemma {:induction false} DistinctIdsExact<R>(s: State<R>, events: seq<Event<R>>, t: State<R>)
    requires Exact(s) && Run(s, events, t)
    requires forall r :: r in s.ids ==> s.ids[r] != Empty
    requires forall q, r :: q in s.ids && r in s.ids && q != r ==> s.ids[q] != s.ids[r]
    requires forall i :: 0 <= i < |events| && events[i].Begun? ==>
                           events[i].rid != Empty && forall r :: r in s.ids ==> s.ids[r] != events[i].rid
    requires forall i, j :: 0 <= i < j < |events| && events[i].Begun? && events[j].Begun? ==>
                              events[i].rid != events[j].rid
    ensures AllExact(s, events) && Exact(t)
    decreases |events|
  {
    if events != [] {
      StepExact(s, events[0]);
      DistinctIdsExact(Apply(s, events[0]), events[1..], t);
    }
  }
}
