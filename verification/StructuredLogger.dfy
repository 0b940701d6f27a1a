/** How a log record's tags are put together from the call, the context and the process. */
module StructuredLogger {
  import opened Options
  import opened OrderedDict

  const REQUEST_ID := "request_id"
  const TRAILER := "trailer"

  /** `k + '_'` when `k` clashes. */
  function Renamed(k: string, clash: bool): string {
    if clash then k + "_" else k
  }

  function NameFor<V>(k: string, others: Dict<V>): string {
    Renamed(k, Has(others, k))
  }

  /** The items of `d`, renamed where `others` has the key too. */
  function RenameAll<V>(d: Dict<V>, others: Dict<V>): Dict<V> {
    seq(|d|, i requires 0 <= i < |d| => Item(NameFor(d[i].key, others), d[i].value))
  }

  function Without<V>(d: Dict<V>, k: string): Dict<V> {
    if d == [] then []
    else if d[0].key == k then d[1..]
    else [d[0]] + Without(d[1..], k)
  }

  function RequestItem<V>(requestId: Option<V>): Dict<V> {
    if requestId.Some? then [Item(REQUEST_ID, requestId.value)] else []
  }

  /** What every source contributes, in order: most specific first, renamed, then the global extra. */
  function Contributions<V>(extra: Dict<V>, context: Dict<V>, globals: Dict<V>, requestId: Option<V>): Dict<V> {
    RenameAll(extra, context + globals) + RenameAll(context, globals) + globals + RequestItem(requestId)
  }

  /**
    `makeRecord` up to the stdlib call. `requestId` is None for an absent or empty id. The trailer is
    taken out of the caller's own dict, which comes back as `left`.
   */
  method MergeExtra<V>(extra: Dict<V>, context: Dict<V>, globals: Dict<V>, requestId: Option<V>)
    returns (structured: Dict<V>, trailer: Option<V>, left: Dict<V>)
    requires Distinct(extra) && Distinct(context) && Distinct(globals)
    ensures trailer == Lookup(extra, "trailer") && left == Without(extra, "trailer")
    ensures structured == PutAll([], Contributions(left, context, globals, requestId))
  {
    structured, trailer := [], Lookup(extra, TRAILER);
    left := Without(extra, TRAILER);
    ghost var first, second := RenameAll(left, context + globals), RenameAll(context, globals);
    for i := 0 to |left|
      invariant structured == PutAll([], first[..i])
    {
      var k := left[i].key;
      HasConcat(context, globals, k);
      if Has(context, k) || Has(globals, k) {
        k := k + "_";
      }
      structured := Put(structured, k, left[i].value);
      assert first[i] == Item(k, left[i].value);
      assert first[..i + 1][..i] == first[..i];
    }
    assert first[..|left|] == first;
    for i := 0 to |context|
      invariant structured == PutAll(PutAll([], first), second[..i])
    {
      var k := context[i].key;
      if Has(globals, k) {
        k := k + "_";
      }
      structured := Put(structured, k, context[i].value);
      assert second[..i + 1][..i] == second[..i];
    }
    assert second[..|context|] == second;
    structured := PutAll(structured, globals);
    if requestId.Some? {
      structured := Put(structured, REQUEST_ID, requestId.value);
      assert RequestItem(requestId)[..0] == [];
    }
    PutAllConcat([], first, second);
    PutAllConcat([], first + second, globals);
    PutAllConcat([], first + second + globals, RequestItem(requestId));
  }

  lemma HasConcat<V>(a: Dict<V>, b: Dict<V>, k: string)
    ensures Has(a + b, k) <==> Has(a, k) || Has(b, k)
  {
    var e := a + b;
    if i :| 0 <= i < |a| && a[i].key == k {
      assert e[i].key == k;
    }
    if i :| 0 <= i < |b| && b[i].key == k {
      assert e[|a| + i].key == k;
    }
  }

  lemma {:induction false} PutAllConcat<V>(d: Dict<V>, a: Dict<V>, b: Dict<V>)
    ensures PutAll(d, a + b) == PutAll(PutAll(d, a), b)
  {
    if b == [] {
      assert a + b == a;
    } else {
      var n := |b| - 1;
      assert (a + b)[..|a| + n] == a + b[..n];
      PutAllConcat(d, a, b[..n]);
    }
  }

  // ---------- global values win

  /** Global values are never renamed or replaced, except that a request id overrides its own key. */
  lemma GlobalsWin<V>(extra: Dict<V>, context: Dict<V>, globals: Dict<V>, requestId: Option<V>, k: string)
    requires Distinct(globals) && Has(globals, k) && (k == REQUEST_ID ==> requestId.None?)
    ensures Lookup(PutAll([], Contributions(extra, context, globals, requestId)), k) == Lookup(globals, k)
  {
    var before := RenameAll(extra, context + globals) + RenameAll(context, globals);
    PutAllConcat([], before + globals, RequestItem(requestId));
    PutAllConcat([], before, globals);
    LookupPutAll(PutAll([], before), globals, k);
    LookupPutAll(PutAll([], before + globals), RequestItem(requestId), k);
  }

  /** A request id is always there under its own name. */
  lemma RequestIdWins<V>(extra: Dict<V>, context: Dict<V>, globals: Dict<V>, id: V)
    ensures Lookup(PutAll([], Contributions(extra, context, globals, Some(id))), "request_id") == Some(id)
  {
    var before := RenameAll(extra, context + globals) + RenameAll(context, globals) + globals;
    PutAllConcat([], before, RequestItem(Some(id)));
    LookupPutAll(PutAll([], before), RequestItem(Some(id)), REQUEST_ID);
    assert RequestItem(Some(id))[0].key == REQUEST_ID;
  }

  // ---------- nothing is lost

  predicate Trailing(k: string) {
    k != [] && k[|k| - 1] == '_'
  }

  /** Keys that the renaming itself never produces, and that are not reserved. */
  predicate PlainKeys<V>(d: Dict<V>) {
    forall i :: 0 <= i < |d| ==> !Trailing(d[i].key) && d[i].key != REQUEST_ID
  }

  predicate Apart<V>(extra: Dict<V>, context: Dict<V>, globals: Dict<V>) {
    && Distinct(extra) && Distinct(context) && Distinct(globals)
    && PlainKeys(extra) && PlainKeys(context) && PlainKeys(globals)
  }

  lemma HasRenamed<V>(d: Dict<V>, others: Dict<V>, k: string)
    requires PlainKeys(d)
    ensures Has(RenameAll(d, others), k)
            <==> (if Trailing(k) then Has(d, k[..|k| - 1]) && Has(others, k[..|k| - 1])
                  else Has(d, k) && !Has(others, k))
  {
    var r := RenameAll(d, others);
    if i :| 0 <= i < |r| && r[i].key == k {
      assert Has(d, d[i].key);
      if Has(others, d[i].key) {
        assert k == d[i].key + "_" && k[..|k| - 1] == d[i].key;
      }
    }
    var source := if Trailing(k) then k[..|k| - 1] else k;
    if i :| 0 <= i < |d| && d[i].key == source {
      if Has(others, source) == Trailing(k) {
        assert Trailing(k) ==> source + "_" == k;
        assert r[i].key == k;
      }
    }
  }

  lemma RenamedDistinct<V>(d: Dict<V>, others: Dict<V>)
    requires PlainKeys(d) && Distinct(d)
    ensures Distinct(RenameAll(d, others))
  {
    var r := RenameAll(d, others);
    forall i, j | 0 <= i < j < |r| ensures r[i].key != r[j].key {
      RenamedApart(d[i].key, d[j].key, Has(others, d[i].key), Has(others, d[j].key));
    }
  }

  lemma RenamedApart(a: string, b: string, clashA: bool, clashB: bool)
    requires a != b && !Trailing(a) && !Trailing(b)
    ensures Renamed(a, clashA) != Renamed(b, clashB)
  {
    assert Trailing(a + "_") && Trailing(b + "_");
    assert (a + "_")[..|a|] == a && (b + "_")[..|b|] == b;
  }

  lemma RequestItemHas<V>(requestId: Option<V>, k: string)
    ensures Has(RequestItem(requestId), k) <==> requestId.Some? && k == REQUEST_ID
  {
    if requestId.Some? {
      assert RequestItem(requestId)[0].key == REQUEST_ID;
    }
  }

  predicate InAllThree<V>(extra: Dict<V>, context: Dict<V>, globals: Dict<V>, k: string) {
    Has(extra, k) && Has(context, k) && Has(globals, k)
  }

  lemma CallAndContextApart<V>(extra: Dict<V>, context: Dict<V>, globals: Dict<V>)
    requires PlainKeys(extra) && PlainKeys(context) && PlainKeys(globals)
    ensures (forall k :: !(Has(RenameAll(extra, context + globals), k) && Has(RenameAll(context, globals), k)))
            <==> forall k :: !InAllThree(extra, context, globals, k)
  {
    var first, second := RenameAll(extra, context + globals), RenameAll(context, globals);
    forall k
      ensures Has(first, k) && Has(second, k)
              <==> Trailing(k) && InAllThree(extra, context, globals, k[..|k| - 1])
    {
      HasRenamed(extra, context + globals, k);
      HasRenamed(context, globals, k);
      HasConcat(context, globals, if Trailing(k) then k[..|k| - 1] else k);
    }
    if k :| InAllThree(extra, context, globals, k) {
      assert Trailing(k + "_") && (k + "_")[..|k + "_"| - 1] == k;
      assert Has(first, k + "_");
    }
  }

  lemma GlobalsApart<V>(extra: Dict<V>, context: Dict<V>, globals: Dict<V>, k: string)
    requires PlainKeys(extra) && PlainKeys(context) && PlainKeys(globals) && Has(globals, k)
    ensures !Has(RenameAll(extra, context + globals), k) && !Has(RenameAll(context, globals), k)
    ensures k != REQUEST_ID
  {
    HasRenamed(extra, context + globals, k);
    HasRenamed(context, globals, k);
    HasConcat(context, globals, k);
  }

  lemma NotRequestId<V>(d: Dict<V>, others: Dict<V>)
    requires PlainKeys(d)
    ensures !Has(RenameAll(d, others), REQUEST_ID)
  {
    HasRenamed(d, others, REQUEST_ID);
  }

  lemma ContributionsDistinct<V>(extra: Dict<V>, context: Dict<V>, globals: Dict<V>, requestId: Option<V>)
    requires Apart(extra, context, globals)
    ensures Distinct(Contributions(extra, context, globals, requestId))
            <==> forall k :: !InAllThree(extra, context, globals, k)
  {
    var first, second := RenameAll(extra, context + globals), RenameAll(context, globals);
    RenamedDistinct(extra, context + globals);
    RenamedDistinct(context, globals);
    CallAndContextApart(extra, context, globals);
    DistinctConcat(first, second);
    forall k ensures !(Has(first + second, k) && Has(globals, k)) {
      HasConcat(first, second, k);
      if Has(globals, k) {
        GlobalsApart(extra, context, globals, k);
      }
    }
    DistinctConcat(first + second, globals);
    forall k ensures !(Has(first + second + globals, k) && Has(RequestItem(requestId), k)) {
      RequestItemHas(requestId, k);
      HasConcat(first + second, globals, k);
      HasConcat(first, second, k);
      NotRequestId(extra, context + globals);
      NotRequestId(context, globals);
    }
    DistinctConcat(first + second + globals, RequestItem(requestId));
  }

  /**
    Renaming keeps everything exactly when no key comes from all three sources: then the tags are the
    sources one after the other, each value under its own name or that name and an underscore. A key in
    all three loses a value. This is for keys that do not end in an underscore and are not `request_id`.
   */
  lemma NothingLost<V>(extra: Dict<V>, context: Dict<V>, globals: Dict<V>, requestId: Option<V>)
    requires Apart(extra, context, globals)
    ensures var structured := PutAll([], Contributions(extra, context, globals, requestId));
            var size := |extra| + |context| + |globals| + if requestId.Some? then 1 else 0;
            && (structured == Contributions(extra, context, globals, requestId)
                <==> forall k :: !InAllThree(extra, context, globals, k))
            && (|structured| == size <==> forall k :: !InAllThree(extra, context, globals, k))
            && |structured| <= size
  {
    ContributionsDistinct(extra, context, globals, requestId);
    FromItems(Contributions(extra, context, globals, requestId));
    ContributionsSize(extra, context, globals, requestId);
  }

  lemma ContributionsSize<V>(extra: Dict<V>, context: Dict<V>, globals: Dict<V>, requestId: Option<V>)
    ensures |Contributions(extra, context, globals, requestId)|
            == |extra| + |context| + |globals| + if requestId.Some? then 1 else 0
  {
  }

  /** Then a value of the call is found under its name, with an underscore if the name is taken. */
  lemma CallValueSurvives<V>(extra: Dict<V>, context: Dict<V>, globals: Dict<V>, requestId: Option<V>, i: nat)
    requires Apart(extra, context, globals) && i < |extra|
    requires forall k :: !InAllThree(extra, context, globals, k)
    ensures Lookup(PutAll([], Contributions(extra, context, globals, requestId)),
                   NameFor(extra[i].key, context + globals)) == Some(extra[i].value)
  {
    var first, second := RenameAll(extra, context + globals), RenameAll(context, globals);
    NothingLost(extra, context, globals, requestId);
    ContributionsDistinct(extra, context, globals, requestId);
    FirstPartLookup(first, second, globals, RequestItem(requestId), i);
  }

  lemma ContextValueSurvives<V>(extra: Dict<V>, context: Dict<V>, globals: Dict<V>, requestId: Option<V>, i: nat)
    requires Apart(extra, context, globals) && i < |context|
    requires forall k :: !InAllThree(extra, context, globals, k)
    ensures Lookup(PutAll([], Contributions(extra, context, globals, requestId)), NameFor(context[i].key, globals))
            == Some(context[i].value)
  {
    var first, second := RenameAll(extra, context + globals), RenameAll(context, globals);
    NothingLost(extra, context, globals, requestId);
    ContributionsDistinct(extra, context, globals, requestId);
    var rest := globals + RequestItem(requestId);
    assert Contributions(extra, context, globals, requestId) == first + second + rest;
    PartLookup(first, second, rest, i);
  }

  // ---------- the trailer is taken out first

  lemma {:induction false} WithoutHas<V>(d: Dict<V>, gone: string, k: string)
    requires Distinct(d)
    ensures Has(Without(d, gone), k) <==> Has(d, k) && k != gone
    ensures k != gone ==> Lookup(Without(d, gone), k) == Lookup(d, k)
  {
    if d != [] {
      var rest := d[1..];
      WithoutHas(rest, gone, k);
      LookupHas(d, k);
      LookupHas(rest, k);
      LookupHas(Without(d, gone), k);
      LookupHas(Without(rest, gone), k);
      if d[0].key == gone && Has(rest, k) {
        var i :| 0 <= i < |rest| && rest[i].key == k;
        assert d[i + 1].key == k;
      }
    }
  }

  lemma {:induction false} WithoutSize<V>(d: Dict<V>, gone: string)
    requires Distinct(d)
    ensures |Without(d, gone)| == |d| - if Has(d, gone) then 1 else 0
  {
    if d != [] {
      LookupHas(d, gone);
      LookupHas(d[1..], gone);
      if d[0].key != gone {
        WithoutSize(d[1..], gone);
      }
    }
  }

  lemma {:induction false} WithoutDistinct<V>(d: Dict<V>, gone: string)
    requires Distinct(d)
    ensures Distinct(Without(d, gone))
  {
    if d != [] && d[0].key != gone {
      var first, left := [d[0]], Without(d[1..], gone);
      WithoutDistinct(d[1..], gone);
      forall k
        ensures !(Has(first, k) && Has(left, k))
      {
        WithoutHas(d[1..], gone, k);
      }
      DistinctConcat(first, left);
    }
  }

  lemma WithoutPlain<V>(d: Dict<V>, gone: string)
    requires Distinct(d) && PlainKeys(d)
    ensures Distinct(Without(d, gone)) && PlainKeys(Without(d, gone))
  {
    WithoutDistinct(d, gone);
    var left := Without(d, gone);
    forall i | 0 <= i < |left|
      ensures !Trailing(left[i].key) && left[i].key != REQUEST_ID
    {
      WithoutHas(d, gone, left[i].key);
      assert Has(left, left[i].key);
    }
  }

  /**
    `makeRecord` as a whole: what is passed on has every value of the call but the trailer, which is handed
    over by itself, and every value of the context and of the process, exactly if no key comes from all
    three. (The trailer of the call does not count as one of them.)
   */
  lemma RecordComplete<V>(extra: Dict<V>, context: Dict<V>, globals: Dict<V>, requestId: Option<V>)
    requires Apart(extra, context, globals)
    ensures var left := Without(extra, TRAILER);
            var structured := PutAll([], Contributions(left, context, globals, requestId));
            var size := |extra| + |context| + |globals| + if requestId.Some? then 1 else 0;
            && (|structured| == size - (if Has(extra, TRAILER) then 1 else 0)
                <==> forall k :: InAllThree(extra, context, globals, k) ==> k == TRAILER)
            && ((forall k :: InAllThree(extra, context, globals, k) ==> k == TRAILER) ==>
                  forall i :: 0 <= i < |extra| && extra[i].key != TRAILER ==>
                                Lookup(structured, NameFor(extra[i].key, context + globals)) == Some(extra[i].value))
  {
    var left := Without(extra, TRAILER);
    WithoutPlain(extra, TRAILER);
    WithoutSize(extra, TRAILER);
    forall k
      ensures InAllThree(left, context, globals, k) <==> InAllThree(extra, context, globals, k) && k != TRAILER
    {
      WithoutHas(extra, TRAILER, k);
    }
    NothingLost(left, context, globals, requestId);
    if forall k :: InAllThree(extra, context, globals, k) ==> k == TRAILER {
      forall i | 0 <= i < |extra| && extra[i].key != TRAILER
        ensures Lookup(PutAll([], Contributions(left, context, globals, requestId)),
                       NameFor(extra[i].key, context + globals)) == Some(extra[i].value)
      {
        var j := PlaceLeft(extra, TRAILER, i);
        CallValueSurvives(left, context, globals, requestId, j);
      }
    }
  }

  /** Where an item that stays is found among the others that stay. */
  lemma {:induction false} PlaceLeft<V>(d: Dict<V>, gone: string, i: nat) returns (j: nat)
    requires i < |d| && d[i].key != gone
    ensures j < |Without(d, gone)| && Without(d, gone)[j] == d[i]
  {
    if d[0].key == gone {
      j := i - 1;
    } else if i == 0 {
      j := 0;
    } else {
      j := PlaceLeft(d[1..], gone, i - 1);
      j := j + 1;
    }
  }

  /** A key in all three: the value of the call is gone, replaced by that of the context. */
  lemma ValueLost<V>(k: string, ofCall: V, ofContext: V, ofProcess: V)
    requires ofCall != ofContext && ofCall != ofProcess
    ensures var structured := PutAll([], Contributions([Item(k, ofCall)], [Item(k, ofContext)],
                                                       [Item(k, ofProcess)], None));
            structured == [Item(k + "_", ofContext), Item(k, ofProcess)]
  {
    var extra, context, globals := [Item(k, ofCall)], [Item(k, ofContext)], [Item(k, ofProcess)];
    assert (context + globals)[0] == Item(k, ofContext) && globals[0] == Item(k, ofProcess);
    assert Has(context + globals, k) && Has(globals, k);
    var first, second := RenameAll(extra, context + globals), RenameAll(context, globals);
    assert first == [Item(k + "_", ofCall)] && second == [Item(k + "_", ofContext)];
    PutAllConcat([], first, second);
    PutAllConcat([], first + second, globals);
    assert first + second + globals + RequestItem(None) == first + second + globals;
    PutOne([], Item(k + "_", ofCall));
    PutOne(first, Item(k + "_", ofContext));
    PutOne(second, Item(k, ofProcess));
    assert k + "_" != k;
  }

  lemma PutOne<V>(d: Dict<V>, item: Item<V>)
    ensures PutAll(d, [item]) == Put(d, item.key, item.value)
  {
    assert [item][..0] == [];
  }

  lemma FirstPartLookup<V>(a: Dict<V>, b: Dict<V>, c: Dict<V>, d: Dict<V>, i: nat)
    requires Distinct(a + b + c + d) && i < |a|
    ensures Lookup(a + b + c + d, a[i].key) == Some(a[i].value)
  {
    assert (a + b + c + d)[i] == a[i];
    LookupAt(a + b + c + d, i);
  }

  lemma PartLookup<V>(a: Dict<V>, b: Dict<V>, c: Dict<V>, i: nat)
    requires Distinct(a + b + c) && i < |b|
    ensures Lookup(a + b + c, b[i].key) == Some(b[i].value)
  {
    assert (a + b + c)[|a| + i] == b[i];
    LookupAt(a + b + c, |a| + i);
  }
}
