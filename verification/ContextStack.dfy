/** The stacked logging context and its cached flattened view. */
module ContextStacks {
  import opened Options
  import opened Sequences
  import opened OrderedDict

  /** The items whose key is not in `seen`. */
  function Unseen<V>(d: Dict<V>, seen: set<string>): Dict<V> {
    if d == [] then []
    else (if d[0].key in seen then [] else [d[0]]) + Unseen(d[1..], seen)
  }

  function Keys<V>(d: Dict<V>): set<string> {
    set i | 0 <= i < |d| :: d[i].key
  }

  /** The whole top dict, then whatever it does not hide of the view below it. */
  function Flatten<V>(stack: seq<Dict<V>>): Dict<V> {
    if stack == [] then []
    else
      var top := stack[|stack| - 1];
      top + Unseen(Flatten(stack[..|stack| - 1]), Keys(top))
  }

  /** The fields of a ContextStack: the dicts, and the cached view if there is one. */
  datatype Fields<+V> = Fields(stack: seq<Dict<V>>, cache: Option<Dict<V>>)

  /** What the property `flat` returns. */
  function View<V>(s: Fields<V>): Dict<V> {
    if s.cache.Some? then s.cache.value else Flatten(s.stack)
  }

  datatype Op<+V> = PushDict(d: Dict<V>) | PopDict | UnwindTo(level: int) | Read

  /** Unwinding below zero empties the stack, raises IndexError, and leaves the cache as it is. */
  function After<V>(s: Fields<V>, op: Op<V>): Fields<V> {
    match op
    case PushDict(d) => Fields(s.stack + [d], None)
    case PopDict => Fields(if s.stack == [] then [] else s.stack[..|s.stack| - 1], None)
    case UnwindTo(level) =>
      if level < 0 then Fields([], s.cache)
      else Fields(if |s.stack| <= level then s.stack else s.stack[..level], None)
    case Read => Fields(s.stack, Some(View(s)))
  }

  class ContextStack<V> {
    var stack: seq<Dict<V>>
    var cache: Option<Dict<V>>

    function State(): Fields<V>
      reads this
    {
      Fields(stack, cache)
    }

    /** Every dict of the stack has each key once. */
    ghost predicate Valid()
      reads this
    {
      forall d :: d in stack ==> Distinct(d)
    }

    constructor (dicts: seq<Dict<V>>)
      requires forall d :: d in dicts ==> Distinct(d)
      ensures Valid() && State() == Fields(dicts, None)
    {
      stack := dicts;
      cache := None;
    }

    static method NotSeen(d: Dict<V>, seen: set<string>) returns (items: Dict<V>)
      ensures items == Unseen(d, seen)
    {
      items := [];
      for i := 0 to |d|
        invariant Unseen(d, seen) == items + Unseen(d[i..], seen)
      {
        UnseenStep(d, seen, i, items);
        if d[i].key !in seen {
          items := items + [d[i]];
        }
      }
    }

    /** From top to bottom, the items of each dict whose key no higher dict has. */
    method Iterate() returns (items: Dict<V>)
      ensures items == Flatten(stack)
    {
      items := [];
      var seen: set<string> := {};
      NothingSeen(Flatten(stack));
      var n := |stack|;
      assert stack[..n] == stack;
      while n > 0
        invariant 0 <= n <= |stack|
        invariant items + Unseen(Flatten(stack[..n]), seen) == Flatten(stack)
      {
        n := n - 1;
        var d := stack[n];
        assert stack[..n + 1][..n] == stack[..n];
        UnseenBelow(stack[..n + 1], seen);
        var shown := NotSeen(d, seen);
        Regroup(items, shown, Unseen(Flatten(stack[..n]), seen + Keys(d)));
        items := items + shown;
        seen := seen + Keys(d);
      }
    }

    /** The property `flat`: computed at most once between changes. */
    method Flat() returns (view: Dict<V>)
      modifies this`cache
      ensures view == View(old(State())) && State() == After(old(State()), Read)
    {
      if cache.None? {
        var items := Iterate();
        cache := Some(items);
      }
      view := cache.value;
    }

    method Push(extra: Option<Dict<V>>, kwargs: Dict<V>) returns (level: nat)
      requires Valid() && Distinct(kwargs) && (extra.Some? ==> Distinct(extra.value))
      modifies this
      ensures Valid() && level == |old(stack)|
      ensures State() == After(old(State()), PushDict(PutAll(if extra.Some? then extra.value else [], kwargs)))
      ensures stack != [] && forall k ::
                Lookup(stack[|stack| - 1], k) == if Has(kwargs, k) then Lookup(kwargs, k)
                                                 else if extra.Some? then Lookup(extra.value, k) else None
    {
      var d := if extra.Some? then extra.value else [];
      PutAllDistinct(d, kwargs);
      forall k
        ensures Lookup(PutAll(d, kwargs), k) == if Has(kwargs, k) then Lookup(kwargs, k) else Lookup(d, k)
      {
        LookupPutAll(d, kwargs, k);
      }
      d := PutAll(d, kwargs);
      level := |stack|;
      stack := stack + [d];
      cache := None;
    }

    method Pop()
      requires Valid()
      modifies this
      ensures Valid() && State() == After(old(State()), PopDict)
    {
      if stack != [] {
        stack := stack[..|stack| - 1];
      }
      cache := None;
    }

    /** `raised` says that IndexError was raised, by popping an empty list. */
    method Unwind(level: int) returns (raised: bool)
      requires Valid()
      modifies this
      ensures Valid() && State() == After(old(State()), UnwindTo(level))
      ensures raised <==> level < 0
    {
      ghost var before := stack;
      while |stack| > level
        invariant stack <= before && (|stack| < |before| ==> |stack| >= level)
        invariant cache == old(cache) && Valid()
      {
        if stack == [] {
          return true;
        }
        stack := stack[..|stack| - 1];
      }
      cache := None;
      return false;
    }
  }

  // ---------- the view

  lemma {:induction false} NothingSeen<V>(d: Dict<V>)
    ensures Unseen(d, {}) == d
  {
    if d != [] {
      NothingSeen(d[1..]);
    }
  }

  lemma {:induction false} UnseenConcat<V>(a: Dict<V>, b: Dict<V>, seen: set<string>)
    ensures Unseen(a + b, seen) == Unseen(a, seen) + Unseen(b, seen)
  {
    if a == [] {
      assert a + b == b;
    } else {
      assert (a + b)[1..] == a[1..] + b;
      UnseenConcat(a[1..], b, seen);
    }
  }

  lemma {:induction false} UnseenTwice<V>(d: Dict<V>, a: set<string>, b: set<string>)
    ensures Unseen(Unseen(d, a), b) == Unseen(d, a + b)
  {
    if d != [] {
      UnseenTwice(d[1..], a, b);
      if d[0].key in a {
        assert Unseen(d, a) == Unseen(d[1..], a);
      } else {
        assert Unseen(d, a)[0] == d[0] && Unseen(d, a)[1..] == Unseen(d[1..], a);
      }
    }
  }

  /** One turn of the loop that leaves out what has been seen. */
  lemma UnseenStep<V>(d: Dict<V>, seen: set<string>, i: nat, items: Dict<V>)
    requires i < |d|
    ensures items + Unseen(d[i..], seen)
            == (if d[i].key in seen then items else items + [d[i]]) + Unseen(d[i + 1..], seen)
  {
    assert d[i..][0] == d[i] && d[i..][1..] == d[i + 1..];
  }

  /** The view, less what is hidden, starts with the top dict. */
  lemma UnseenBelow<V>(stack: seq<Dict<V>>, seen: set<string>)
    requires stack != []
    ensures var m := |stack| - 1;
            Unseen(Flatten(stack), seen)
            == Unseen(stack[m], seen) + Unseen(Flatten(stack[..m]), seen + Keys(stack[m]))
  {
    var m := |stack| - 1;
    var top, below := stack[m], Flatten(stack[..m]);
    UnseenConcat(top, Unseen(below, Keys(top)), seen);
    UnseenTwice(below, Keys(top), seen);
    assert Keys(top) + seen == seen + Keys(top);
  }

  lemma {:induction false} LookupUnseen<V>(d: Dict<V>, seen: set<string>, k: string)
    ensures Lookup(Unseen(d, seen), k) == if k in seen then None else Lookup(d, k)
  {
    if d != [] {
      LookupUnseen(d[1..], seen, k);
      if d[0].key in seen {
        assert Unseen(d, seen) == Unseen(d[1..], seen);
      } else {
        assert Unseen(d, seen)[0] == d[0] && Unseen(d, seen)[1..] == Unseen(d[1..], seen);
      }
    }
  }

  lemma HasKeys<V>(d: Dict<V>, k: string)
    ensures k in Keys(d) <==> Has(d, k)
  {
  }

  /** The level of the topmost dict that binds `k`, if any. */
  function Level<V>(stack: seq<Dict<V>>, k: string): (n: int)
    ensures -1 <= n < |stack|
    ensures n >= 0 ==> Has(stack[n], k)
    ensures forall i :: n < i < |stack| ==> !Has(stack[i], k)
  {
    if stack == [] then -1
    else if Has(stack[|stack| - 1], k) then |stack| - 1
    else Level(stack[..|stack| - 1], k)
  }

  /** The view binds each key as the topmost dict that has it does, and binds nothing else. */
  lemma {:induction false} FlattenLookup<V>(stack: seq<Dict<V>>, k: string)
    ensures var n := Level(stack, k);
            Lookup(Flatten(stack), k) == if n < 0 then None else Lookup(stack[n], k)
  {
    if stack != [] {
      var m := |stack| - 1;
      var top, below := stack[m], Flatten(stack[..m]);
      FlattenLookup(stack[..m], k);
      LookupConcat(top, Unseen(below, Keys(top)), k);
      LookupUnseen(below, Keys(top), k);
      HasKeys(top, k);
    }
  }

  lemma {:induction false} UnseenDistinct<V>(d: Dict<V>, seen: set<string>)
    requires Distinct(d)
    ensures Distinct(Unseen(d, seen))
  {
    if d != [] {
      UnseenDistinct(d[1..], seen);
      var rest := Unseen(d[1..], seen);
      if d[0].key !in seen {
        assert Unseen(d, seen) == [d[0]] + rest;
        LookupUnseen(d[1..], seen, d[0].key);
        LookupHas(rest, d[0].key);
        LookupHas(d[1..], d[0].key);
        assert forall i :: 0 <= i < |d[1..]| ==> d[1..][i] == d[i + 1];
        DistinctConcat([d[0]], rest);
      }
    }
  }

  lemma {:induction false} FlattenDistinct<V>(stack: seq<Dict<V>>)
    requires forall d :: d in stack ==> Distinct(d)
    ensures Distinct(Flatten(stack))
  {
    if stack != [] {
      var m := |stack| - 1;
      var top, below := stack[m], Flatten(stack[..m]);
      assert top in stack && forall d :: d in stack[..m] ==> d in stack;
      FlattenDistinct(stack[..m]);
      UnseenDistinct(below, Keys(top));
      DistinctConcat(top, Unseen(below, Keys(top)));
      forall k ensures !(Has(top, k) && Has(Unseen(below, Keys(top)), k)) {
        LookupUnseen(below, Keys(top), k);
        LookupHas(Unseen(below, Keys(top)), k);
        HasKeys(top, k);
      }
    }
  }

  /**
    Items of higher dicts come first, and those of one dict in its own order: `a` and `b` are where the
    items stand in their dicts.
   */
  lemma {:induction false} FlattenTopDown<V>(stack: seq<Dict<V>>, i: nat, j: nat) returns (a: nat, b: nat)
    requires i < j < |Flatten(stack)|
    ensures var (x, y) := (Flatten(stack)[i], Flatten(stack)[j]);
            var (m, n) := (Level(stack, x.key), Level(stack, y.key));
            && 0 <= n <= m && a < |stack[m]| && b < |stack[n]|
            && stack[m][a] == x && stack[n][b] == y && (m == n ==> a < b)
  {
    var m := |stack| - 1;
    var top, below := stack[m], Flatten(stack[..m]);
    var flat := Flatten(stack);
    if i < |top| {
      a := i;
      assert flat[i] == top[i] && Has(top, flat[i].key);
      if j < |top| {
        b := j;
        assert flat[j] == top[j] && Has(top, flat[j].key);
      } else {
        var c := OriginOne(below, Keys(top), j - |top|);
        b := FlattenOne(stack[..m], c);
        LevelBelow(stack, flat[j].key);
      }
    } else {
      var c, d := Origin(below, Keys(top), i - |top|, j - |top|);
      a, b := FlattenTopDown(stack[..m], c, d);
      LevelBelow(stack, flat[i].key);
      LevelBelow(stack, flat[j].key);
    }
  }

  lemma LevelBelow<V>(stack: seq<Dict<V>>, k: string)
    requires stack != [] && k !in Keys(stack[|stack| - 1])
    ensures Level(stack, k) == Level(stack[..|stack| - 1], k)
  {
    HasKeys(stack[|stack| - 1], k);
  }

  lemma {:induction false} FlattenOne<V>(stack: seq<Dict<V>>, i: nat) returns (a: nat)
    requires i < |Flatten(stack)|
    ensures var x := Flatten(stack)[i];
            var m := Level(stack, x.key);
            0 <= m && a < |stack[m]| && stack[m][a] == x
  {
    var m := |stack| - 1;
    var top, below := stack[m], Flatten(stack[..m]);
    var flat := Flatten(stack);
    if i < |top| {
      a := i;
      assert flat[i] == top[i] && Has(top, flat[i].key);
    } else {
      var c := OriginOne(below, Keys(top), i - |top|);
      a := FlattenOne(stack[..m], c);
      LevelBelow(stack, flat[i].key);
    }
  }

  /** Leaving items out keeps the order of the others. */
  lemma {:induction false} Origin<V>(d: Dict<V>, seen: set<string>, i: nat, j: nat) returns (a: nat, b: nat)
    requires i < j < |Unseen(d, seen)|
    ensures a < b < |d| && d[a] == Unseen(d, seen)[i] && d[b] == Unseen(d, seen)[j]
    ensures d[a].key !in seen && d[b].key !in seen
  {
    var rest := Unseen(d[1..], seen);
    if d[0].key in seen {
      a, b := Origin(d[1..], seen, i, j);
      a, b := a + 1, b + 1;
    } else {
      assert Unseen(d, seen) == [d[0]] + rest;
      b := OriginOne(d[1..], seen, j - 1);
      if i == 0 {
        a := 0;
      } else {
        a, b := Origin(d[1..], seen, i - 1, j - 1);
        a := a + 1;
      }
      b := b + 1;
    }
  }

  lemma {:induction false} OriginOne<V>(d: Dict<V>, seen: set<string>, i: nat) returns (a: nat)
    requires i < |Unseen(d, seen)|
    ensures a < |d| && d[a] == Unseen(d, seen)[i] && d[a].key !in seen
  {
    if d[0].key in seen {
      a := OriginOne(d[1..], seen, i);
      a := a + 1;
    } else if i == 0 {
      a := 0;
    } else {
      assert Unseen(d, seen)[i] == Unseen(d[1..], seen)[i - 1];
      a := OriginOne(d[1..], seen, i - 1);
      a := a + 1;
    }
  }

  // ---------- runs

  /** The cached view is the flattened stack. */
  ghost predicate Agrees<V>(s: Fields<V>) {
    View(s) == Flatten(s.stack)
  }

  /** An unwinding below zero while a view that is not empty is cached. */
  predicate Spoils<V>(s: Fields<V>, op: Op<V>) {
    op.UnwindTo? && op.level < 0 && s.cache.Some? && s.cache.value != []
  }

  /** Of all operations, just the unwinding below zero leaves a stale view behind. */
  lemma StepAgrees<V>(s: Fields<V>, op: Op<V>)
    requires Agrees(s)
    ensures Agrees(After(s, op)) <==> !Spoils(s, op)
  {
  }

  function AfterAll<V>(s: Fields<V>, ops: seq<Op<V>>): Fields<V>
    decreases |ops|
  {
    if ops == [] then s else AfterAll(After(s, ops[0]), ops[1..])
  }

  predicate NeverSpoils<V>(s: Fields<V>, ops: seq<Op<V>>)
    decreases |ops|
  {
    ops != [] ==> !Spoils(s, ops[0]) && NeverSpoils(After(s, ops[0]), ops[1..])
  }

  ghost predicate AlwaysAgrees<V>(s: Fields<V>, ops: seq<Op<V>>)
    decreases |ops|
  {
    Agrees(s) && (ops != [] ==> AlwaysAgrees(After(s, ops[0]), ops[1..]))
  }

  /** Through all of a run the view is the flattened stack, exactly if no operation spoils it. */
  lemma {:induction false} RunAgrees<V>(s: Fields<V>, ops: seq<Op<V>>)
    requires Agrees(s)
    ensures AlwaysAgrees(s, ops) <==> NeverSpoils(s, ops)
    ensures NeverSpoils(s, ops) ==> Agrees(AfterAll(s, ops))
    decreases |ops|
  {
    if ops != [] {
      StepAgrees(s, ops[0]);
      if Agrees(After(s, ops[0])) {
        RunAgrees(After(s, ops[0]), ops[1..]);
      }
    }
  }

  /** In particular it is when no level is negative, and `push` returns no other. */
  lemma {:induction false} LevelsAgree<V>(s: Fields<V>, ops: seq<Op<V>>)
    requires Agrees(s) && forall i :: 0 <= i < |ops| && ops[i].UnwindTo? ==> ops[i].level >= 0
    ensures AlwaysAgrees(s, ops)
    decreases |ops|
  {
    if ops != [] {
      StepAgrees(s, ops[0]);
      LevelsAgree(After(s, ops[0]), ops[1..]);
    }
  }

  /** A stack of one dict whose view has been read, unwound to -1: it is empty, but still shows the dict. */
  lemma StaleView<V>(d: Dict<V>)
    requires d != []
    ensures var shown := After(After(Fields([], None), PushDict(d)), Read);
            var s := After(shown, UnwindTo(-1));
            s.stack == [] && View(s) == d && Agrees(shown) && !Agrees(s)
  {
    var stack := [d];
    assert stack[..0] == [] && d + Unseen(Flatten(stack[..0]), Keys(d)) == d;
    assert [] + stack == stack;
  }

  // ---------- what pushes and pops do

  /** After a push its dict is on top: its keys are bound as it binds them, all others as before. */
  lemma PushShows<V>(s: Fields<V>, d: Dict<V>, k: string)
    ensures var t := After(s, PushDict(d));
            && |t.stack| == |s.stack| + 1
            && Lookup(View(t), k) == if Has(d, k) then Lookup(d, k) else Lookup(Flatten(s.stack), k)
  {
    var t := After(s, PushDict(d));
    assert t.stack[..|s.stack|] == s.stack;
    LookupConcat(d, Unseen(Flatten(s.stack), Keys(d)), k);
    LookupUnseen(Flatten(s.stack), Keys(d), k);
    HasKeys(d, k);
  }

  /** A pop takes off what a push put on; a stack with nothing on it stays so. */
  lemma PopUndoesPush<V>(s: Fields<V>, d: Dict<V>)
    ensures var t := After(After(s, PushDict(d)), PopDict);
            t.stack == s.stack && View(t) == Flatten(s.stack)
    ensures s.stack == [] ==> After(s, PopDict).stack == [] && View(After(s, PopDict)) == []
  {
    assert (s.stack + [d])[..|s.stack|] == s.stack;
  }

  /** A view that was read is read again as it is, without looking at the stack. */
  lemma ReadOnce<V>(s: Fields<V>)
    ensures var t := After(s, Read);
            t.stack == s.stack && t.cache == Some(View(s)) && After(t, Read) == t
  {
  }

  /** Unwinding keeps the dicts at the bottom, as many as the level says, if there are so many. */
  lemma UnwindKeeps<V>(s: Fields<V>, level: int)
    ensures var t := After(s, UnwindTo(level));
            && t.stack <= s.stack
            && |t.stack| == (if level < 0 then 0 else if level < |s.stack| then level else |s.stack|)
            && (level >= 0 ==> View(t) == Flatten(t.stack))
  {
  }

  /** `n` pushes are open, every pop has its push, and at the end none is open; views may be read. */
  predicate Matched<V>(ops: seq<Op<V>>, n: nat)
    decreases |ops|
  {
    if ops == [] then n == 0
    else
      match ops[0]
      case PushDict(_) => Matched(ops[1..], n + 1)
      case PopDict => n > 0 && Matched(ops[1..], n - 1)
      case UnwindTo(_) => false
      case Read => Matched(ops[1..], n)
  }

  lemma {:induction false} MatchedFrom<V>(base: seq<Dict<V>>, s: Fields<V>, ops: seq<Op<V>>, n: nat)
    requires Matched(ops, n) && base <= s.stack && |s.stack| == |base| + n && Agrees(s)
    ensures AfterAll(s, ops).stack == base && Agrees(AfterAll(s, ops))
    decreases |ops|
  {
    if ops == [] {
      assert s.stack[..|base|] == s.stack;
    } else {
      StepAgrees(s, ops[0]);
      MatchedFrom(base, After(s, ops[0]), ops[1..],
                  if ops[0].PushDict? then n + 1 else if ops[0].PopDict? then n - 1 else n);
    }
  }

  /** Blocks that push and pop, one in another and one after another, leave stack and view as they were. */
  lemma MatchedRestores<V>(s: Fields<V>, ops: seq<Op<V>>)
    requires Matched(ops, 0) && Agrees(s)
    ensures AfterAll(s, ops).stack == s.stack && View(AfterAll(s, ops)) == View(s)
  {
    MatchedFrom(s.stack, s, ops, 0);
  }

  /** No operation takes the stack below `level`. */
  predicate StaysAbove<V>(s: Fields<V>, ops: seq<Op<V>>, level: nat)
    decreases |ops|
  {
    |s.stack| >= level && (ops != [] ==> StaysAbove(After(s, ops[0]), ops[1..], level))
  }

  lemma {:induction false} PrefixKept<V>(s: Fields<V>, ops: seq<Op<V>>, level: nat)
    requires StaysAbove(s, ops, level)
    ensures |AfterAll(s, ops).stack| >= level
    ensures AfterAll(s, ops).stack[..level] == s.stack[..level]
    decreases |ops|
  {
    if ops != [] {
      var next := After(s, ops[0]);
      PrefixKept(next, ops[1..], level);
      assert next.stack[..level] == s.stack[..level];
    }
  }

  /**
    Whatever happens between a push and unwinding to the level it returned, as long as it stays above
    that level, the stack and the view are what they were, even if the cache was spoilt in between.
   */
  lemma UnwindRestores<V>(s: Fields<V>, d: Dict<V>, ops: seq<Op<V>>)
    requires StaysAbove(After(s, PushDict(d)), ops, |s.stack|)
    ensures var restored := After(AfterAll(After(s, PushDict(d)), ops), UnwindTo(|s.stack|));
            restored.stack == s.stack && View(restored) == Flatten(s.stack)
  {
    var pushed := After(s, PushDict(d));
    PrefixKept(pushed, ops, |s.stack|);
    assert pushed.stack[..|s.stack|] == s.stack;
    var t := AfterAll(pushed, ops);
    assert t.stack[..|s.stack|] == s.stack;
  }
}
