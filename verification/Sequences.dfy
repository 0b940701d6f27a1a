/** Facts about concatenation that the solver does not see on its own. */
module Sequences {

  lemma Regroup<T>(a: seq<T>, b: seq<T>, c: seq<T>)
    ensures a + (b + c) == a + b + c
  {
  }

  lemma PullFront<T>(a: seq<T>, b: seq<T>, c: seq<T>, d: seq<T>)
    ensures a + b + c + d == a + (b + c + d)
  {
  }

  lemma SamePrefix<T>(a: seq<T>, b: seq<T>, c: seq<T>)
    ensures a + b == a + c <==> b == c
  {
    if a + b == a + c {
      assert b == (a + b)[|a|..] && c == (a + c)[|a|..];
    }
  }

  lemma HeadTail<T>(a: seq<T>, b: seq<T>)
    requires a != []
    ensures a + b == [a[0]] + (a[1..] + b)
    ensures a == [a[0]] + a[1..]
  {
  }

  /** `x` grows by the head of `a` and then by the rest of it. */
  lemma Grow<T>(x: seq<T>, a: seq<T>)
    requires a != []
    ensures x + [a[0]] + a[1..] == x + a
    ensures a[1..] == [] ==> x + [a[0]] == x + a
  {
  }

  predicate All<A(==, !new)>(f: A -> bool, items: seq<A>) {
    forall item :: item in items ==> f(item)
  }

  lemma AllHead<A(!new)>(f: A -> bool, items: seq<A>)
    requires items != []
    ensures All(f, items) <==> f(items[0]) && All(f, items[1..])
  {
    assert forall item :: item in items <==> item == items[0] || item in items[1..];
  }

  /** The pieces of all the items, in order. */
  function FlatMap<A, B>(f: A -> seq<B>, items: seq<A>): seq<B> {
    if items == [] then [] else FlatMap(f, items[..|items| - 1]) + f(items[|items| - 1])
  }

  function Map<A, B>(m: A -> B, items: seq<A>): (r: seq<B>)
    ensures |r| == |items|
    ensures forall i :: 0 <= i < |items| ==> r[i] == m(items[i])
  {
    seq(|items|, i requires 0 <= i < |items| => m(items[i]))
  }

  /** Taking items apart before or after translating them. */
  lemma {:induction false} FlatMapMap<A, B, C, D>(f: A -> seq<B>, xs: seq<A>, g: C -> seq<D>, ys: seq<C>, m: D -> B)
    requires |xs| == |ys| && forall i :: 0 <= i < |xs| ==> f(xs[i]) == Map(m, g(ys[i]))
    ensures FlatMap(f, xs) == Map(m, FlatMap(g, ys))
  {
    if xs != [] {
      var n := |xs| - 1;
      FlatMapMap(f, xs[..n], g, ys[..n], m);
      assert Map(m, FlatMap(g, ys[..n]) + g(ys[n])) == Map(m, FlatMap(g, ys[..n])) + Map(m, g(ys[n]));
    }
  }

  lemma {:induction false} FlatMapHas<A, B>(f: A -> seq<B>, items: seq<A>, b: B)
    ensures b in FlatMap(f, items) <==> exists i :: 0 <= i < |items| && b in f(items[i])
  {
    if items != [] {
      var n := |items| - 1;
      FlatMapHas(f, items[..n], b);
      if i :| 0 <= i < n && b in f(items[..n][i]) {
        assert b in f(items[i]);
      }
      if i :| 0 <= i < n && b in f(items[i]) {
        assert b in f(items[..n][i]);
      }
    }
  }

  lemma MapHas<A, B>(m: A -> B, items: seq<A>)
    ensures forall a :: a in items ==> m(a) in Map(m, items)
    ensures forall b :: b in Map(m, items) ==> exists i :: 0 <= i < |items| && m(items[i]) == b
  {
    forall a | a in items
      ensures m(a) in Map(m, items)
    {
      var i :| 0 <= i < |items| && items[i] == a;
      assert Map(m, items)[i] == m(a);
    }
  }

  lemma FlatMapOne<A, B>(f: A -> seq<B>, item: A)
    ensures FlatMap(f, [item]) == f(item)
  {
    assert [item][..0] == [];
    assert FlatMap(f, [item]) == [] + f(item);
  }

  /** A function that takes its argument apart item by item, from item `i` of `good` on. */
  lemma {:induction false} Stepwise<A, B>(f: seq<A> -> seq<B>, m: A -> B, good: seq<A>, rest: seq<A>, i: nat)
    requires i <= |good|
    requires forall j :: 0 <= j < |good| ==> f((good + rest)[j..]) == [m(good[j])] + f((good + rest)[j + 1..])
    ensures f((good + rest)[i..]) == Map(m, good)[i..] + f(rest)
    decreases |good| - i
  {
    if i == |good| {
      assert (good + rest)[i..] == rest;
    } else {
      Stepwise(f, m, good, rest, i + 1);
      assert Map(m, good)[i..] == [m(good[i])] + Map(m, good)[i + 1..];
    }
  }
}
