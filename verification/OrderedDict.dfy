/** Insertion-ordered dicts with string keys. */
module OrderedDict {
  import opened Options

  datatype Item<+V> = Item(key: string, value: V)

  /** Items in insertion order. As a dict it is meant to be `Distinct`. */
  type Dict<+V> = seq<Item<V>>

  predicate Has<V>(d: Dict<V>, k: string) {
    exists i :: 0 <= i < |d| && d[i].key == k
  }

  predicate Distinct<V>(d: Dict<V>) {
    forall i, j :: 0 <= i < j < |d| ==> d[i].key != d[j].key
  }

  function Lookup<V>(d: Dict<V>, k: string): Option<V> {
    if d == [] then None
    else if d[0].key == k then Some(d[0].value)
    else Lookup(d[1..], k)
  }

  /** `d[k] = v`: a key that is there keeps its place. */
  function Put<V>(d: Dict<V>, k: string, v: V): Dict<V> {
    if d == [] then [Item(k, v)]
    else if d[0].key == k then [Item(k, v)] + d[1..]
    else [d[0]] + Put(d[1..], k, v)
  }

  /** `d.update(items)`. */
  function PutAll<V>(d: Dict<V>, items: Dict<V>): Dict<V> {
    if items == [] then d
    else
      var n := |items| - 1;
      Put(PutAll(d, items[..n]), items[n].key, items[n].value)
  }

  lemma {:induction false} LookupHas<V>(d: Dict<V>, k: string)
    ensures Lookup(d, k).Some? <==> Has(d, k)
  {
    if d != [] {
      LookupHas(d[1..], k);
      if Has(d, k) && d[0].key != k {
        var i :| 0 <= i < |d| && d[i].key == k;
        assert d[1..][i - 1].key == k;
      }
      if i :| 0 <= i < |d| - 1 && d[1..][i].key == k {
        assert d[i + 1].key == k;
      }
    }
  }

  lemma {:induction false} LookupAt<V>(d: Dict<V>, i: nat)
    requires Distinct(d) && i < |d|
    ensures Lookup(d, d[i].key) == Some(d[i].value)
  {
    if i > 0 {
      LookupAt(d[1..], i - 1);
    }
  }

  lemma {:induction false} LookupConcat<V>(a: Dict<V>, b: Dict<V>, k: string)
    ensures Lookup(a + b, k) == if Has(a, k) then Lookup(a, k) else Lookup(b, k)
  {
    LookupHas(a, k);
    if a == [] {
      assert a + b == b;
    } else {
      assert (a + b)[1..] == a[1..] + b;
      LookupHas(a[1..], k);
      LookupConcat(a[1..], b, k);
    }
  }

  lemma {:induction false} LookupPut<V>(d: Dict<V>, k: string, v: V, j: string)
    ensures Lookup(Put(d, k, v), j) == if j == k then Some(v) else Lookup(d, j)
  {
    if d != [] && d[0].key != k {
      LookupPut(d[1..], k, v, j);
    }
  }

  lemma {:induction false} PutShape<V>(d: Dict<V>, k: string, v: V)
    ensures !Has(d, k) ==> Put(d, k, v) == d + [Item(k, v)]
    ensures Has(d, k) ==> |Put(d, k, v)| == |d|
    ensures |Put(d, k, v)| <= |d| + 1
    ensures forall j :: Has(Put(d, k, v), j) <==> Has(d, j) || j == k
  {
    forall j ensures Has(Put(d, k, v), j) <==> Has(d, j) || j == k {
      LookupPut(d, k, v, j);
      LookupHas(d, j);
      LookupHas(Put(d, k, v), j);
    }
    PutSize(d, k, v);
  }

  /** A key that is there keeps its place, and so do all others. */
  lemma {:induction false} PutKeepsPlaces<V>(d: Dict<V>, k: string, v: V)
    requires Has(d, k)
    ensures var r := Put(d, k, v);
            |r| == |d| && forall i :: 0 <= i < |d| ==> r[i].key == d[i].key
  {
    if d[0].key != k {
      var i :| 0 <= i < |d| && d[i].key == k;
      assert d[1..][i - 1].key == k;
      PutKeepsPlaces(d[1..], k, v);
    }
  }

  lemma {:induction false} PutSize<V>(d: Dict<V>, k: string, v: V)
    ensures !Has(d, k) ==> Put(d, k, v) == d + [Item(k, v)]
    ensures |Put(d, k, v)| == |d| + if Has(d, k) then 0 else 1
  {
    if d != [] {
      PutSize(d[1..], k, v);
      LookupHas(d, k);
      LookupHas(d[1..], k);
      if d[0].key != k && !Has(d, k) {
        assert d + [Item(k, v)] == [d[0]] + (d[1..] + [Item(k, v)]);
      }
    }
  }

  lemma {:induction false} PutDistinct<V>(d: Dict<V>, k: string, v: V)
    requires Distinct(d)
    ensures Distinct(Put(d, k, v))
  {
    if d != [] && d[0].key != k {
      PutDistinct(d[1..], k, v);
      PutShape(d[1..], k, v);
      var r := Put(d[1..], k, v);
      forall i | 0 <= i < |r| ensures r[i].key != d[0].key {
        assert Has(r, r[i].key);
        if h :| 0 <= h < |d[1..]| && d[1..][h].key == r[i].key {
          assert d[h + 1].key != d[0].key;
        }
      }
    }
  }

  lemma {:induction false} PutAllDistinct<V>(d: Dict<V>, items: Dict<V>)
    requires Distinct(d)
    ensures Distinct(PutAll(d, items))
  {
    if items != [] {
      var n := |items| - 1;
      PutAllDistinct(d, items[..n]);
      PutDistinct(PutAll(d, items[..n]), items[n].key, items[n].value);
    }
  }

  /** Later items win; what they do not name is kept. */
  lemma {:induction false} LookupPutAll<V>(d: Dict<V>, items: Dict<V>, k: string)
    requires Distinct(items)
    ensures Lookup(PutAll(d, items), k) == if Has(items, k) then Lookup(items, k) else Lookup(d, k)
  {
    if items != [] {
      var n := |items| - 1;
      var last := items[n];
      LookupPutAll(d, items[..n], k);
      LookupPut(PutAll(d, items[..n]), last.key, last.value, k);
      assert items == items[..n] + [last];
      LookupConcat(items[..n], [last], k);
      LookupHas([last], k);
      LookupHas(items, k);
      LookupHas(items[..n], k);
    }
  }

  /** An update is a plain append exactly when no key repeats; otherwise it comes out shorter. */
  lemma {:induction false} PutAllAppends<V>(d: Dict<V>, items: Dict<V>)
    requires Distinct(d)
    ensures |PutAll(d, items)| <= |d| + |items|
    ensures |PutAll(d, items)| == |d| + |items| <==> Distinct(d + items)
    ensures Distinct(d + items) ==> PutAll(d, items) == d + items
  {
    if items == [] {
      assert d + items == d;
    } else {
      var n := |items| - 1;
      var last, before := items[n], PutAll(d, items[..n]);
      PutAllAppends(d, items[..n]);
      PutShape(before, last.key, last.value);
      PutSize(before, last.key, last.value);
      assert d + items == d + items[..n] + [last];
      DistinctSnoc(d + items[..n], last);
    }
  }

  /** Building a dict from items: nothing is lost exactly when no key repeats. */
  lemma FromItems<V>(items: Dict<V>)
    ensures |PutAll([], items)| <= |items|
    ensures |PutAll([], items)| == |items| <==> Distinct(items)
    ensures PutAll([], items) == items <==> Distinct(items)
  {
    assert [] + items == items;
    PutAllAppends([], items);
  }

  lemma DistinctSnoc<V>(d: Dict<V>, last: Item<V>)
    ensures Distinct(d + [last]) <==> Distinct(d) && !Has(d, last.key)
  {
    var e := d + [last];
    assert forall i :: 0 <= i < |d| ==> e[i] == d[i];
    assert e[|d|] == last;
    if Distinct(e) {
      forall i | 0 <= i < |d| ensures d[i].key != last.key {
        assert e[i].key != e[|d|].key;
      }
      forall i, j | 0 <= i < j < |d| ensures d[i].key != d[j].key {
        assert e[i].key != e[j].key;
      }
    }
  }

  lemma DistinctConcat<V>(a: Dict<V>, b: Dict<V>)
    ensures Distinct(a + b) <==> Distinct(a) && Distinct(b) && forall k :: !(Has(a, k) && Has(b, k))
  {
    var e := a + b;
    assert forall i :: 0 <= i < |a| ==> e[i] == a[i];
    assert forall i :: 0 <= i < |b| ==> b[i] == e[|a| + i];
    if Distinct(e) {
      forall i, j | 0 <= i < |a| && 0 <= j < |b| ensures a[i].key != b[j].key {
        assert e[i].key != e[|a| + j].key;
      }
    }
    if Distinct(a) && Distinct(b) && forall k :: !(Has(a, k) && Has(b, k)) {
      forall i, j | 0 <= i < j < |e| ensures e[i].key != e[j].key {
        if i < |a| <= j {
          assert Has(a, e[i].key);
          assert e[j] == b[j - |a|] && Has(b, e[j].key);
        }
      }
    }
  }
}
