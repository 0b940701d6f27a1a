/** Cumulative histogram buckets, as computed from merged files when metrics are scraped. */
module Histograms {
  import opened Metrics
  import opened Cleanup
  import opened CleanupTheorems

  predicate IsBucket(k: Key) {
    k.kind == Histogram && !k.le.Whole?
  }

  predicate LeAtMost(a: Le, b: Le) {
    || b.Infinity?
    || (a.UpTo? && b.UpTo? && a.bound <= b.bound)
  }

  /** `j` is a bucket of the same series as `k`, with an upper limit no greater. */
  predicate NotAbove(j: Key, k: Key) {
    IsBucket(j) && IsBucket(k) && j.name == k.name && j.labels == k.labels && LeAtMost(j.le, k.le)
  }

  function Buckets(t: Table, k: Key): set<Key> {
    set j | j in t && NotAbove(j, k)
  }

  ghost function KeySum(t: Table, ks: set<Key>): real {
    if ks == {} then 0.0
    else
      var k :| k in ks;
      Get(t, k) + KeySum(t, ks - {k})
  }

  /** How many observations fell in the bucket `k` or one below it. */
  ghost function Cumulative(t: Table, k: Key): real {
    KeySum(t, Buckets(t, k))
  }

  /** Buckets accumulated, everything else as it is. */
  ghost function Accumulated(t: Table): Table {
    map k | k in t :: if IsBucket(k) then Cumulative(t, k) else t[k]
  }

  /** A histogram with given labels: what its buckets and its `_count` share. */
  datatype Series = Series(name: string, labels: string)

  function SeriesOf(keys: set<Key>): set<Series> {
    set k | k in keys && IsBucket(k) :: Series(k.name, k.labels)
  }

  function BucketsOf(t: Table, s: Series): set<Key> {
    set k | k in t && IsBucket(k) && k.name == s.name && k.labels == s.labels
  }

  /** What has been added up after the last bucket. */
  ghost function Count(t: Table, s: Series): real {
    KeySum(t, BucketsOf(t, s))
  }

  function Top(s: Series): Key {
    Key(Histogram, s.name, s.labels, Infinity)
  }

  /** What a scrape shows: the accumulated table, and the `_count` of every series of buckets. */
  datatype Exposition = Exposition(samples: Table, counts: map<Series, real>)

  ghost function Exposed(t: Table): Exposition {
    Exposition(Accumulated(t), map s | s in SeriesOf(t.Keys) :: Count(t, s))
  }

  /** The count is what the bucket without an upper limit shows. */
  lemma CountIsTop(t: Table, s: Series)
    ensures Count(t, s) == Cumulative(t, Top(s))
    ensures Top(s) in t ==> s in SeriesOf(t.Keys) && Accumulated(t)[Top(s)] == Count(t, s)
  {
    assert BucketsOf(t, s) == Buckets(t, Top(s));
    if Top(s) in t {
      assert Series(Top(s).name, Top(s).labels) == s;
    }
  }

  /** Neither bucket is of another series, and the limit of the second is the greater. */
  predicate Below(a: Key, b: Key) {
    && IsBucket(a) && IsBucket(b) && a.name == b.name && a.labels == b.labels
    && a.le.UpTo? && (b.le.Infinity? || (b.le.UpTo? && a.le.bound < b.le.bound))
  }

  /** The running sum over a series in the order of the limits: it starts with the lowest bucket. */
  lemma LowestBucket(t: Table, b: Key)
    requires b in t && IsBucket(b) && forall a :: a in t ==> !Below(a, b)
    ensures Cumulative(t, b) == t[b]
  {
    forall a | a in Buckets(t, b)
      ensures a == b
    {
    }
    assert NotAbove(b, b);
    assert Buckets(t, b) == {b};
    KeySumRemove(t, {b}, b);
  }

  /** Each bucket adds its own observations to what the one before it has. */
  lemma NextBucket(t: Table, a: Key, b: Key)
    requires a in t && b in t && Below(a, b) && forall c :: c in t ==> !(Below(a, c) && Below(c, b))
    ensures Cumulative(t, b) == Cumulative(t, a) + t[b]
  {
    forall c | c in t
      ensures NotAbove(c, b) <==> NotAbove(c, a) || c == b
    {
    }
    assert !NotAbove(b, a);
    assert Buckets(t, b) - {b} == Buckets(t, a);
    KeySumRemove(t, Buckets(t, b), b);
  }

  lemma {:induction false} KeySumRemove(t: Table, ks: set<Key>, k: Key)
    requires k in ks
    ensures KeySum(t, ks) == Get(t, k) + KeySum(t, ks - {k})
    decreases ks
  {
    var j :| j in ks && KeySum(t, ks) == Get(t, j) + KeySum(t, ks - {j});
    if j != k {
      KeySumRemove(t, ks - {j}, k);
      KeySumRemove(t, ks - {k}, j);
      assert ks - {j} - {k} == ks - {k} - {j};
    }
  }

  /** Keys a table does not hold can be left out of a sum. */
  lemma {:induction false} KeySumPresent(t: Table, ks: set<Key>, js: set<Key>)
    requires js <= ks && forall k :: k in ks - js ==> k !in t
    ensures KeySum(t, ks) == KeySum(t, js)
    decreases ks
  {
    if k :| k in ks && k !in js {
      KeySumRemove(t, ks, k);
      KeySumPresent(t, ks - {k}, js);
    } else {
      assert ks == js;
    }
  }

  /** Each file accumulated on its own, then added up. */
  ghost function SumOfCumulatives(files: Files, fs: set<File>, k: Key): real
    requires fs <= files.Keys
  {
    if fs == {} then 0.0
    else
      var f :| f in fs;
      Cumulative(files[f], k) + SumOfCumulatives(files, fs - {f}, k)
  }

  ghost function KeySumOfSums(files: Files, fs: set<File>, ks: set<Key>): real {
    if ks == {} then 0.0
    else
      var k :| k in ks;
      Sum(files, fs, k) + KeySumOfSums(files, fs, ks - {k})
  }

  lemma {:induction false} PeelFile(files: Files, fs: set<File>, f: File, ks: set<Key>)
    requires f in fs && f in files
    ensures KeySumOfSums(files, fs, ks) == KeySum(files[f], ks) + KeySumOfSums(files, fs - {f}, ks)
    decreases ks
  {
    if ks != {} {
      var k :| k in ks && KeySumOfSums(files, fs, ks) == Sum(files, fs, k) + KeySumOfSums(files, fs, ks - {k});
      SumRemove(files, fs, f, k);
      KeySumRemove(files[f], ks, k);
      KeySumOfSumsRemove(files, fs - {f}, ks, k);
      PeelFile(files, fs, f, ks - {k});
    }
  }

  lemma {:induction false} KeySumOfSumsRemove(files: Files, fs: set<File>, ks: set<Key>, k: Key)
    requires k in ks
    ensures KeySumOfSums(files, fs, ks) == Sum(files, fs, k) + KeySumOfSums(files, fs, ks - {k})
    decreases ks
  {
    var j :| j in ks && KeySumOfSums(files, fs, ks) == Sum(files, fs, j) + KeySumOfSums(files, fs, ks - {j});
    if j != k {
      KeySumOfSumsRemove(files, fs, ks - {j}, k);
      KeySumOfSumsRemove(files, fs, ks - {k}, j);
      assert ks - {j} - {k} == ks - {k} - {j};
    }
  }

  lemma {:induction false} NoFiles(files: Files, ks: set<Key>)
    ensures KeySumOfSums(files, {}, ks) == 0.0
    decreases ks
  {
    if ks != {} {
      var k :| k in ks;
      KeySumOfSumsRemove(files, {}, ks, k);
      NoFiles(files, ks - {k});
    }
  }

  lemma {:induction false} MergedKeySum(files: Files, ks: set<Key>)
    requires ks <= AllKeys(files)
    ensures KeySum(Merged(files), ks) == KeySumOfSums(files, files.Keys, ks)
    decreases ks
  {
    if ks != {} {
      var k :| k in ks;
      KeySumRemove(Merged(files), ks, k);
      KeySumOfSumsRemove(files, files.Keys, ks, k);
      MergedKeySum(files, ks - {k});
    }
  }

  lemma {:induction false} SplitByFile(files: Files, fs: set<File>, k: Key)
    requires fs <= files.Keys
    ensures KeySumOfSums(files, fs, Buckets(Merged(files), k)) == SumOfCumulatives(files, fs, k)
    decreases fs
  {
    var ks := Buckets(Merged(files), k);
    if fs == {} {
      NoFiles(files, ks);
    } else {
      var f :| f in fs
               && SumOfCumulatives(files, fs, k)
                  == Cumulative(files[f], k) + SumOfCumulatives(files, fs - {f}, k);
      PeelFile(files, fs, f, ks);
      assert forall j :: j in files[f] ==> j in AllKeys(files);
      KeySumPresent(files[f], ks, Buckets(files[f], k));
      assert KeySum(files[f], ks) == Cumulative(files[f], k);
      SplitByFile(files, fs - {f}, k);
    }
  }

  /**
    Merging key by key and then accumulating is accumulating each file and then adding up, for every
    bucket and any set of worker files and archives.
   */
  lemma AccumulateAfterMerge(files: Files, k: Key)
    ensures Cumulative(Merged(files), k) == SumOfCumulatives(files, files.Keys, k)
  {
    var ks := Buckets(Merged(files), k);
    MergedKeySum(files, ks);
    SplitByFile(files, files.Keys, k);
  }

  /** The counts of one series in each file, added up. */
  ghost function SumOfCounts(files: Files, fs: set<File>, s: Series): real
    requires fs <= files.Keys
  {
    if fs == {} then 0.0
    else
      var f :| f in fs;
      Count(files[f], s) + SumOfCounts(files, fs - {f}, s)
  }

  lemma {:induction false} CountsRemove(files: Files, fs: set<File>, f: File, s: Series)
    requires f in fs && fs <= files.Keys
    ensures SumOfCounts(files, fs, s) == Count(files[f], s) + SumOfCounts(files, fs - {f}, s)
    decreases fs
  {
    var g :| g in fs && SumOfCounts(files, fs, s) == Count(files[g], s) + SumOfCounts(files, fs - {g}, s);
    if g != f {
      CountsRemove(files, fs - {g}, f, s);
      CountsRemove(files, fs - {f}, g, s);
      assert fs - {g} - {f} == fs - {f} - {g};
    }
  }

  lemma {:induction false} CountsAreTops(files: Files, fs: set<File>, s: Series)
    requires fs <= files.Keys
    ensures SumOfCounts(files, fs, s) == SumOfCumulatives(files, fs, Top(s))
    decreases fs
  {
    if fs != {} {
      var f :| f in fs
               && SumOfCumulatives(files, fs, Top(s))
                  == Cumulative(files[f], Top(s)) + SumOfCumulatives(files, fs - {f}, Top(s));
      CountIsTop(files[f], s);
      CountsRemove(files, fs, f, s);
      CountsAreTops(files, fs - {f}, s);
    }
  }

  /** The exposition without merging first: every file accumulated and counted on its own, then added up. */
  ghost function ExposedPerFile(files: Files): Exposition {
    Exposition(
      map k | k in AllKeys(files) ::
        if IsBucket(k) then SumOfCumulatives(files, files.Keys, k) else Sum(files, files.Keys, k),
      map s | s in SeriesOf(AllKeys(files)) :: SumOfCounts(files, files.Keys, s))
  }

  lemma ExposedIsPerFile(files: Files)
    ensures Exposed(Merged(files)) == ExposedPerFile(files)
  {
    forall k
      ensures Cumulative(Merged(files), k) == SumOfCumulatives(files, files.Keys, k)
    {
      AccumulateAfterMerge(files, k);
    }
    forall s
      ensures Count(Merged(files), s) == SumOfCounts(files, files.Keys, s)
    {
      CountIsTop(Merged(files), s);
      CountsAreTops(files, files.Keys, s);
    }
    assert Merged(files).Keys == AllKeys(files);
  }

  /**
    Clean-ups do not show in what a scrape reports: buckets, counts and all other samples after them are
    what the files held, each by itself, before them.
   */
  lemma {:induction false} ExpositionUnchanged(before: seq<Action>, s: State, between: seq<Action>, t: State)
    requires Runs(INITIAL, before, s) && Runs(s, between, t)
    requires forall i :: 0 <= i < |between| ==> !between[i].Inc?
    requires !Swapping(s.master) && !Swapping(t.master)
    ensures Exposed(Merged(t.files)) == ExposedPerFile(s.files) == ExposedPerFile(t.files)
  {
    CleanupsInvisible(before, s, between, t);
    ExposedIsPerFile(s.files);
    ExposedIsPerFile(t.files);
  }

  lemma {:induction false} KeySumZero(t: Table, ks: set<Key>)
    requires forall k :: k in ks ==> Get(t, k) >= 0.0
    ensures KeySum(t, ks) >= 0.0
    ensures KeySum(t, ks) == 0.0 <==> forall k :: k in ks ==> Get(t, k) == 0.0
    decreases ks
  {
    if ks != {} {
      var k :| k in ks;
      KeySumRemove(t, ks, k);
      KeySumZero(t, ks - {k});
    }
  }

  /**
    Why the archives must hold plain buckets: accumulating a table that was already accumulated leaves
    a bucket alone only if every bucket below it is empty.
   */
  lemma AccumulatingTwice(t: Table, k: Key)
    requires k in t && IsBucket(k) && forall j :: j in t ==> t[j] >= 0.0
    ensures Cumulative(Accumulated(t), k) == Cumulative(t, k)
            <==> forall j :: j in Buckets(t, k) - {k} ==> t[j] == 0.0
  {
    var e := Accumulated(t);
    var below := Buckets(t, k) - {k};
    assert LeAtMost(k.le, k.le);
    assert Buckets(e, k) == Buckets(t, k);
    KeySumRemove(e, Buckets(t, k), k);
    forall j | j in below
      ensures e[j] >= 0.0 && Buckets(t, j) <= below && j in Buckets(t, j)
      ensures e[j] == 0.0 <==> forall i :: i in Buckets(t, j) ==> t[i] == 0.0
    {
      EmptyBelow(t, k, j);
    }
    KeySumZero(e, below);
  }

  lemma EmptyBelow(t: Table, k: Key, j: Key)
    requires k in t && IsBucket(k) && forall i :: i in t ==> t[i] >= 0.0
    requires j in Buckets(t, k) - {k}
    ensures Accumulated(t)[j] >= 0.0
    ensures j in Buckets(t, j) && Buckets(t, j) <= Buckets(t, k) - {k}
    ensures Accumulated(t)[j] == 0.0 <==> forall i :: i in Buckets(t, j) ==> t[i] == 0.0
  {
    KeySumZero(t, Buckets(t, j));
    assert LeAtMost(j.le, j.le);
  }
}
