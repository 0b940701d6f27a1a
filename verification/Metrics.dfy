/** Metric files of one `prometheus_multiproc_dir`, and sums over sets of them. */
module Metrics {

  datatype Kind = Histogram | Counter | Other

  /** The `le` label of a histogram bucket; `Whole` marks samples that are not buckets. */
  datatype Le = Whole | UpTo(bound: real) | Infinity

  /** One sample of one metric. The kind is part of the key: a metric name is used for one type only. */
  datatype Key = Key(kind: Kind, name: string, labels: string, le: Le)

  type Table = map<Key, real>

  datatype File = WorkerFile(kind: Kind, pid: nat) | ArchiveFile(kind: Kind)

  type Files = map<File, Table>

  /** A key a table does not hold contributes nothing. */
  function Get(t: Table, k: Key): real {
    if k in t then t[k] else 0.0
  }

  /** The effect of one increment on the table that holds it. */
  function Bump(t: Table, k: Key, amount: real): (r: Table)
    ensures r.Keys == t.Keys + {k}
    ensures forall j :: Get(r, j) == Get(t, j) + if j == k then amount else 0.0
  {
    t[k := Get(t, k) + amount]
  }

  /** Key-wise sum, over the union of the keys. */
  function Plus(a: Table, b: Table): (r: Table)
    ensures r.Keys == a.Keys + b.Keys
    ensures forall k :: Get(r, k) == Get(a, k) + Get(b, k)
  {
    map k | k in a.Keys + b.Keys :: Get(a, k) + Get(b, k)
  }

  function Restrict(t: Table, kind: Kind): (r: Table)
    ensures forall k: Key :: k in r <==> k in t && k.kind == kind
    ensures forall k: Key :: k.kind == kind ==> Get(r, k) == Get(t, k)
  {
    map k | k in t && k.kind == kind :: t[k]
  }

  function Cell(files: Files, f: File, k: Key): real {
    if f in files then Get(files[f], k) else 0.0
  }

  predicate Holds(files: Files, f: File, k: Key) {
    f in files && k in files[f]
  }

  ghost predicate SomeHolds(files: Files, fs: set<File>, k: Key) {
    exists f :: f in fs && Holds(files, f, k)
  }

  /** What the files `fs` hold together for `k`. */
  ghost function Sum(files: Files, fs: set<File>, k: Key): real {
    if fs == {} then 0.0
    else
      var f :| f in fs;
      Cell(files, f, k) + Sum(files, fs - {f}, k)
  }

  /** The sum does not depend on the order in which files are visited. */
  lemma {:induction false} SumRemove(files: Files, fs: set<File>, f: File, k: Key)
    requires f in fs
    ensures Sum(files, fs, k) == Cell(files, f, k) + Sum(files, fs - {f}, k)
    decreases fs
  {
    var g :| g in fs && Sum(files, fs, k) == Cell(files, g, k) + Sum(files, fs - {g}, k);
    if g != f {
      SumRemove(files, fs - {g}, f, k);
      SumRemove(files, fs - {f}, g, k);
      assert fs - {g} - {f} == fs - {f} - {g};
    }
  }

  lemma {:induction false} SumAgree(files: Files, files': Files, fs: set<File>, k: Key)
    requires forall f :: f in fs ==> Cell(files, f, k) == Cell(files', f, k)
    ensures Sum(files, fs, k) == Sum(files', fs, k)
    decreases fs
  {
    if fs != {} {
      var f :| f in fs;
      SumRemove(files, fs, f, k);
      SumRemove(files', fs, f, k);
      SumAgree(files, files', fs - {f}, k);
    }
  }

  lemma {:induction false} SumDisjoint(files: Files, fs: set<File>, gs: set<File>, k: Key)
    requires fs !! gs
    ensures Sum(files, fs + gs, k) == Sum(files, fs, k) + Sum(files, gs, k)
    decreases gs
  {
    if gs == {} {
      assert fs + gs == fs;
    } else {
      var g :| g in gs;
      SumRemove(files, gs, g, k);
      SumRemove(files, fs + gs, g, k);
      assert fs + gs - {g} == fs + (gs - {g});
      SumDisjoint(files, fs, gs - {g}, k);
    }
  }

  lemma NoCommonFile(a: set<File>, b: set<File>)
    requires a * b == {}
    ensures a !! b
  {
    forall f | f in a
      ensures f !in b
    {
      assert f in b <==> f in a * b;
    }
  }

  ghost function AllKeys(files: Files): set<Key> {
    set f, k | f in files && k in files[f] :: k
  }

  /**
    What a scrape of quiescent files reports before buckets are accumulated: the key-wise sum of every
    file. The merge itself belongs to prometheus_client; this is the contract it is held to.
   */
  ghost function Merged(files: Files): Table {
    map k | k in AllKeys(files) :: Sum(files, files.Keys, k)
  }
}
