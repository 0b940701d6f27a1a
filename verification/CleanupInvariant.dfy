/** What every step of the clean-up protocol keeps. */
module CleanupInvariant {
  import opened Metrics
  import opened Cleanup

  /** A file holds samples of its own kind only. */
  ghost predicate Typed(files: Files) {
    forall f, k :: Holds(files, f, k) ==> k.kind == f.kind
  }

  /** `t` is the key-wise sum of the files `fs`, with exactly their keys. */
  ghost predicate Accounts(files: Files, fs: set<File>, t: Table) {
    && (forall k :: Get(t, k) == Sum(files, fs, k))
    && (forall k :: k in t <==> SomeHolds(files, fs, k))
  }

  /** `t` is what the archive of `kind` must become once the worker's file of that kind is folded in. */
  ghost predicate Folds(files: Files, kind: Kind, pid: nat, t: Table) {
    var w, a := WorkerFile(kind, pid), ArchiveFile(kind);
    && (forall k :: Get(t, k) == Cell(files, w, k) + Cell(files, a, k))
    && (forall k :: k in t <==> Holds(files, w, k) || Holds(files, a, k))
  }

  /** The merge made outside the lock still describes the files. */
  ghost predicate Snapshot(files: Files, m: Master) {
    match m
    case Merging(pid, paths, todo, acc) =>
      && paths == WorkerFiles(pid) * files.Keys
      && todo <= Involved(pid) * files.Keys
      && Accounts(files, Involved(pid) - todo, acc)
    case Waiting(pid, paths, histograms, counters) =>
      && paths == WorkerFiles(pid) * files.Keys
      && Folds(files, Histogram, pid, histograms) && Folds(files, Counter, pid, counters)
    case Locked(pid, paths, histograms, counters) =>
      && paths == WorkerFiles(pid) * files.Keys
      && Folds(files, Histogram, pid, histograms) && Folds(files, Counter, pid, counters)
    case HistogramsSwapped(pid, paths, counters) =>
      && paths == WorkerFiles(pid) * files.Keys
      && Folds(files, Counter, pid, counters)
    case Unlinking(pid, todo) => todo == WorkerFiles(pid) * files.Keys
    case _ => true
  }

  /** A scrape in progress can still only end between the totals at its start and those at its end. */
  ghost predicate ScrapeBounded(s: State) {
    s.lock.ByScrape? ==>
      && s.lock.todo <= s.files.Keys
      && (!s.lock.listed ==> s.lock.todo == {} && s.lock.acc == map[])
      && forall k :: k !in s.lock.dropped ==>
                       && Get(s.lock.base, k) <= Get(s.total, k)
                       && (s.lock.listed ==>
                             Get(s.lock.base, k)
                             <= Get(s.lock.acc, k) + Sum(s.files, s.lock.todo, k) <= Get(s.total, k))
  }

  ghost predicate LockHeld(s: State) {
    s.lock.ByMaster? <==> s.master.Locked? || Swapping(s.master)
  }

  ghost predicate PidsApart(s: State) {
    s.live !! Pending(s)
  }

  /** A pid in the queue will be seen: a signal is queued, or about to be, or the drain is under way. */
  ghost predicate Noticed(s: State) {
    s.dead != [] ==>
      || Custom in s.signals
      || InDrain(s.master)
      || exists h :: h in s.hooks && (h.Test? || h.Queue?)
  }

  ghost predicate Balanced(s: State) {
    Accounts(s.files, s.files.Keys - Superseded(s.master), s.total)
  }

  ghost predicate Inv(s: State) {
    && PidsApart(s)
    && (s.master.Popping? ==> s.dead != [])
    && LockHeld(s)
    && Typed(s.files)
    && Balanced(s)
    && Snapshot(s.files, s.master)
    && ScrapeBounded(s)
  }

  lemma InitialInv()
    ensures Inv(INITIAL)
  {
  }

  /** Accounting for all files is being their merge. */
  lemma AccountsMerged(files: Files, t: Table)
    ensures Accounts(files, files.Keys, t) <==> t == Merged(files)
  {
    forall k
      ensures SomeHolds(files, files.Keys, k) <==> k in AllKeys(files)
      ensures k !in AllKeys(files) ==> Sum(files, files.Keys, k) == 0.0
    {
      if SomeHolds(files, files.Keys, k) {
        var f :| f in files.Keys && Holds(files, f, k);
        assert k in AllKeys(files);
      }
      if k in AllKeys(files) {
        var f :| f in files && k in files[f];
        assert Holds(files, f, k);
      } else {
        NobodyHolds(files, files.Keys, k);
      }
    }
  }

  lemma {:induction false} NobodyHolds(files: Files, fs: set<File>, k: Key)
    requires forall f :: f in fs ==> !Holds(files, f, k)
    ensures Sum(files, fs, k) == 0.0
    decreases fs
  {
    if fs != {} {
      var f :| f in fs;
      SumRemove(files, fs, f, k);
      NobodyHolds(files, fs - {f}, k);
    }
  }

  // ---------- pids and the lock

  lemma PidsStep(s: State, a: Action)
    requires PidsApart(s) && Enabled(s, a)
    ensures PidsApart(Apply(s, a))
  {
    var t := Apply(s, a);
    forall p | p in Pending(t)
      ensures p in Pending(s) || (a.Die? && p == a.worker)
    {
      if p in HookPids(t.hooks) {
        var h :| h in t.hooks && h == Append(p);
        assert h in s.hooks || (a.ChildExit? && p == a.worker);
      } else if a.HookStep? {
        assert s.hooks[|s.hooks| - 1] in s.hooks;
      }
    }
  }

  // ---------- an increment

  lemma IncCells(s: State, a: Action, f: File, k: Key)
    requires a.Inc? && Enabled(s, a)
    ensures var t := Apply(s, a);
            var w := WorkerFile(a.key.kind, a.worker);
            && Cell(t.files, f, k) == Cell(s.files, f, k) + (if f == w && k == a.key then a.amount else 0.0)
            && (Holds(t.files, f, k) <==> Holds(s.files, f, k) || (f == w && k == a.key))
  {
  }

  /** A set of files that the increment hits gains the amount; any other keeps its sums. */
  lemma IncSum(s: State, a: Action, fs: set<File>, k: Key)
    requires a.Inc? && Enabled(s, a)
    ensures var w := WorkerFile(a.key.kind, a.worker);
            Sum(Apply(s, a).files, fs, k)
            == Sum(s.files, fs, k) + (if w in fs && k == a.key then a.amount else 0.0)
  {
  }

  lemma IncAccounts(s: State, a: Action, fs: set<File>, x: Table)
    requires a.Inc? && Enabled(s, a)
    requires WorkerFile(a.key.kind, a.worker) !in fs
    requires Accounts(s.files, fs, x)
    ensures Accounts(Apply(s, a).files, fs, x)
  {
    var t := Apply(s, a);
    forall k
      ensures Get(x, k) == Sum(t.files, fs, k)
      ensures k in x <==> SomeHolds(t.files, fs, k)
    {
      IncSum(s, a, fs, k);
      forall f ensures f in fs ==> (Holds(t.files, f, k) <==> Holds(s.files, f, k)) {
        IncCells(s, a, f, k);
      }
    }
  }

  lemma IncFolds(s: State, a: Action, kind: Kind, pid: nat, x: Table)
    requires a.Inc? && Enabled(s, a) && pid != a.worker
    requires Folds(s.files, kind, pid, x)
    ensures Folds(Apply(s, a).files, kind, pid, x)
  {
  }

  lemma IncSnapshot(s: State, a: Action)
    requires Inv(s) && a.Inc? && Enabled(s, a)
    ensures Snapshot(Apply(s, a).files, s.master)
  {
    var w := WorkerFile(a.key.kind, a.worker);
    match s.master {
      case Merging(pid, paths, todo, acc) =>
        assert pid in Pending(s);
        IncAccounts(s, a, Involved(pid) - todo, acc);
      case Waiting(pid, paths, histograms, counters) =>
        assert pid in Pending(s);
        IncFolds(s, a, Histogram, pid, histograms);
        IncFolds(s, a, Counter, pid, counters);
      case Locked(pid, paths, histograms, counters) =>
        assert pid in Pending(s);
        IncFolds(s, a, Histogram, pid, histograms);
        IncFolds(s, a, Counter, pid, counters);
      case HistogramsSwapped(pid, paths, counters) =>
        assert pid in Pending(s);
        IncFolds(s, a, Counter, pid, counters);
      case _ =>
    }
  }

  lemma IncBalanced(s: State, a: Action)
    requires Inv(s) && a.Inc? && Enabled(s, a)
    ensures Balanced(Apply(s, a))
  {
    var t := Apply(s, a);
    var w := WorkerFile(a.key.kind, a.worker);
    var fs := s.files.Keys - Superseded(s.master);
    var gs := t.files.Keys - Superseded(t.master);
    assert w !in Superseded(s.master) by {
      if Swapping(s.master) {
        assert s.master.pid in Pending(s);
      }
    }
    assert gs == fs + {w};
    forall k
      ensures Get(t.total, k) == Sum(t.files, gs, k)
      ensures k in t.total <==> SomeHolds(t.files, gs, k)
    {
      IncTotal(s, a, fs, k);
      IncHolders(s, a, fs, k);
    }
  }

  lemma IncTotal(s: State, a: Action, fs: set<File>, k: Key)
    requires a.Inc? && Enabled(s, a)
    requires var w := WorkerFile(a.key.kind, a.worker); w in fs || w !in s.files
    ensures Sum(Apply(s, a).files, fs + {WorkerFile(a.key.kind, a.worker)}, k)
            == Sum(s.files, fs, k) + if k == a.key then a.amount else 0.0
  {
    var w := WorkerFile(a.key.kind, a.worker);
    IncSum(s, a, fs + {w}, k);
    if w in fs {
      assert fs + {w} == fs;
    } else {
      SumRemove(s.files, fs + {w}, w, k);
      assert fs + {w} - {w} == fs;
    }
  }

  lemma IncHolders(s: State, a: Action, fs: set<File>, k: Key)
    requires a.Inc? && Enabled(s, a)
    requires var w := WorkerFile(a.key.kind, a.worker); w in fs || w !in s.files
    ensures SomeHolds(Apply(s, a).files, fs + {WorkerFile(a.key.kind, a.worker)}, k)
            <==> SomeHolds(s.files, fs, k) || k == a.key
  {
  }

  lemma IncScrape(s: State, a: Action)
    requires Inv(s) && a.Inc? && Enabled(s, a)
    ensures ScrapeBounded(Apply(s, a))
  {
    if s.lock.ByScrape? {
      forall k {
        IncSum(s, a, s.lock.todo, k);
      }
    }
  }

  lemma IncTyped(s: State, a: Action)
    requires Typed(s.files) && a.Inc? && Enabled(s, a)
    ensures Typed(Apply(s, a).files)
  {
  }

  // ---------- the merge

  lemma PlusAccounts(files: Files, fs: set<File>, f: File, acc: Table)
    requires f in files && f !in fs && Accounts(files, fs, acc)
    ensures Accounts(files, fs + {f}, Plus(acc, files[f]))
  {
    var r := Plus(acc, files[f]);
    forall k
      ensures Get(r, k) == Sum(files, fs + {f}, k)
      ensures k in r <==> SomeHolds(files, fs + {f}, k)
    {
      SumRemove(files, fs + {f}, f, k);
      assert fs + {f} - {f} == fs;
      if k in files[f] {
        assert f in fs + {f} && Holds(files, f, k);
      }
      if SomeHolds(files, fs, k) {
        var g :| g in fs && Holds(files, g, k);
        assert g in fs + {f};
      }
      if SomeHolds(files, fs + {f}, k) {
        var g :| g in fs + {f} && Holds(files, g, k);
        assert g == f || g in fs;
      }
    }
  }

  lemma MergeFileStep(s: State, a: Action)
    requires Inv(s) && a.MergeFile? && Enabled(s, a)
    ensures Snapshot(s.files, Apply(s, a).master)
  {
    var Merging(pid, paths, todo, acc) := s.master;
    PlusAccounts(s.files, Involved(pid) - todo, a.file, acc);
    assert Involved(pid) - (todo - {a.file}) == Involved(pid) - todo + {a.file};
  }

  /** Restricted to one kind, the merge of the four files is the fold of that kind. */
  lemma AccountsFolds(files: Files, pid: nat, acc: Table, kind: Kind)
    requires kind != Other && Typed(files) && Accounts(files, Involved(pid), acc)
    ensures Folds(files, kind, pid, Restrict(acc, kind))
  {
    var w, z := WorkerFile(kind, pid), ArchiveFile(kind);
    var r := Restrict(acc, kind);
    forall k
      ensures Get(r, k) == Cell(files, w, k) + Cell(files, z, k)
      ensures k in r <==> Holds(files, w, k) || Holds(files, z, k)
    {
      assert Holds(files, w, k) ==> k.kind == kind;
      assert Holds(files, z, k) ==> k.kind == kind;
      if k.kind == kind {
        var rest := Involved(pid) - {w} - {z};
        SumRemove(files, Involved(pid), w, k);
        SumRemove(files, Involved(pid) - {w}, z, k);
        NobodyHolds(files, rest, k);
        assert w in Involved(pid) && z in Involved(pid);
      }
    }
  }

  // ---------- the swap

  lemma SwapCells(files: Files, kind: Kind, t: Table, f: File, k: Key)
    ensures var files' := files[ArchiveFile(kind) := t];
            && Cell(files', f, k) == (if f == ArchiveFile(kind) then Get(t, k) else Cell(files, f, k))
            && (Holds(files', f, k) <==> if f == ArchiveFile(kind) then k in t else Holds(files, f, k))
  {
  }

  /** Renaming a fold over its archive, and discounting the worker's file, changes no sum and no key. */
  lemma SwapAccounts(files: Files, fs: set<File>, kind: Kind, pid: nat, t: Table, total: Table)
    requires Accounts(files, fs, total) && Folds(files, kind, pid, t)
    requires fs <= files.Keys
    requires WorkerFile(kind, pid) in files ==> WorkerFile(kind, pid) in fs
    requires ArchiveFile(kind) in files ==> ArchiveFile(kind) in fs
    ensures Accounts(files[ArchiveFile(kind) := t], fs + {ArchiveFile(kind)} - {WorkerFile(kind, pid)}, total)
  {
    var w, z := WorkerFile(kind, pid), ArchiveFile(kind);
    var files' := files[z := t];
    var gs := fs + {z} - {w};
    forall k
      ensures Get(total, k) == Sum(files', gs, k)
      ensures k in total <==> SomeHolds(files', gs, k)
    {
      forall f
        ensures f != z ==> Cell(files', f, k) == Cell(files, f, k)
        ensures f != z ==> (Holds(files', f, k) <==> Holds(files, f, k))
      {
        SwapCells(files, kind, t, f, k);
      }
      SwapCells(files, kind, t, z, k);
      SumRemove(files', gs, z, k);
      SumAgree(files, files', gs - {z}, k);
      DropCell(files, fs, w, k);
      DropCell(files, fs - {w}, z, k);
      assert gs - {z} == fs - {w} - {z};
      if SomeHolds(files, fs, k) {
        var f :| f in fs && Holds(files, f, k);
        assert if f == w || f == z then z in gs && Holds(files', z, k) else f in gs && Holds(files', f, k);
      }
      if SomeHolds(files', gs, k) {
        var f :| f in gs && Holds(files', f, k);
        if f == z {
          var g := if Holds(files, w, k) then w else z;
          assert g in fs && Holds(files, g, k);
        } else {
          assert f in fs && Holds(files, f, k);
        }
      }
    }
  }

  lemma DropCell(files: Files, fs: set<File>, f: File, k: Key)
    requires f in files ==> f in fs
    ensures Sum(files, fs, k) == Cell(files, f, k) + Sum(files, fs - {f}, k)
  {
    if f in fs {
      SumRemove(files, fs, f, k);
    } else {
      assert fs - {f} == fs;
    }
  }

  lemma SwapStep(s: State)
    requires Inv(s) && Enabled(s, Advance) && (s.master.Locked? || s.master.HistogramsSwapped?)
    ensures var t := Apply(s, Advance);
            Balanced(t) && Typed(t.files) && Snapshot(t.files, t.master)
  {
    var t := Apply(s, Advance);
    var pid := s.master.pid;
    var kind := if s.master.Locked? then Histogram else Counter;
    var x := if s.master.Locked? then s.master.histograms else s.master.counters;
    var fs := s.files.Keys - Superseded(s.master);
    var z := ArchiveFile(kind);
    assert t.files == s.files[z := x];
    SwapAccounts(s.files, fs, kind, pid, x, s.total);
    assert t.files.Keys - Superseded(t.master) == fs + {z} - {WorkerFile(kind, pid)};
    forall f, k | Holds(t.files, f, k)
      ensures k.kind == f.kind
    {
      SwapCells(s.files, kind, x, f, k);
      assert Holds(s.files, WorkerFile(kind, pid), k) ==> k.kind == kind;
      assert Holds(s.files, z, k) ==> k.kind == kind;
    }
    if s.master.Locked? {
      var w', z' := WorkerFile(Counter, pid), ArchiveFile(Counter);
      forall k
        ensures Cell(t.files, w', k) == Cell(s.files, w', k) && Cell(t.files, z', k) == Cell(s.files, z', k)
        ensures Holds(t.files, w', k) <==> Holds(s.files, w', k)
        ensures Holds(t.files, z', k) <==> Holds(s.files, z', k)
      {
        SwapCells(s.files, kind, x, w', k);
        SwapCells(s.files, kind, x, z', k);
      }
    }
  }

  lemma UnlinkStep(s: State, a: Action)
    requires Inv(s) && a.Unlink? && Enabled(s, a)
    ensures var t := Apply(s, a);
            Balanced(t) && Typed(t.files) && Snapshot(t.files, t.master)
  {
    var t := Apply(s, a);
    var fs := s.files.Keys - Superseded(s.master);
    assert t.files.Keys - Superseded(t.master) == fs;
    forall k
      ensures Get(t.total, k) == Sum(t.files, fs, k)
      ensures k in t.total <==> SomeHolds(t.files, fs, k)
    {
      SumAgree(s.files, t.files, fs, k);
      forall f ensures f in fs ==> (Holds(t.files, f, k) <==> Holds(s.files, f, k)) {
      }
    }
    assert forall f, k :: Holds(t.files, f, k) ==> Holds(s.files, f, k);
  }

  lemma StartStep(s: State)
    requires Inv(s) && Enabled(s, Advance) && s.master.Starting?
    ensures Snapshot(s.files, Apply(s, Advance).master)
  {
    var pid := s.master.pid;
    var m := Apply(s, Advance).master;
    if m.Merging? {
      var gone := Involved(pid) - m.todo;
      forall k
        ensures Get(m.acc, k) == Sum(s.files, gone, k)
        ensures !SomeHolds(s.files, gone, k)
      {
        NobodyHolds(s.files, gone, k);
      }
    }
  }

  // ---------- the scrape

  lemma ScrapeStep(s: State, a: Action)
    requires Inv(s) && Enabled(s, a) && (a.ScrapeList? || a.ScrapeFile?)
    ensures ScrapeBounded(Apply(s, a))
  {
    var t := Apply(s, a);
    assert Superseded(s.master) == {};
    if a.ScrapeList? {
      assert s.files.Keys - {} == s.files.Keys;
    } else {
      forall k {
        SumRemove(s.files, s.lock.todo, a.file, k);
      }
    }
  }

  // ---------- every step

  lemma AdvanceInv(s: State)
    requires Inv(s) && Enabled(s, Advance)
    ensures Inv(Apply(s, Advance))
  {
    PidsStep(s, Advance);
    match s.master {
      case Starting(_) => StartStep(s);
      case Merging(pid, _, _, acc) =>
        assert Involved(pid) - {} == Involved(pid);
        AccountsFolds(s.files, pid, acc, Histogram);
        AccountsFolds(s.files, pid, acc, Counter);
      case Locked(_, _, _, _) => SwapStep(s);
      case HistogramsSwapped(_, _, _) => SwapStep(s);
      case _ =>
    }
  }

  lemma IncInv(s: State, a: Action)
    requires Inv(s) && a.Inc? && Enabled(s, a)
    ensures Inv(Apply(s, a))
  {
    PidsStep(s, a);
    IncTyped(s, a);
    IncBalanced(s, a);
    IncSnapshot(s, a);
    IncScrape(s, a);
  }

  lemma MasterInv(s: State, a: Action)
    requires Inv(s) && Enabled(s, a) && ByMasterItself(a)
    ensures Inv(Apply(s, a))
  {
    PidsStep(s, a);
    match a {
      case Advance => AdvanceInv(s);
      case MergeFile(_) => MergeFileStep(s, a);
      case Unlink(_) => UnlinkStep(s, a);
      case _ =>
    }
  }

  predicate ByScraper(a: Action) {
    a.ScrapeAcquire? || a.ScrapeList? || a.ScrapeFile? || a.ScrapeRelease?
  }

  lemma ScrapeInv(s: State, a: Action)
    requires Inv(s) && Enabled(s, a) && ByScraper(a)
    ensures Inv(Apply(s, a))
  {
    PidsStep(s, a);
    if a.ScrapeList? || a.ScrapeFile? {
      ScrapeStep(s, a);
    }
  }

  /** Workers coming and going, and signals, leave files, totals and the lock alone. */
  lemma QuietInv(s: State, a: Action)
    requires Inv(s) && Enabled(s, a) && !a.Inc? && !ByMasterItself(a) && !ByScraper(a)
    ensures Inv(Apply(s, a))
  {
    PidsStep(s, a);
    var t := Apply(s, a);
    assert t.files == s.files && t.total == s.total && t.lock == s.lock && t.master == s.master;
    assert |t.dead| >= |s.dead|;
  }

  lemma StepInv(s: State, a: Action)
    requires Inv(s) && Enabled(s, a)
    ensures Inv(Apply(s, a))
  {
    if a.Inc? {
      IncInv(s, a);
    } else if ByMasterItself(a) {
      MasterInv(s, a);
    } else if ByScraper(a) {
      ScrapeInv(s, a);
    } else {
      QuietInv(s, a);
    }
  }

  lemma {:induction false} RunInv(s: State, acts: seq<Action>, t: State)
    requires Inv(s) && Runs(s, acts, t)
    ensures Inv(t)
    decreases |acts|
  {
    if acts != [] {
      StepInv(s, acts[0]);
      RunInv(Apply(s, acts[0]), acts[1..], t);
    }
  }
}
