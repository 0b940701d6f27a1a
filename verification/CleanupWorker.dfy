/** The clean-up of one dead worker as the master runs it, and the lock it takes. */
module CleanupWorker {
  import opened Metrics
  import opened Cleanup
  import opened CleanupInvariant

  /**
    `try_prometheus_lock_patched_async`. `clock(0)` is read for the deadline and `clock(i + 1)` before poll
    `i`, which finds the lock free or not; after a failed poll, and only then, at least a tenth of a second
    goes by before the next reading. The lock is acquired exactly if a poll before the deadline finds it
    free, and then by the first such poll.
   */
  method TryLock(clock: nat -> real, free: nat -> bool, timeout: real) returns (acquired: bool, polls: nat)
    requires clock(0) <= clock(1) && Spaced(clock)
    ensures acquired <==> exists i: nat :: free(i) && InTime(clock, i, timeout)
    ensures acquired ==> polls > 0 && free(polls - 1) && forall i: nat :: i < polls - 1 ==> !free(i)
    ensures forall i: nat :: i < polls ==> InTime(clock, i, timeout)
  {
    var deadline := clock(0) + timeout;
    polls := 0;
    while clock(polls + 1) < deadline
      invariant forall i: nat :: i < polls ==> !free(i) && InTime(clock, i, timeout)
      decreases ((deadline - clock(polls + 1)) * 10.0).Floor
    {
      polls := polls + 1;
      assert InTime(clock, polls - 1, timeout);
      if free(polls - 1) {
        return true, polls;
      }
      assert clock(polls) + 0.1 <= clock(polls + 1);
    }
    forall i: nat | InTime(clock, i, timeout)
      ensures !free(i)
    {
      if i >= polls {
        Later(clock, polls + 1, i + 1);
      }
    }
    acquired := false;
  }

  /** The sleeps between polls; nothing is slept between `clock(0)` and `clock(1)`. */
  ghost predicate Spaced(clock: nat -> real) {
    forall i: nat :: i > 0 ==> clock(i) + 0.1 <= clock(i + 1)
  }

  /** Poll `i` comes before the deadline. */
  predicate InTime(clock: nat -> real, i: nat, timeout: real) {
    clock(i + 1) < clock(0) + timeout
  }

  lemma {:induction false} Later(clock: nat -> real, i: nat, j: nat)
    requires 0 < i <= j && Spaced(clock)
    ensures clock(i) <= clock(j)
    decreases j - i
  {
    if i < j {
      assert clock(i) + 0.1 <= clock(i + 1);
      Later(clock, i + 1, j);
    }
  }

  /** The files of one multiprocess directory. */
  class MultiprocDir {
    var files: Files

    constructor ()
      ensures files == map[]
    {
      files := map[];
    }

    /** The merge of `paths`, read one by one. */
    method Merge(paths: set<File>) returns (acc: Table)
      requires paths <= files.Keys
      ensures Accounts(files, paths, acc)
    {
      acc := map[];
      var todo := paths;
      assert paths - todo == {};
      while todo != {}
        invariant todo <= paths && Accounts(files, paths - todo, acc)
        decreases todo
      {
        var f :| f in todo;
        PlusAccounts(files, paths - todo, f, acc);
        assert paths - (todo - {f}) == paths - todo + {f};
        acc := Plus(acc, files[f]);
        todo := todo - {f};
      }
      assert paths - todo == paths;
    }

    /**
      `prometheus_cleanup_worker` with nobody else about, given whether the lock can be taken in time. If
      it can, the worker's counters and histograms end up in the archives, and the merged metrics are the
      same; if it can not, or the worker left no such file, nothing changes.
     */
    method Clean(pid: nat, acquired: bool)
      requires Typed(files)
      modifies this
      ensures Typed(files)
      ensures WorkerFiles(pid) !! old(files).Keys || !acquired ==> files == old(files)
      ensures !(WorkerFiles(pid) !! old(files).Keys) && acquired ==>
                && files.Keys == old(files).Keys - WorkerFiles(pid) + ARCHIVES
                && (forall f :: f in files.Keys - ARCHIVES ==> files[f] == old(files)[f])
                && Folds(old(files), Histogram, pid, files[ArchiveFile(Histogram)])
                && Folds(old(files), Counter, pid, files[ArchiveFile(Counter)])
      ensures Merged(files) == old(Merged(files))
    {
      var paths := WorkerFiles(pid) * files.Keys;
      if paths == {} {
        NoCommonFile(WorkerFiles(pid), files.Keys);
        return;
      }
      var archives := ARCHIVES * files.Keys;
      var acc := Merge(paths + archives);
      WholeAccounts(files, Involved(pid), paths + archives, acc);
      AccountsFolds(files, pid, acc, Histogram);
      AccountsFolds(files, pid, acc, Counter);
      var histograms, counters := Restrict(acc, Histogram), Restrict(acc, Counter);
      if !acquired {
        return;
      }
      Swap(pid, paths, histograms, counters);
    }

    /** The part that runs under the lock: two renames, and an unlink for each file of the worker. */
    method Swap(pid: nat, paths: set<File>, histograms: Table, counters: Table)
      requires Typed(files) && paths == WorkerFiles(pid) * files.Keys
      requires Folds(files, Histogram, pid, histograms) && Folds(files, Counter, pid, counters)
      modifies this
      ensures files == old(files)[ArchiveFile(Histogram) := histograms][ArchiveFile(Counter) := counters] - paths
      ensures Typed(files) && Merged(files) == old(Merged(files))
    {
      ghost var start := files;
      files := files[ArchiveFile(Histogram) := histograms];
      files := files[ArchiveFile(Counter) := counters];
      ghost var swapped := files;
      var todo := paths;
      while todo != {}
        invariant todo <= paths <= swapped.Keys
        invariant files == swapped - (paths - todo)
        decreases todo
      {
        var f :| f in todo;
        todo := todo - {f};
        files := files - {f};
        assert paths - todo == paths - (todo + {f}) + {f};
      }
      assert paths - todo == paths;
      FoldedIn(start, pid, paths, histograms, counters);
    }
  }

  /** Files that do not exist count for nothing. */
  lemma WholeAccounts(files: Files, whole: set<File>, part: set<File>, acc: Table)
    requires part == whole * files.Keys && Accounts(files, part, acc)
    ensures Accounts(files, whole, acc)
  {
    forall k
      ensures Get(acc, k) == Sum(files, whole, k)
      ensures k in acc <==> SomeHolds(files, whole, k)
    {
      SumDisjoint(files, part, whole - part, k);
      assert part + (whole - part) == whole;
      NobodyHolds(files, whole - part, k);
      if SomeHolds(files, whole, k) {
        var f :| f in whole && Holds(files, f, k);
        assert f in part;
      }
      if SomeHolds(files, part, k) {
        var f :| f in part && Holds(files, f, k);
        assert f in whole;
      }
    }
  }

  /** Folding the worker's tables into the archives and dropping its files leaves the merge alone. */
  lemma FoldedIn(start: Files, pid: nat, paths: set<File>, histograms: Table, counters: Table)
    requires Typed(start) && paths == WorkerFiles(pid) * start.Keys
    requires Folds(start, Histogram, pid, histograms) && Folds(start, Counter, pid, counters)
    ensures var end := start[ArchiveFile(Histogram) := histograms][ArchiveFile(Counter) := counters] - paths;
            Typed(end) && Merged(end) == Merged(start)
  {
    var total := Merged(start);
    var f1 := start[ArchiveFile(Histogram) := histograms];
    var f2 := f1[ArchiveFile(Counter) := counters];
    var end := f2 - paths;
    AccountsMerged(start, total);
    SwapAccounts(start, start.Keys, Histogram, pid, histograms, total);
    SwapFolds(start, pid, histograms, counters);
    var fs := start.Keys + {ArchiveFile(Histogram)} - {WorkerFile(Histogram, pid)};
    SwapAccounts(f1, fs, Counter, pid, counters, total);
    assert fs + {ArchiveFile(Counter)} - {WorkerFile(Counter, pid)} == end.Keys;
    DropAccounts(f2, paths, total);
    AccountsMerged(end, total);
    FoldsTyped(start, Histogram, pid, histograms);
    FoldsTyped(start, Counter, pid, counters);
    forall f, k | Holds(end, f, k)
      ensures k.kind == f.kind
    {
      assert f == ArchiveFile(Histogram) || f == ArchiveFile(Counter) || Holds(start, f, k);
    }
  }

  lemma SwapFolds(start: Files, pid: nat, histograms: Table, counters: Table)
    requires Folds(start, Counter, pid, counters)
    ensures Folds(start[ArchiveFile(Histogram) := histograms], Counter, pid, counters)
  {
  }

  lemma FoldsTyped(files: Files, kind: Kind, pid: nat, t: Table)
    requires Typed(files) && Folds(files, kind, pid, t)
    ensures forall k :: k in t ==> k.kind == kind
  {
  }

  /** Files that are not accounted for can go. */
  lemma DropAccounts(files: Files, gone: set<File>, t: Table)
    requires Accounts(files, files.Keys - gone, t)
    ensures Accounts(files - gone, files.Keys - gone, t)
  {
    var fs := files.Keys - gone;
    forall k
      ensures Sum(files, fs, k) == Sum(files - gone, fs, k)
      ensures SomeHolds(files, fs, k) <==> SomeHolds(files - gone, fs, k)
    {
      SumAgree(files, files - gone, fs, k);
      assert forall f :: f in fs ==> (Holds(files, f, k) <==> Holds(files - gone, f, k));
    }
  }
}
