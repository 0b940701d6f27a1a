/** What the clean-up protocol promises over whole runs. */
module CleanupTheorems {
  import opened Metrics
  import opened Cleanup
  import opened CleanupInvariant

  // ---------- conservation

  lemma {:induction false} TotalIsRecorded(s: State, acts: seq<Action>, t: State, k: Key)
    requires Runs(s, acts, t)
    ensures Get(t.total, k) == Get(s.total, k) + Recorded(acts, k)
    decreases |acts|
  {
    if acts != [] {
      TotalIsRecorded(Apply(s, acts[0]), acts[1..], t, k);
    }
  }

  lemma BalancedMerged(s: State)
    requires Inv(s) && !Swapping(s.master)
    ensures Merged(s.files) == s.total
  {
    assert s.files.Keys - {} == s.files.Keys;
    AccountsMerged(s.files, s.total);
  }

  /**
    In every reachable state the files together hold every increment ever made, exactly once, and the
    only excess is that of worker files waiting to be unlinked in the middle of a swap.
   */
  lemma Conservation(acts: seq<Action>, s: State)
    requires Runs(INITIAL, acts, s)
    ensures forall k :: Sum(s.files, s.files.Keys, k) == Recorded(acts, k) + Sum(s.files, Superseded(s.master), k)
    ensures !Swapping(s.master) ==>
              forall k :: Get(Merged(s.files), k) == Sum(s.files, s.files.Keys, k) == Recorded(acts, k)
    ensures !Swapping(s.master) ==>
              forall k :: k in Merged(s.files) <==> exists i :: 0 <= i < |acts| && acts[i].Inc? && acts[i].key == k
  {
    InitialInv();
    RunInv(INITIAL, acts, s);
    var super := Superseded(s.master);
    forall k
      ensures Sum(s.files, s.files.Keys, k) == Recorded(acts, k) + Sum(s.files, super, k)
    {
      TotalIsRecorded(INITIAL, acts, s, k);
      SumDisjoint(s.files, s.files.Keys - super, super, k);
      assert s.files.Keys - super + super == s.files.Keys;
    }
    if !Swapping(s.master) {
      BalancedMerged(s);
      assert super == {};
      forall k
        ensures Get(s.total, k) == Recorded(acts, k)
        ensures k in s.total <==> exists i :: 0 <= i < |acts| && acts[i].Inc? && acts[i].key == k
      {
        TotalIsRecorded(INITIAL, acts, s, k);
        KeysRecorded(INITIAL, acts, s, k);
      }
    }
  }

  lemma {:induction false} KeysRecorded(s: State, acts: seq<Action>, t: State, k: Key)
    requires Runs(s, acts, t)
    ensures k in t.total <==> k in s.total || exists i :: 0 <= i < |acts| && acts[i].Inc? && acts[i].key == k
    decreases |acts|
  {
    if acts != [] {
      var rest := acts[1..];
      KeysRecorded(Apply(s, acts[0]), rest, t, k);
      if i :| 0 <= i < |rest| && rest[i].Inc? && rest[i].key == k {
        assert acts[i + 1] == rest[i];
      }
      if i :| 0 < i < |acts| && acts[i].Inc? && acts[i].key == k {
        assert rest[i - 1] == acts[i];
      }
    }
  }

  lemma {:induction false} TotalUnchanged(s: State, acts: seq<Action>, t: State)
    requires Runs(s, acts, t)
    requires forall i :: 0 <= i < |acts| ==> !acts[i].Inc?
    ensures t.total == s.total
    decreases |acts|
  {
    if acts != [] {
      TotalUnchanged(Apply(s, acts[0]), acts[1..], t);
    }
  }

  /**
    However many workers die and are cleaned up, interrupted, failed or timed out in between, the merged
    metrics are the same table before and after.
   */
  lemma {:induction false} CleanupsInvisible(before: seq<Action>, s: State, between: seq<Action>, t: State)
    requires Runs(INITIAL, before, s) && Runs(s, between, t)
    requires forall i :: 0 <= i < |between| ==> !between[i].Inc?
    requires !Swapping(s.master) && !Swapping(t.master)
    ensures Merged(t.files) == Merged(s.files)
  {
    InitialInv();
    RunInv(INITIAL, before, s);
    RunInv(s, between, t);
    TotalUnchanged(s, between, t);
    BalancedMerged(s);
    BalancedMerged(t);
  }

  /** When the master gives the lock back, the worker it cleaned has no counter or histogram file left. */
  lemma WorkerFilesGone(acts: seq<Action>, s: State)
    requires Runs(INITIAL, acts, s) && s.master.Unlinking? && Enabled(s, Advance)
    ensures WorkerFiles(s.master.pid) !! s.files.Keys
    ensures Apply(s, Advance).lock.Free? && Apply(s, Advance).files == s.files
  {
    InitialInv();
    RunInv(INITIAL, acts, s);
    NoCommonFile(WorkerFiles(s.master.pid), s.files.Keys);
  }

  // ---------- scrapes

  predicate NeverDecreased(acts: seq<Action>, k: Key) {
    forall i :: 0 <= i < |acts| && acts[i].Inc? && acts[i].key == k ==> acts[i].amount >= 0.0
  }

  lemma {:induction false} RecordedAppend(a: seq<Action>, b: seq<Action>, k: Key)
    ensures Recorded(a + b, k) == Recorded(a, k) + Recorded(b, k)
    decreases |a|
  {
    if a == [] {
      assert a + b == b;
    } else {
      RecordedAppend(a[1..], b, k);
      assert (a + b)[1..] == a[1..] + b;
    }
  }

  lemma ScrapeStays(s: State, a: Action)
    requires LockHeld(s) && s.lock.ByScrape? && Enabled(s, a) && !a.ScrapeRelease?
    ensures var t := Apply(s, a);
            && t.lock.ByScrape? && t.lock.base == s.lock.base
            && t.lock.dropped == s.lock.dropped + if a.Inc? && a.amount < 0.0 then {a.key} else {}
  {
  }

  /** While a scrape lasts, nobody else gets the lock and its starting totals stay what they were. */
  lemma {:induction false} ScrapeLasts(s: State, acts: seq<Action>, t: State, k: Key)
    requires Inv(s) && Runs(s, acts, t) && s.lock.ByScrape?
    requires forall i :: 0 <= i < |acts| ==> !acts[i].ScrapeRelease?
    requires NeverDecreased(acts, k) && k !in s.lock.dropped
    ensures t.lock.ByScrape? && t.lock.base == s.lock.base && k !in t.lock.dropped
    decreases |acts|
  {
    if acts != [] {
      StepInv(s, acts[0]);
      ScrapeStays(s, acts[0]);
      ScrapeLasts(Apply(s, acts[0]), acts[1..], t, k);
    }
  }

  /**
    A scrape that has read every file reports, for each key not decreased meanwhile, a value between the
    total when it took the lock and the total now, whatever workers, the master and signals did meanwhile.
   */
  lemma ScrapeBetween(before: seq<Action>, s: State, p: nat, during: seq<Action>, t: State, k: Key)
    requires Runs(INITIAL, before, s) && Enabled(s, ScrapeAcquire(p)) && Runs(Apply(s, ScrapeAcquire(p)), during, t)
    requires forall i :: 0 <= i < |during| ==> !during[i].ScrapeRelease?
    requires NeverDecreased(during, k)
    requires Enabled(t, ScrapeRelease)
    ensures Recorded(before, k) <= Get(t.lock.acc, k) <= Recorded(before + during, k)
  {
    var u := Apply(s, ScrapeAcquire(p));
    InitialInv();
    RunInv(INITIAL, before, s);
    StepInv(s, ScrapeAcquire(p));
    RunInv(u, during, t);
    ScrapeLasts(u, during, t, k);
    TotalIsRecorded(INITIAL, before, s, k);
    TotalIsRecorded(u, during, t, k);
    RecordedAppend(before, during, k);
  }

  // ---------- dead workers

  lemma HookStepNoticed(s: State)
    requires Noticed(s) && s.hooks != []
    ensures Noticed(ApplyHook(s))
  {
    var t := ApplyHook(s);
    var n := |s.hooks| - 1;
    match s.hooks[n] {
      case Append(_) => assert t.hooks[n].Test?;
      case Test =>
        if Custom !in s.signals {
          assert t.hooks[n].Queue?;
        }
      case Queue => assert t.signals[|s.signals|] == Custom;
    }
  }

  lemma NoticedStep(s: State, a: Action)
    requires Noticed(s) && Enabled(s, a)
    ensures Noticed(Apply(s, a))
  {
    var t := Apply(s, a);
    if a.HookStep? {
      HookStepNoticed(s);
    } else if t.dead != [] && !InDrain(t.master) {
      if h :| h in s.hooks && (h.Test? || h.Queue?) {
        assert h in t.hooks;
      } else if !InDrain(s.master) {
        assert Custom in s.signals;
        if a.Advance? && s.master.Idle? {
          assert s.signals == [s.signals[0]] + s.signals[1..];
        } else if a.ForeignSignal? {
          var i :| 0 <= i < |s.signals| && s.signals[i] == Custom;
          assert t.signals[i] == Custom;
        }
      }
    }
  }

  /** Pids leave the queue in the order they entered it, each one once. */
  lemma QueueStep(s: State, a: Action)
    requires s.queued == s.taken + s.dead && Enabled(s, a)
    ensures var t := Apply(s, a); t.queued == t.taken + t.dead
  {
  }

  lemma {:induction false} RunNoticed(s: State, acts: seq<Action>, t: State)
    requires Runs(s, acts, t)
    requires Noticed(s) && s.queued == s.taken + s.dead
    ensures Noticed(t) && t.queued == t.taken + t.dead
    decreases |acts|
  {
    if acts != [] {
      NoticedStep(s, acts[0]);
      QueueStep(s, acts[0]);
      RunNoticed(Apply(s, acts[0]), acts[1..], t);
    }
  }

  /**
    No dead worker is forgotten: whenever the master's own code runs and a pid is queued, SIGCUSTOM is
    queued too or the drain is under way, however hooks interrupted the drain and each other.
   */
  lemma NoneForgotten(acts: seq<Action>, s: State)
    requires Runs(INITIAL, acts, s)
    ensures s.hooks == [] && s.dead != [] ==> Custom in s.signals || InDrain(s.master)
    ensures s.queued == s.taken + s.dead
  {
    RunNoticed(INITIAL, acts, s);
  }

  // ---------- the drain ends

  /** Steps of its own that the master can still take before it leaves the drain. */
  function Rank(s: State): nat {
    20 * |s.dead| +
    match s.master
    case Draining => 1
    case Starting(_) => 19
    case Merging(_, _, todo, _) => 10 + |todo|
    case Waiting(_, _, _, _) => 9
    case Locked(_, _, _, _) => 8
    case HistogramsSwapped(_, _, _) => 7
    case Unlinking(_, todo) => 2 + |todo|
    case _ => 0
  }

  lemma AtMostFour(pid: nat, todo: set<File>)
    requires todo <= Involved(pid)
    ensures |todo| <= 4
  {
    var a, b := WorkerFile(Histogram, pid), WorkerFile(Counter, pid);
    var c, d := ArchiveFile(Histogram), ArchiveFile(Counter);
    assert todo - {a} - {b} - {c} - {d} == {};
    assert |todo| <= |todo - {a}| + 1;
    assert |todo - {a}| <= |todo - {a} - {b}| + 1;
    assert |todo - {a} - {b}| <= |todo - {a} - {b} - {c}| + 1;
    assert |todo - {a} - {b} - {c}| <= |todo - {a} - {b} - {c} - {d}| + 1;
  }

  lemma RankStarting(s: State)
    requires s.master.Starting? && Enabled(s, Advance)
    ensures Rank(ApplyAdvance(s)) < Rank(s)
  {
    FewPaths(s.master.pid, s.files.Keys);
  }

  lemma FewPaths(pid: nat, files: set<File>)
    ensures |WorkerFiles(pid) * files + ARCHIVES * files| <= 4
  {
    var todo := WorkerFiles(pid) * files + ARCHIVES * files;
    assert forall f :: f in todo ==> f in Involved(pid);
    AtMostFour(pid, todo);
  }

  lemma RankSwapped(s: State)
    requires s.master.HistogramsSwapped? && Enabled(s, Advance) && s.master.paths <= WorkerFiles(s.master.pid)
    ensures Rank(ApplyAdvance(s)) < Rank(s)
  {
    var t := ApplyAdvance(s);
    AtMostFour(s.master.pid, s.master.paths);
    assert t.dead == s.dead && t.master == Unlinking(s.master.pid, s.master.paths);
  }

  lemma RankOnward(s: State)
    requires !s.master.Starting? && !s.master.HistogramsSwapped? && Enabled(s, Advance) && InDrain(s.master)
    ensures Rank(ApplyAdvance(s)) < Rank(s)
  {
  }

  /** Each step of the master brings the end of the drain nearer. */
  lemma RankMaster(s: State, a: Action)
    requires Snapshot(s.files, s.master) && Enabled(s, a) && InDrain(s.master) && ByMasterItself(a)
    ensures Rank(Apply(s, a)) < Rank(s)
  {
    if !a.Advance? {
      assert Apply(s, a).dead == s.dead;
    } else if s.master.Starting? {
      RankStarting(s);
    } else if s.master.HistogramsSwapped? {
      RankSwapped(s);
    } else {
      RankOnward(s);
    }
  }

  /** Nothing but a new pid defers it. */
  lemma RankQuiet(s: State, a: Action)
    requires Enabled(s, a) && !ByMasterItself(a) && !(a.HookStep? && s.hooks[|s.hooks| - 1].Append?)
    ensures Rank(Apply(s, a)) == Rank(s)
  {
  }

  function MasterSteps(acts: seq<Action>): nat {
    if acts == [] then 0 else (if ByMasterItself(acts[0]) then 1 else 0) + MasterSteps(acts[1..])
  }

  /** A stretch of a run throughout which the master is in the drain and no pid is added. */
  predicate DrainsOn(s: State, acts: seq<Action>, t: State)
    decreases |acts|
  {
    InDrain(s.master) &&
    if acts == [] then s == t
    else
      && Enabled(s, acts[0])
      && !(acts[0].HookStep? && s.hooks[|s.hooks| - 1].Append?)
      && DrainsOn(Apply(s, acts[0]), acts[1..], t)
  }

  lemma {:induction false} DrainBounded(s: State, acts: seq<Action>, t: State)
    requires Inv(s) && DrainsOn(s, acts, t)
    ensures MasterSteps(acts) + Rank(t) <= Rank(s)
    decreases |acts|
  {
    if acts != [] {
      StepInv(s, acts[0]);
      if ByMasterItself(acts[0]) {
        RankMaster(s, acts[0]);
      } else {
        RankQuiet(s, acts[0]);
      }
      DrainBounded(Apply(s, acts[0]), acts[1..], t);
    }
  }

  lemma FilesStillThere(s: State)
    requires Inv(s)
    ensures s.master.Merging? ==> s.master.todo <= s.files.Keys
    ensures s.master.Unlinking? ==> s.master.todo <= s.files.Keys
  {
  }

  /** The drain is never stuck: when no hook runs, some step of the master is possible. */
  lemma DrainProgress(s: State) returns (a: Action)
    requires Inv(s) && InDrain(s.master) && s.hooks == []
    ensures ByMasterItself(a) && Enabled(s, a)
  {
    FilesStillThere(s);
    a := Advance;
    match s.master {
      case Merging(_, _, todo, _) =>
        if f :| f in todo {
          a := MergeFile(f);
        }
      case Waiting(_, _, _, _) =>
        a := Timeout;
      case Unlinking(_, todo) =>
        if f :| f in todo {
          a := Unlink(f);
        }
      case _ =>
    }
  }
}
