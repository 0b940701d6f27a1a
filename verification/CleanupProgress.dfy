/** That dead workers are cleaned: what a clean-up that is not cut short does to the files, and what is left over. */
module CleanupProgress {
  import opened Metrics
  import opened Cleanup
  import opened CleanupInvariant

  // ---------- whose files there are

  predicate CutShort(a: Action) {
    a.Fail? || a.Timeout?
  }

  /** The pids whose clean-up failed or timed out during a run. */
  function Abandoned(s: State, acts: seq<Action>): set<nat>
    decreases |acts|
  {
    if acts == [] || !Enabled(s, acts[0]) then {}
    else (if CutShort(acts[0]) then Cleaning(s.master) else {}) + Abandoned(Apply(s, acts[0]), acts[1..])
  }

  /** A counter or histogram file of a worker. */
  predicate OfWorker(f: File) {
    f.WorkerFile? && !f.kind.Other?
  }

  /** Every such file is that of a running worker, of one the master has yet to deal with, or abandoned. */
  ghost predicate Owned(s: State, abandoned: set<nat>) {
    forall f :: f in s.files && OfWorker(f) ==> f.pid in s.live + Pending(s) + abandoned
  }

  /** A clean-up that ends, and is not cut short, leaves no file of its worker. */
  lemma EndsClean(s: State, a: Action, f: File)
    requires Inv(s) && Enabled(s, a) && !CutShort(a) && Cleaning(s.master) != {} && Apply(s, a).master.Draining?
    requires OfWorker(f) && f.pid == s.master.pid
    ensures f !in Apply(s, a).files
  {
    assert f in WorkerFiles(s.master.pid);
    if f in s.files {
      assert f in WorkerFiles(s.master.pid) * s.files.Keys;
    }
  }

  /** A pid that stops being pending was that of the worker that the master was cleaning. */
  lemma PendingStep(s: State, a: Action, p: nat)
    requires Enabled(s, a) && p in Pending(s)
    ensures p in Pending(Apply(s, a)) || (ByMasterItself(a) && p in Cleaning(s.master))
  {
    var t := Apply(s, a);
    if p in HookPids(s.hooks) {
      var h :| h in s.hooks && h == Append(p);
      if h !in t.hooks {
        assert s.hooks[|s.hooks| - 1] == h;
        assert t.dead[|s.dead|] == p;
      }
    } else if p in s.dead {
      if p !in t.dead {
        assert a.Advance? && s.master.Popping?;
        assert s.dead == [s.dead[0]] + s.dead[1..];
      }
    }
  }

  /** The owner of a file that was there before is still an owner, or the clean-up of its worker was cut short. */
  lemma OwnerStep(s: State, a: Action, f: File)
    requires Inv(s) && Enabled(s, a) && OfWorker(f) && f in Apply(s, a).files && f.pid in s.live + Pending(s)
    ensures var t := Apply(s, a);
            f.pid in t.live + Pending(t) || (CutShort(a) && f.pid in Cleaning(s.master))
  {
    if f.pid in Pending(s) {
      PendingStep(s, a, f.pid);
      if f.pid in Cleaning(s.master) && Apply(s, a).master.Draining? && !CutShort(a) {
        EndsClean(s, a, f);
      }
    }
  }

  lemma OwnedStep(s: State, a: Action, abandoned: set<nat>)
    requires Inv(s) && Enabled(s, a) && Owned(s, abandoned)
    ensures Owned(Apply(s, a), abandoned + if CutShort(a) then Cleaning(s.master) else {})
  {
    var t := Apply(s, a);
    forall f | f in t.files && OfWorker(f)
      ensures f.pid in t.live + Pending(t) + abandoned + if CutShort(a) then Cleaning(s.master) else {}
    {
      if f.pid in s.live + Pending(s) {
        OwnerStep(s, a, f);
      }
    }
  }

  lemma {:induction false} RunOwned(s: State, acts: seq<Action>, t: State, abandoned: set<nat>)
    requires Inv(s) && Runs(s, acts, t) && Owned(s, abandoned)
    ensures Owned(t, abandoned + Abandoned(s, acts))
    decreases |acts|
  {
    if acts == [] {
      assert abandoned + Abandoned(s, acts) == abandoned;
    } else {
      var more := if CutShort(acts[0]) then Cleaning(s.master) else {};
      StepInv(s, acts[0]);
      OwnedStep(s, acts[0], abandoned);
      RunOwned(Apply(s, acts[0]), acts[1..], t, abandoned + more);
      assert abandoned + Abandoned(s, acts) == abandoned + more + Abandoned(Apply(s, acts[0]), acts[1..]);
    }
  }

  /**
    In every reachable state a worker file belongs to a running worker, to a dead one that the master has
    yet to deal with, or to one whose clean-up failed or timed out. So a pid that was taken from the queue
    has no file left, unless it is being cleaned, was abandoned, or runs or died again since.
   */
  lemma NoFilesLeft(acts: seq<Action>, s: State)
    requires Runs(INITIAL, acts, s)
    ensures forall f :: f in s.files && OfWorker(f) ==> f.pid in s.live + Pending(s) + Abandoned(INITIAL, acts)
    ensures forall p :: p in s.taken && p !in s.live + Pending(s) + Abandoned(INITIAL, acts) ==>
                          WorkerFiles(p) !! s.files.Keys
  {
    InitialInv();
    RunOwned(INITIAL, acts, s, {});
    assert {} + Abandoned(INITIAL, acts) == Abandoned(INITIAL, acts);
    assert forall p, f :: f in WorkerFiles(p) ==> OfWorker(f) && f.pid == p;
  }

  /** When a drain ends with no new death meanwhile, all dead workers reported so far are dealt with. */
  lemma DrainedOwned(acts: seq<Action>, s: State, p: nat)
    requires Runs(INITIAL, acts, s) && s.master.Leaving? && s.dead == [] && s.hooks == []
    requires p !in s.live + s.zombies + Abandoned(INITIAL, acts)
    ensures WorkerFiles(p) !! s.files.Keys
  {
    NoFilesLeft(acts, s);
    assert Pending(s) == s.zombies;
    assert forall f :: f in WorkerFiles(p) ==> OfWorker(f) && f.pid == p;
  }

  // ---------- one clean-up, whatever happens meanwhile

  ghost predicate Same(before: Files, now: Files, fs: set<File>) {
    forall f :: f in fs ==> (f in before <==> f in now) && (f in before ==> before[f] == now[f])
  }

  /** The archive of one kind is what it was, with the worker's file of that kind folded in. */
  ghost predicate Archived(before: Files, now: Files, kind: Kind, pid: nat) {
    ArchiveFile(kind) in now && Folds(before, kind, pid, now[ArchiveFile(kind)])
  }

  ghost predicate LeftFiles(before: Files, pid: nat) {
    WorkerFile(Histogram, pid) in before || WorkerFile(Counter, pid) in before
  }

  /** What a clean-up of `pid`, begun when the files were `before`, has done when it is over. */
  ghost predicate Cleaned(before: Files, now: Files, pid: nat) {
    && WorkerFile(Histogram, pid) !in now && WorkerFile(Counter, pid) !in now
    && (if LeftFiles(before, pid) then Archived(before, now, Histogram, pid) && Archived(before, now, Counter, pid)
        else Same(before, now, ARCHIVES))
  }

  /** How far it is. */
  ghost predicate Stage(before: Files, s: State, pid: nat) {
    match s.master
    case Starting(p) => p == pid && Same(before, s.files, Involved(pid))
    case Merging(p, _, _, _) => p == pid && Same(before, s.files, Involved(pid)) && LeftFiles(before, pid)
    case Waiting(p, _, _, _) => p == pid && Same(before, s.files, Involved(pid)) && LeftFiles(before, pid)
    case Locked(p, _, _, _) => p == pid && Same(before, s.files, Involved(pid)) && LeftFiles(before, pid)
    case HistogramsSwapped(p, _, _) =>
      && p == pid && LeftFiles(before, pid)
      && Archived(before, s.files, Histogram, pid)
      && Same(before, s.files, {WorkerFile(Counter, pid), ArchiveFile(Counter)})
    case Unlinking(p, _) =>
      && p == pid && LeftFiles(before, pid)
      && Archived(before, s.files, Histogram, pid) && Archived(before, s.files, Counter, pid)
    case Draining => Cleaned(before, s.files, pid)
    case _ => false
  }

  lemma FoldsSame(before: Files, now: Files, kind: Kind, pid: nat, t: Table)
    requires Same(before, now, {WorkerFile(kind, pid), ArchiveFile(kind)}) && Folds(now, kind, pid, t)
    ensures Folds(before, kind, pid, t)
  {
    forall k
      ensures Cell(before, WorkerFile(kind, pid), k) == Cell(now, WorkerFile(kind, pid), k)
      ensures Cell(before, ArchiveFile(kind), k) == Cell(now, ArchiveFile(kind), k)
      ensures Holds(before, WorkerFile(kind, pid), k) <==> Holds(now, WorkerFile(kind, pid), k)
      ensures Holds(before, ArchiveFile(kind), k) <==> Holds(now, ArchiveFile(kind), k)
    {
    }
  }

  lemma StageAdvance(before: Files, s: State, pid: nat)
    requires Inv(s) && Stage(before, s, pid) && Enabled(s, Advance) && !s.master.Draining?
    ensures Stage(before, ApplyAdvance(s), pid)
  {
    var w, c := WorkerFile(Histogram, pid), WorkerFile(Counter, pid);
    assert w in Involved(pid) && c in Involved(pid);
    match s.master {
      case Starting(_) =>
        assert w in WorkerFiles(pid) && c in WorkerFiles(pid);
        assert WorkerFiles(pid) * s.files.Keys == {} <==> w !in s.files && c !in s.files;
      case Locked(_, _, histograms, _) =>
        FoldsSame(before, s.files, Histogram, pid, histograms);
      case HistogramsSwapped(_, _, counters) =>
        FoldsSame(before, s.files, Counter, pid, counters);
      case Unlinking(_, todo) =>
        assert WorkerFiles(pid) * s.files.Keys == {};
        assert w in WorkerFiles(pid) && c in WorkerFiles(pid);
      case _ =>
    }
  }

  /** Between two files states that agree on what a clean-up of `pid` looks at, the stage is the same. */
  lemma StageSame(before: Files, s: State, t: State, pid: nat)
    requires Stage(before, s, pid) && !s.master.Draining? && t.master == s.master
    requires Same(s.files, t.files, Involved(pid))
    ensures Stage(before, t, pid)
  {
    assert ArchiveFile(Histogram) in Involved(pid) && ArchiveFile(Counter) in Involved(pid);
    assert WorkerFile(Counter, pid) in Involved(pid);
  }

  lemma QuietSame(s: State, a: Action, pid: nat)
    requires PidsApart(s) && pid in Cleaning(s.master) && Enabled(s, a) && !ByMasterItself(a)
    ensures Same(s.files, Apply(s, a).files, Involved(pid)) && Apply(s, a).master == s.master
  {
    assert pid in Pending(s);
  }

  lemma StageStep(before: Files, s: State, a: Action, pid: nat)
    requires Inv(s) && Stage(before, s, pid) && Enabled(s, a) && !CutShort(a) && !s.master.Draining?
    ensures Stage(before, Apply(s, a), pid)
  {
    if a.Advance? {
      StageAdvance(before, s, pid);
    } else if a.MergeFile? {
      assert Apply(s, a).files == s.files;
    } else if a.Unlink? {
      assert a.file in WorkerFiles(pid);
    } else {
      QuietSame(s, a, pid);
      StageSame(before, s, Apply(s, a), pid);
    }
  }

  /** A stretch of a run from the middle of a clean-up to its end, in which it does not fail or time out. */
  predicate RunsThrough(s: State, acts: seq<Action>, t: State)
    decreases |acts|
  {
    if acts == [] then s == t && s.master.Draining?
    else
      && !s.master.Draining? && Enabled(s, acts[0]) && !CutShort(acts[0])
      && RunsThrough(Apply(s, acts[0]), acts[1..], t)
  }

  lemma {:induction false} StageRun(before: Files, s: State, acts: seq<Action>, t: State, pid: nat)
    requires Inv(s) && Stage(before, s, pid) && RunsThrough(s, acts, t)
    ensures Cleaned(before, t.files, pid)
    decreases |acts|
  {
    if acts != [] {
      StepInv(s, acts[0]);
      StageStep(before, s, acts[0], pid);
      StageRun(before, Apply(s, acts[0]), acts[1..], t, pid);
    }
  }

  /** The file is that of a worker that makes no increment of that kind. */
  predicate NotTouched(acts: seq<Action>, f: File) {
    forall i :: 0 <= i < |acts| && acts[i].Inc? ==> f != WorkerFile(acts[i].key.kind, acts[i].worker)
  }

  lemma OtherKept(s: State, a: Action, pid: nat, f: File)
    requires Inv(s) && Enabled(s, a) && Cleaning(s.master) == {pid} && f !in Involved(pid) && NotTouched([a], f)
    ensures Same(s.files, Apply(s, a).files, {f})
  {
    assert [a][0] == a;
    if a.Unlink? {
      assert a.file in WorkerFiles(pid);
    }
  }

  lemma {:induction false} OthersKept(before: Files, s: State, acts: seq<Action>, t: State, pid: nat, f: File)
    requires Inv(s) && Stage(before, s, pid) && RunsThrough(s, acts, t)
    requires f !in Involved(pid) && NotTouched(acts, f)
    ensures Same(s.files, t.files, {f})
    decreases |acts|
  {
    if acts != [] {
      var u := Apply(s, acts[0]);
      StepInv(s, acts[0]);
      StageStep(before, s, acts[0], pid);
      assert NotTouched([acts[0]], f);
      OtherKept(s, acts[0], pid, f);
      assert NotTouched(acts[1..], f);
      OthersKept(before, u, acts[1..], t, pid, f);
    }
  }

  /**
    The clean-up of one worker, whatever workers, hooks, signals and scrapes do in between, if it does not
    fail or time out. The worker has no file left. If it had left one, both archives are what they were
    with its files folded in; if it had left none, the archives are as they were. No other file changes
    but by the increments of its own worker.
   */
  lemma CleanedUp(before: seq<Action>, s: State, acts: seq<Action>, t: State)
    requires Runs(INITIAL, before, s) && s.master.Starting? && RunsThrough(s, acts, t)
    ensures var pid := s.master.pid;
            && WorkerFiles(pid) !! t.files.Keys
            && (if WorkerFiles(pid) !! s.files.Keys then Same(s.files, t.files, ARCHIVES)
                else
                  && ARCHIVES <= t.files.Keys
                  && Folds(s.files, Histogram, pid, t.files[ArchiveFile(Histogram)])
                  && Folds(s.files, Counter, pid, t.files[ArchiveFile(Counter)]))
            && (forall f :: f !in Involved(pid) && NotTouched(acts, f) ==> Same(s.files, t.files, {f}))
  {
    var pid := s.master.pid;
    InitialInv();
    RunInv(INITIAL, before, s);
    StageRun(s.files, s, acts, t, pid);
    forall f | f !in Involved(pid) && NotTouched(acts, f)
      ensures Same(s.files, t.files, {f})
    {
      OthersKept(s.files, s, acts, t, pid, f);
    }
    assert WorkerFile(Histogram, pid) in WorkerFiles(pid) && WorkerFile(Counter, pid) in WorkerFiles(pid);
  }
}
