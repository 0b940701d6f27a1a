/**
  The clean-up protocol of a gunicorn master and its workers, as steps of one shared state.

  Workers record increments in their own files without any lock. A dead worker's pid reaches the master
  through the `child_exit` hook, which runs in a signal handler and may interrupt the master (or another
  run of the hook) anywhere. The master drains the pids: for each it merges the worker's files with the
  archives outside the lock, then under the lock renames the results over the archives and unlinks the
  worker's files. A worker that is scraped reads every file, one by one, under the same lock.
 */
module Cleanup {
  import opened Metrics

  datatype Signal = Custom | Foreign

  /** Where one run of `gunicorn_child_exit` stands. */
  datatype Hook = Append(pid: nat) | Test | Queue

  /** Where the master stands in `handle_custom` and `prometheus_cleanup_worker`. */
  datatype Master =
    | Idle
    | Draining
    | Popping
    | Starting(pid: nat)
    | Merging(pid: nat, paths: set<File>, todo: set<File>, acc: Table)
    | Waiting(pid: nat, paths: set<File>, histograms: Table, counters: Table)
    | Locked(pid: nat, paths: set<File>, histograms: Table, counters: Table)
    | HistogramsSwapped(pid: nat, paths: set<File>, counters: Table)
    | Unlinking(pid: nat, todo: set<File>)
    | Leaving

  /**
    The multiprocess lock. A scrape remembers, for its specification only, the totals at its start
    (`base`) and the keys decreased since (`dropped`).
   */
  datatype Lock =
    | Free
    | ByMaster
    | ByScrape(pid: nat, base: Table, dropped: set<Key>, listed: bool, todo: set<File>, acc: Table)

  /** `total`, `queued` and `taken` are history: what was recorded, and which pids entered and left the queue. */
  datatype State = State(
    files: Files,
    live: set<nat>,
    zombies: set<nat>,
    hooks: seq<Hook>,
    dead: seq<nat>,
    signals: seq<Signal>,
    master: Master,
    lock: Lock,
    total: Table,
    queued: seq<nat>,
    taken: seq<nat>)

  const INITIAL := State(map[], {}, {}, [], [], [], Idle, Free, map[], [], [])

  datatype Action =
    | Spawn(worker: nat)
    | Inc(worker: nat, key: Key, amount: real)
    | Die(worker: nat)
    | ChildExit(worker: nat)
    | HookStep
    | ForeignSignal
    | Advance
    | MergeFile(file: File)
    | Fail
    | Timeout
    | Unlink(file: File)
    | ScrapeAcquire(worker: nat)
    | ScrapeList
    | ScrapeFile(file: File)
    | ScrapeRelease

  /** Steps of the master's own code; none is possible while a signal handler runs on top of it. */
  predicate ByMasterItself(a: Action) {
    a.Advance? || a.MergeFile? || a.Fail? || a.Timeout? || a.Unlink?
  }

  function WorkerFiles(pid: nat): set<File> {
    {WorkerFile(Histogram, pid), WorkerFile(Counter, pid)}
  }

  const ARCHIVES: set<File> := {ArchiveFile(Histogram), ArchiveFile(Counter)}

  function Involved(pid: nat): set<File> {
    WorkerFiles(pid) + ARCHIVES
  }

  function Cleaning(m: Master): set<nat> {
    if m.Idle? || m.Draining? || m.Popping? || m.Leaving? then {} else {m.pid}
  }

  function HookPids(hooks: seq<Hook>): set<nat> {
    set h | h in hooks && h.Append? :: h.pid
  }

  /** Pids that are not running but that the master has yet to deal with. */
  function Pending(s: State): set<nat> {
    s.zombies + HookPids(s.hooks) + (set p | p in s.dead) + Cleaning(s.master)
  }

  predicate Enabled(s: State, a: Action) {
    && (ByMasterItself(a) ==> s.hooks == [])
    && match a
       // a pid may be reused, but not before the master is done with it
       case Spawn(p) => p !in s.live + Pending(s)
       case Inc(p, _, _) => p in s.live
       case Die(p) => p in s.live
       case ChildExit(p) => p in s.zombies
       case HookStep => s.hooks != []
       case ForeignSignal => true
       case Advance =>
         (match s.master
          case Idle => s.signals != []
          case Popping => s.dead != []
          case Merging(_, _, todo, _) => todo == {}
          case Waiting(_, _, _, _) => s.lock.Free?
          case Unlinking(_, todo) => todo == {}
          case _ => true)
       case MergeFile(f) => s.master.Merging? && f in s.master.todo && f in s.files
       case Fail => s.master.Starting? || s.master.Merging?
       case Timeout => s.master.Waiting?
       case Unlink(f) => s.master.Unlinking? && f in s.master.todo
       case ScrapeAcquire(p) => p in s.live && s.lock.Free?
       case ScrapeList => s.lock.ByScrape? && s.lock.pid in s.live && !s.lock.listed
       case ScrapeFile(f) =>
         s.lock.ByScrape? && s.lock.pid in s.live && s.lock.listed && f in s.lock.todo && f in s.files
       case ScrapeRelease => s.lock.ByScrape? && s.lock.pid in s.live && s.lock.listed && s.lock.todo == {}
  }

  function Apply(s: State, a: Action): State
    requires Enabled(s, a)
  {
    match a
    case Spawn(p) => s.(live := s.live + {p})
    case Inc(p, k, amount) => ApplyInc(s, p, k, amount)
    case Die(p) => s.(live := s.live - {p}, zombies := s.zombies + {p})
    case ChildExit(p) => s.(zombies := s.zombies - {p}, hooks := s.hooks + [Append(p)])
    case HookStep => ApplyHook(s)
    case ForeignSignal => s.(signals := s.signals + [Foreign])
    case Advance => ApplyAdvance(s)
    case MergeFile(f) =>
      s.(master := s.master.(todo := s.master.todo - {f}, acc := Plus(s.master.acc, s.files[f])))
    case Fail => s.(master := Draining)
    case Timeout => s.(master := Draining)
    case Unlink(f) => s.(files := s.files - {f}, master := s.master.(todo := s.master.todo - {f}))
    case ScrapeAcquire(p) => s.(lock := ByScrape(p, s.total, {}, false, {}, map[]))
    case ScrapeList => s.(lock := s.lock.(listed := true, todo := s.files.Keys))
    case ScrapeFile(f) =>
      s.(lock := s.lock.(todo := s.lock.todo - {f}, acc := Plus(s.lock.acc, s.files[f])))
    case ScrapeRelease => s.(lock := Free)
  }

  function ApplyInc(s: State, p: nat, k: Key, amount: real): State {
    var f := WorkerFile(k.kind, p);
    var t := if f in s.files then s.files[f] else map[];
    var lock := if s.lock.ByScrape? && amount < 0.0 then s.lock.(dropped := s.lock.dropped + {k}) else s.lock;
    s.(files := s.files[f := Bump(t, k, amount)], total := Bump(s.total, k, amount), lock := lock)
  }

  /** The innermost run of the hook takes its next step. */
  function ApplyHook(s: State): State
    requires s.hooks != []
  {
    var n := |s.hooks| - 1;
    match s.hooks[n]
    case Append(p) => s.(dead := s.dead + [p], queued := s.queued + [p], hooks := s.hooks[..n] + [Test])
    case Test => s.(hooks := if Custom in s.signals then s.hooks[..n] else s.hooks[..n] + [Queue])
    case Queue => s.(signals := s.signals + [Custom], hooks := s.hooks[..n])
  }

  function ApplyAdvance(s: State): State
    requires Enabled(s, Advance)
  {
    match s.master
    case Idle => s.(signals := s.signals[1..], master := if s.signals[0].Custom? then Draining else Idle)
    case Draining => s.(master := if s.dead == [] then Leaving else Popping)
    case Popping => s.(dead := s.dead[1..], taken := s.taken + [s.dead[0]], master := Starting(s.dead[0]))
    case Starting(pid) =>
      var paths := WorkerFiles(pid) * s.files.Keys;
      s.(master := if paths == {} then Draining else Merging(pid, paths, paths + ARCHIVES * s.files.Keys, map[]))
    case Merging(pid, paths, _, acc) =>
      s.(master := Waiting(pid, paths, Restrict(acc, Histogram), Restrict(acc, Counter)))
    case Waiting(pid, paths, histograms, counters) =>
      s.(lock := ByMaster, master := Locked(pid, paths, histograms, counters))
    case Locked(pid, paths, histograms, counters) =>
      s.(files := s.files[ArchiveFile(Histogram) := histograms], master := HistogramsSwapped(pid, paths, counters))
    case HistogramsSwapped(pid, paths, counters) =>
      s.(files := s.files[ArchiveFile(Counter) := counters], master := Unlinking(pid, paths))
    case Unlinking(_, _) => s.(lock := Free, master := Draining)
    case Leaving => s.(master := Idle)
  }

  /** `acts` can be taken one after the other from `s`, and lead to `t`. */
  predicate Runs(s: State, acts: seq<Action>, t: State)
    decreases |acts|
  {
    if acts == [] then s == t
    else Enabled(s, acts[0]) && Runs(Apply(s, acts[0]), acts[1..], t)
  }

  /** The sum of every increment to `k` made in a run: what the metrics should show. */
  function Recorded(acts: seq<Action>, k: Key): real {
    if acts == [] then 0.0
    else (if acts[0].Inc? && acts[0].key == k then acts[0].amount else 0.0) + Recorded(acts[1..], k)
  }

  /** Worker files whose contents an archive already holds, but which are not unlinked yet. */
  function Superseded(m: Master): set<File> {
    match m
    case HistogramsSwapped(pid, paths, _) => paths * {WorkerFile(Histogram, pid)}
    case Unlinking(_, todo) => todo
    case _ => {}
  }

  /** The master is between its first rename and its last unlink. */
  predicate Swapping(m: Master) {
    m.HistogramsSwapped? || m.Unlinking?
  }

  predicate InDrain(m: Master) {
    !m.Idle? && !m.Leaving?
  }
}
