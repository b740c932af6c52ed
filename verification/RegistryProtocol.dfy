/** Concurrent readers and forced refreshes of the tool cache. Coroutines interleave only where
    they wait, so each step below is one stretch between two waits; loaders, the clock, commits
    to the database and stream clients belong to the environment. */
module RegistryProtocol {
  import opened Prelude
  import opened ToolCache

  /** A read (`ensure_fresh` and then the snapshot), or a forced refresh, which remembers the
      database version committed when it was called. */
  datatype Kind = Reader | Forced(called: nat)

  /** `Loading` holds the lock and has asked the database at version `since`. */
  datatype Task =
    | Waiting(kind: Kind)
    | Loading(kind: Kind, since: nat)
    | Notifying(called: nat)
    | Answered(version: int, tools: seq<ToolView>)
    | Refreshed(called: nat)
    | Failed

  /** `history` is every state of the tools table so far, the last one current. `version` is the
      one the snapshot was read from (-1 before any load), `floor` the one current when the last
      forced refresh took the lock, and `owed` the subscribers that have not read since the last
      broadcast; these three are ghosts of the model. */
  datatype System = System(
    ttl: int, history: seq<seq<ToolRow>>, now: int, cache: Snapshot, version: int, floor: nat,
    lock: Option<nat>, tasks: map<nat, Task>, queues: map<nat, Events>, owed: set<nat>)
  {
    function Current(): int { |history| - 1 }

    predicate IsFresh() { Fresh(cache, now, ttl) }
  }

  datatype Step =
    | Tick(to: int)
    | Commit(rows: seq<ToolRow>)
    | Read(id: nat)
    | Force(id: nat)
    | Acquire(id: nat)
    | Loaded(id: nat, version: nat)
    | LoadFailed(id: nat)
    | Cancel(id: nat)
    | Notify(id: nat)
    | Subscribe(q: nat)
    | Unsubscribe(q: nat)
    | Dequeue(q: nat)

  ghost predicate GoodRows(rows: seq<ToolRow>) {
    UniqueNames(Views(rows))
  }

  ghost predicate Enabled(s: System, e: Step) {
    match e
    case Tick(to) => s.now <= to
    case Commit(rows) => GoodRows(rows)
    case Read(id) => id !in s.tasks
    case Force(id) => id !in s.tasks && s.history != []
    case Acquire(id) => id in s.tasks && s.tasks[id].Waiting? && s.lock == None && s.history != []
    case Loaded(id, v) => id in s.tasks && s.tasks[id].Loading? && s.tasks[id].since <= v <= s.Current()
    case LoadFailed(id) => id in s.tasks && s.tasks[id].Loading?
    case Cancel(id) => id in s.tasks && s.tasks[id].Waiting?
    case Notify(id) => id in s.tasks && s.tasks[id].Notifying?
    case Subscribe(q) => q !in s.queues
    case Unsubscribe(q) => q in s.queues
    case Dequeue(q) => q in s.queues && s.queues[q] != []
  }

  function Set(s: System, id: nat, t: Task): System {
    s.(tasks := s.tasks[id := t])
  }

  /** The answer of a reader is the snapshot at the moment `ensure_fresh` returns. */
  function Answer(s: System): Task {
    Answered(s.version, s.cache.tools)
  }

  /** The lock is free: a reader checks again, a forced refresh invalidates and loads. */
  function AcquireStep(s: System, id: nat): System
    requires id in s.tasks && s.tasks[id].Waiting? && s.history != []
  {
    match s.tasks[id].kind
    case Reader =>
      if s.IsFresh() then Set(s, id, Answer(s))
      else Set(s, id, Loading(Reader, s.Current())).(lock := Some(id))
    case Forced(c) =>
      Set(s, id, Loading(Forced(c), s.Current()))
        .(lock := Some(id), cache := Invalidated(s.cache), floor := s.Current())
  }

  function LoadedStep(s: System, id: nat, v: nat): System
    requires id in s.tasks && s.tasks[id].Loading? && v <= s.Current()
  {
    var t := s.(cache := Installed(s.history[v], s.now), version := v, lock := None);
    match s.tasks[id].kind
    case Reader => Set(t, id, Answer(t))
    case Forced(c) => Set(t, id, Notifying(c))
  }

  function NotifyStep(s: System, id: nat): System
    requires id in s.tasks && s.tasks[id].Notifying?
  {
    Set(s, id, Refreshed(s.tasks[id].called))
      .(queues := map q | q in s.queues :: Offered(s.queues[q], "tools_changed"), owed := s.queues.Keys)
  }

  ghost function Apply(s: System, e: Step): System
    requires Enabled(s, e)
  {
    match e
    case Tick(to) => s.(now := to)
    case Commit(rows) => s.(history := s.history + [rows])
    case Read(id) => Set(s, id, if s.IsFresh() then Answer(s) else Waiting(Reader))
    case Force(id) => Set(s, id, Waiting(Forced(s.Current())))
    case Acquire(id) => AcquireStep(s, id)
    case Loaded(id, v) => LoadedStep(s, id, v)
    case LoadFailed(id) => Set(s, id, Failed).(lock := None)
    case Cancel(id) => Set(s, id, Failed)
    case Notify(id) => NotifyStep(s, id)
    case Subscribe(q) => s.(queues := s.queues[q := []], owed := s.owed - {q})
    case Unsubscribe(q) => s.(queues := s.queues - {q}, owed := s.owed - {q})
    case Dequeue(q) => s.(queues := s.queues[q := s.queues[q][1..]], owed := s.owed - {q})
  }

  ghost predicate Init(s: System) {
    && |s.history| == 1 && GoodRows(s.history[0])
    && s.cache == Snapshot([], map[], 0) && s.version == -1 && s.floor == 0
    && s.lock == None && s.tasks == map[] && s.queues == map[] && s.owed == {}
  }

  /** A run: the states it goes through and the steps between them. */
  ghost predicate Run(states: seq<System>, steps: seq<Step>) {
    && |states| == |steps| + 1
    && Init(states[0])
    && forall i | 0 <= i < |steps| :: Enabled(states[i], steps[i]) && states[i + 1] == Apply(states[i], steps[i])
  }

  // ---------- The invariant ----------

  ghost predicate SnapshotInv(s: System) {
    && s.history != [] && (forall i | 0 <= i < |s.history| :: GoodRows(s.history[i]))
    && -1 <= s.version <= s.Current() && s.floor <= s.Current()
    && s.cache.tools == (if s.version < 0 then [] else Views(s.history[s.version]))
    && s.cache.byName == Index(s.cache.tools)
    && (s.version < s.floor ==> s.cache.loadedAt == 0)
  }

  ghost predicate TaskInv(s: System, id: nat)
    requires id in s.tasks
  {
    match s.tasks[id]
    case Waiting(kind) => kind.Forced? ==> kind.called <= s.Current()
    case Loading(kind, since) =>
      && s.lock == Some(id)
      && s.version <= since && s.floor <= since <= s.Current()
      && (kind.Forced? ==> kind.called <= s.floor && s.cache.loadedAt == 0)
    case Notifying(c) => c <= s.version
    case Answered(v, tools) =>
      && -1 <= v <= s.version <= s.Current()
      && tools == (if v < 0 then [] else Views(s.history[v]))
    case Refreshed(c) => c <= s.version
    case Failed => true
  }

  ghost predicate LockInv(s: System) {
    s.lock.Some? ==> s.lock.value in s.tasks && s.tasks[s.lock.value].Loading?
  }

  ghost predicate QueueInv(s: System) {
    && (forall q | q in s.queues :: |s.queues[q]| <= QUEUE_LIMIT)
    && (forall q | q in s.owed :: q in s.queues && s.queues[q] != [])
  }

  ghost predicate Inv(s: System) {
    && SnapshotInv(s) && LockInv(s) && QueueInv(s)
    && forall id | id in s.tasks :: TaskInv(s, id)
  }

  lemma StepKeepsSnapshot(s: System, e: Step)
    requires Inv(s) && Enabled(s, e)
    ensures SnapshotInv(Apply(s, e))
    ensures Apply(s, e).version >= s.version && Apply(s, e).floor >= s.floor
    ensures s.history <= Apply(s, e).history
  {
    hide Index, Views;
    if e.Loaded? || e.LoadFailed? || e.Acquire? { assert TaskInv(s, e.id); }
  }

  lemma StepKeepsLock(s: System, e: Step)
    requires Inv(s) && Enabled(s, e)
    ensures LockInv(Apply(s, e))
  {
  }

  /** A task the step does not move. */
  lemma StepKeepsOtherTask(s: System, e: Step, id: nat)
    requires Inv(s) && Enabled(s, e) && id in s.tasks
    requires id in Apply(s, e).tasks && Apply(s, e).tasks[id] == s.tasks[id]
    ensures TaskInv(Apply(s, e), id)
  {
    hide Index, Views;
    StepKeepsSnapshot(s, e);
    assert TaskInv(s, id);
    if e.Loaded? || e.LoadFailed? || e.Acquire? { assert TaskInv(s, e.id); }
  }

  /** A task the step moves. */
  lemma StepKeepsOwnTask(s: System, e: Step, id: nat)
    requires Inv(s) && Enabled(s, e) && id in Apply(s, e).tasks
    requires id in s.tasks ==> Apply(s, e).tasks[id] != s.tasks[id]
    ensures TaskInv(Apply(s, e), id)
  {
    hide Index, Views, QueueInv, LockInv, Fresh;
    if e.Acquire? {
      AcquireKeepsOwnTask(s, id);
    } else {
      StepKeepsSnapshot(s, e);
      if id in s.tasks { assert TaskInv(s, id); }
    }
  }

  lemma AcquireKeepsOwnTask(s: System, id: nat)
    requires Inv(s) && Enabled(s, Acquire(id))
    ensures TaskInv(Apply(s, Acquire(id)), id)
  {
    hide Index, Views, QueueInv, LockInv, Fresh;
    StepKeepsSnapshot(s, Acquire(id));
    assert TaskInv(s, id);
  }

  lemma StepKeepsTask(s: System, e: Step, id: nat)
    requires Inv(s) && Enabled(s, e) && id in Apply(s, e).tasks
    ensures TaskInv(Apply(s, e), id)
  {
    hide Apply, TaskInv, SnapshotInv, LockInv, QueueInv;
    if id in s.tasks && Apply(s, e).tasks[id] == s.tasks[id] {
      StepKeepsOtherTask(s, e, id);
    } else {
      StepKeepsOwnTask(s, e, id);
    }
  }

  lemma StepKeepsQueues(s: System, e: Step)
    requires QueueInv(s) && Enabled(s, e)
    ensures QueueInv(Apply(s, e))
  {
  }

  lemma StepKeepsInv(s: System, e: Step)
    requires Inv(s) && Enabled(s, e)
    ensures Inv(Apply(s, e))
  {
    hide Apply, TaskInv, SnapshotInv, LockInv, QueueInv;
    StepKeepsSnapshot(s, e);
    StepKeepsLock(s, e);
    StepKeepsQueues(s, e);
    forall id | id in Apply(s, e).tasks ensures TaskInv(Apply(s, e), id) {
      StepKeepsTask(s, e, id);
    }
  }

  /** Every state of a run satisfies the invariant. */
  lemma {:induction false} RunInv(states: seq<System>, steps: seq<Step>, i: nat)
    requires Run(states, steps) && i < |states|
    ensures Inv(states[i])
  {
    if i > 0 {
      RunInv(states, steps, i - 1);
      StepKeepsInv(states[i - 1], steps[i - 1]);
    }
  }
}
