/** What holds in every run of readers, forced refreshes and stream clients on the tool cache. */
module RegistryRuns {
  import opened Prelude
  import opened ToolCache
  import opened RegistryProtocol
  import Registry

  /** Loads never overlap, and the installed version, the floor and the history only grow. */
  lemma {:induction false} LoadsAreSerial(states: seq<System>, steps: seq<Step>, i: nat, j: nat, a: nat, b: nat)
    requires Run(states, steps) && i <= j < |states|
    ensures a in states[i].tasks && b in states[i].tasks && states[i].tasks[a].Loading? && states[i].tasks[b].Loading?
      ==> a == b
    ensures states[i].version <= states[j].version && states[i].floor <= states[j].floor
    ensures states[i].history <= states[j].history
    decreases j - i
  {
    RunInv(states, steps, i);
    if a in states[i].tasks { assert TaskInv(states[i], a); }
    if b in states[i].tasks { assert TaskInv(states[i], b); }
    if i < j {
      LoadsAreSerial(states, steps, i, j - 1, a, b);
      RunInv(states, steps, j - 1);
      StepKeepsSnapshot(states[j - 1], steps[j - 1]);
    }
  }

  /** A forced refresh that has returned was called at a version no newer than the installed
      one, then and at every later time. */
  lemma RefreshIsSeen(states: seq<System>, steps: seq<Step>, i: nat, j: nat, id: nat)
    requires Run(states, steps) && i <= j < |states|
    requires id in states[i].tasks && states[i].tasks[id].Refreshed?
    ensures states[i].tasks[id].called <= states[j].version
  {
    RunInv(states, steps, i);
    assert TaskInv(states[i], id);
    LoadsAreSerial(states, steps, i, j, id, id);
  }

  /** The step that answers a reader, and what it answers with. */
  ghost predicate Answers(s: System, e: Step, id: nat)
    requires Enabled(s, e)
  {
    && (e == Read(id) || e == Acquire(id) || (e.Loaded? && e.id == id))
    && id in Apply(s, e).tasks && Apply(s, e).tasks[id].Answered?
  }

  /** An answer is a whole catalogue the database once held, and, the clock reading at least
      the ttl, one no older than the last forced refresh to take the lock. */
  lemma AnswerIsRecent(s: System, e: Step, id: nat)
    requires Inv(s) && Enabled(s, e) && Answers(s, e, id)
    ensures var t := Apply(s, e);
      && t.tasks[id].version <= t.Current()
      && t.tasks[id].tools == (if t.tasks[id].version < 0 then [] else Views(t.history[t.tasks[id].version]))
      && (s.now >= s.ttl ==> s.floor <= t.tasks[id].version)
  {
  }

  /** Nothing has been installed or invalidated after step i. */
  ghost predicate Unreplaced(states: seq<System>, steps: seq<Step>, i: nat, j: nat)
    requires Run(states, steps)
  {
    forall k | i < k < j && k < |steps| ::
      !steps[k].Loaded? && !(steps[k].Acquire? && steps[k].id in states[k].tasks && states[k].tasks[steps[k].id].Waiting?
                             && states[k].tasks[steps[k].id].kind.Forced?)
  }

  lemma {:induction false} SnapshotLasts(states: seq<System>, steps: seq<Step>, i: nat, j: nat)
    requires Run(states, steps) && i < j < |states| && Unreplaced(states, steps, i, j)
    ensures states[j].cache == states[i + 1].cache && states[j].ttl == states[i + 1].ttl
    decreases j - i
  {
    if i + 1 < j {
      SnapshotLasts(states, steps, i, j - 1);
      assert Enabled(states[j - 1], steps[j - 1]) && states[j] == Apply(states[j - 1], steps[j - 1]);
    }
  }

  /** One load serves everybody for the ttl: after a load of a table that is not empty no reader,
      neither one that comes later nor one that waited for the lock meanwhile, loads again before
      the ttl is over, unless a forced refresh or another load comes between. */
  lemma OneLoadPerTtl(states: seq<System>, steps: seq<Step>, i: nat, j: nat)
    requires Run(states, steps) && i < j < |steps| && Unreplaced(states, steps, i, j)
    requires steps[i].Loaded? && steps[i].version < |states[i].history| && states[i].history[steps[i].version] != []
    requires states[j].now - states[i].now < states[j].ttl
    ensures steps[j].Read? ==> states[j + 1].tasks[steps[j].id].Answered?
    ensures steps[j].Acquire? && states[j].tasks[steps[j].id].kind.Reader? ==> states[j + 1].tasks[steps[j].id].Answered?
  {
    assert Enabled(states[i], steps[i]) && states[i + 1] == Apply(states[i], steps[i]);
    SnapshotLasts(states, steps, i, j);
    assert Enabled(states[j], steps[j]) && states[j + 1] == Apply(states[j], steps[j]);
  }

  /** From the rows: what an answered reader lists for a caller are exactly the rows granted to the
      caller in one state of the table, in order; and what it looks up is found among them. */
  lemma AnswersListGranted(states: seq<System>, steps: seq<Step>, i: nat, id: nat, name: string, p: Registry.Principal)
    requires Run(states, steps) && i < |states|
    requires id in states[i].tasks && states[i].tasks[id].Answered? && states[i].tasks[id].version >= 0
    ensures var t := states[i].tasks[id];
      && t.version < |states[i].history|
      && Registry.ListsRows(states[i].history[t.version], p, Registry.List(t.tools, p))
      && Registry.FindsRow(states[i].history[t.version], name, p, Registry.Find(Index(t.tools), name, p))
  {
    hide Run, LockInv, QueueInv, Registry.ListsRows, Registry.FindsRow, Index, Shows;
    RunInv(states, steps, i);
    assert TaskInv(states[i], id);
    var t := states[i].tasks[id];
    assert t.version <= states[i].version && states[i].version <= states[i].Current();
    var rows := states[i].history[t.version];
    ViewsShow(rows);
    Registry.ListedAreGranted(t.tools, rows, p);
    assert GoodRows(rows);
    forall j, k | 0 <= j < k < |rows| ensures rows[j].name != rows[k].name {
      assert Views(rows)[j].name != Views(rows)[k].name;
    }
    Registry.FoundIsGranted(t.tools, rows, name, p);
  }

  /** Once a forced refresh has taken the lock, nobody who is answered gets the old snapshot:
      every later answer is at least as new as what was committed at that moment, and so as
      what was committed when the refresh was called. */
  lemma NoStaleAnswer(states: seq<System>, steps: seq<Step>, i: nat, j: nat, forced: nat, id: nat)
    requires Run(states, steps) && i < j < |steps|
    requires steps[i] == Acquire(forced) && states[i].tasks[forced].kind.Forced?
    requires Answers(states[j], steps[j], id)
    requires states[j].now >= states[j].ttl
    ensures states[i].tasks[forced].kind.called <= states[i].Current() <= states[j + 1].tasks[id].version
  {
    RunInv(states, steps, i);
    RunInv(states, steps, j);
    assert TaskInv(states[i], forced);
    assert states[i + 1].floor == states[i].Current();
    LoadsAreSerial(states, steps, i + 1, j, id, id);
    AnswerIsRecent(states[j], steps[j], id);
  }

  /** A forced refresh has invalidated the snapshot and nothing has been installed since. */
  ghost predicate StillInvalid(states: seq<System>, steps: seq<Step>, i: nat, j: nat) {
    && Run(states, steps) && i < j < |states|
    && steps[i].Acquire? && states[i].tasks[steps[i].id].kind.Forced?
    && forall k | i < k < j :: !steps[k].Loaded?
  }

  lemma {:induction false} InvalidUntilLoaded(states: seq<System>, steps: seq<Step>, i: nat, j: nat)
    requires StillInvalid(states, steps, i, j)
    ensures states[j].cache == Invalidated(states[i].cache) && states[j].ttl == states[i].ttl
    decreases j - i
  {
    if i + 1 < j {
      InvalidUntilLoaded(states, steps, i, j - 1);
      assert states[j] == Apply(states[j - 1], steps[j - 1]);
    }
  }

  /** From the moment a forced refresh takes the lock until some load succeeds, during its load
      and after it has failed, the check a reader makes passes exactly when there is an old
      snapshot and the clock reads less than the ttl. */
  lemma CheckUntilLoaded(states: seq<System>, steps: seq<Step>, i: nat, j: nat)
    requires StillInvalid(states, steps, i, j)
    ensures states[j].IsFresh() <==> states[i].cache.tools != [] && states[j].now < states[j].ttl
  {
    InvalidUntilLoaded(states, steps, i, j);
  }

  ghost predicate ForcedLoadRuns(s: System) {
    exists id | id in s.tasks :: s.tasks[id].Loading? && s.tasks[id].kind.Forced?
  }

  /** The same in every state whose snapshot is older than the last forced refresh to take the
      lock, and during every forced load. */
  lemma CheckDuringForcedLoad(s: System)
    requires Inv(s) && (s.version < s.floor || ForcedLoadRuns(s))
    ensures s.IsFresh() <==> s.cache.tools != [] && s.now < s.ttl
  {
    if s.version >= s.floor {
      var id :| id in s.tasks && s.tasks[id].Loading? && s.tasks[id].kind.Forced?;
      assert TaskInv(s, id);
    }
  }

  /** The lock is held exactly while some task loads, so a failed or finished load lets the next
      waiter in. */
  lemma LockMeansLoading(states: seq<System>, steps: seq<Step>, i: nat)
    requires Run(states, steps) && i < |states|
    ensures states[i].lock == None <==> forall id | id in states[i].tasks :: !states[i].tasks[id].Loading?
  {
    RunInv(states, steps, i);
    forall id | id in states[i].tasks && states[i].tasks[id].Loading? ensures states[i].lock == Some(id) {
      assert TaskInv(states[i], id);
    }
  }

  /** Without competition the steps of a read do what `Cache.EnsureFresh` does. */
  lemma UncontendedRead(s: System, id: nat)
    requires Inv(s) && id !in s.tasks && s.lock == None && !s.IsFresh()
    ensures Enabled(s, Read(id)) && Enabled(Apply(s, Read(id)), Acquire(id))
    ensures var loading, last := Apply(Apply(s, Read(id)), Acquire(id)), |s.history| - 1;
      && Enabled(loading, Loaded(id, last))
      && Apply(loading, Loaded(id, last)).cache == Installed(s.history[last], s.now)
      && Apply(loading, Loaded(id, last)).lock == None
      && Apply(loading, Loaded(id, last)).tasks[id] == Answered(last, Views(s.history[last]))
  {
  }

  /** With a clock below the ttl the guarantee fails: a row is dropped and a refresh forced, and
      while it loads a reader is still answered with the row. */
  lemma YoungClockAnswersStale(row: ToolRow) returns (states: seq<System>, steps: seq<Step>)
    ensures Run(states, steps) && |steps| == 7
    ensures steps[5] == Acquire(2) && 2 in states[5].tasks && states[5].tasks[2] == Waiting(Forced(1))
    ensures steps[6] == Read(3) && 3 in states[7].tasks && states[7].tasks[3] == Answered(0, Views([row]))
    ensures states[6].now < states[6].ttl
  {
    var s0 := System(30, [[row]], 5, Snapshot([], map[], 0), -1, 0, None, map[], map[], {});
    assert GoodRows([row]);
    states, steps := [s0], [];
    assert Run(states, steps);
    hide Run, GoodRows, Index;
    states, steps := Extend(states, steps, Read(1));
    states, steps := Extend(states, steps, Acquire(1));
    states, steps := Extend(states, steps, Loaded(1, 0));
    states, steps := Extend(states, steps, Commit([]));
    states, steps := Extend(states, steps, Force(2));
    states, steps := Extend(states, steps, Acquire(2));
    assert states[6].IsFresh();
    states, steps := Extend(states, steps, Read(3));
  }

  lemma Extend(states: seq<System>, steps: seq<Step>, e: Step) returns (more: seq<System>, moreSteps: seq<Step>)
    requires Run(states, steps) && Enabled(states[|steps|], e)
    ensures more == states + [Apply(states[|steps|], e)] && moreSteps == steps + [e]
    ensures Run(more, moreSteps)
  {
    more, moreSteps := states + [Apply(states[|steps|], e)], steps + [e];
  }

  /** In every state the index and the list describe the same tools, for every principal. */
  lemma LookupAgreesInEveryState(states: seq<System>, steps: seq<Step>, i: nat, name: string, p: Registry.Principal)
    requires Run(states, steps) && i < |states|
    ensures var c := states[i].cache;
      && (Registry.Find(c.byName, name, p).Some?
          <==> exists t :: t in Registry.List(c.tools, p) && t.name == name)
      && (Registry.Find(c.byName, name, p).Some? ==>
            Registry.Find(c.byName, name, p).value in Registry.List(c.tools, p))
  {
    RunInv(states, steps, i);
    var s := states[i];
    if s.version >= 0 { assert GoodRows(s.history[s.version]); }
    Registry.FindAgreesWithList(s.cache.tools, name, p);
  }

  // ---------- Notifications ----------

  /** Nothing the subscriber does in steps i..j takes it off the list or reads its queue. */
  ghost predicate Undisturbed(steps: seq<Step>, i: nat, j: nat, q: nat) {
    forall k | i <= k < j && k < |steps| :: steps[k] != Dequeue(q) && steps[k] != Unsubscribe(q)
  }

  lemma {:induction false} OwedUntilRead(states: seq<System>, steps: seq<Step>, i: nat, j: nat, q: nat)
    requires Run(states, steps) && i <= j < |states|
    requires q in states[i].owed && Undisturbed(steps, i, j, q)
    ensures q in states[j].owed
    decreases j - i
  {
    hide Views, Index, TaskInv, SnapshotInv, LockInv;
    if i < j {
      OwedUntilRead(states, steps, i, j - 1, q);
      RunInv(states, steps, j - 1);
      assert steps[j - 1] != Dequeue(q) && steps[j - 1] != Unsubscribe(q);
    }
  }

  /** No lost wake-up: queues never exceed their limit, and although full queues drop events, a
      subscriber that stays registered cannot find its queue empty after a forced refresh has
      notified it without having read an event since. */
  lemma NoLostWakeUp(states: seq<System>, steps: seq<Step>, i: nat, j: nat, q: nat)
    requires Run(states, steps) && i < j < |states|
    requires steps[i].Notify? && q in states[i].queues
    requires forall k | i < k < j :: steps[k] != Unsubscribe(q)
    ensures q in states[j].queues && |states[j].queues[q]| <= QUEUE_LIMIT
    ensures states[j].queues[q] == [] ==> exists k | i < k < j :: steps[k] == Dequeue(q)
  {
    RunInv(states, steps, j);
    StaysRegistered(states, steps, i, j, q);
    if forall k | i < k < j :: steps[k] != Dequeue(q) {
      assert q in states[i + 1].owed;
      OwedUntilRead(states, steps, i + 1, j, q);
    }
  }

  lemma {:induction false} StaysRegistered(states: seq<System>, steps: seq<Step>, i: nat, j: nat, q: nat)
    requires Run(states, steps) && i <= j < |states| && q in states[i].queues
    requires forall k | i <= k < j :: steps[k] != Unsubscribe(q)
    ensures q in states[j].queues
    decreases j - i
  {
    if i < j { StaysRegistered(states, steps, i, j - 1, q); }
  }
}
