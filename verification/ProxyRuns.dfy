/** What holds in every run of concurrent callers of the MCP proxy. */
module ProxyRuns {
  import opened Prelude
  import opened McpProxy

  /** Between two closes at most one initialize succeeds per key, what it returned is what is
      stored, and every call that does not skip the handshake comes after its own key's, with
      that session's id unless it is empty. */
  lemma InitializedOnce(states: seq<Proxy>, steps: seq<Step>, n: nat)
    requires Run(states, steps) && ClosedQuietly(states, steps) && n < |states|
    ensures var log, sessions := states[n].log, states[n].sessions;
      && (forall i, j | 0 <= i < j < |log| && log[i].Initialized? && log[j].Initialized? :: log[i].key != log[j].key)
      && (forall k, session :: Initialized(k, session) in log <==> k in sessions && sessions[k] == session)
      && (forall i | 0 <= i < |log| && log[i].Called? && !log[i].call.skipInitialize :: CallInOrder(log, i))
  {
    RunInv(states, steps, n);
    var log, sessions := states[n].log, states[n].sessions;
    forall k, session | Initialized(k, session) in log ensures k in sessions && sessions[k] == session {
      var i :| 0 <= i < |log| && log[i] == Initialized(k, session);
    }
  }

  /** A stored session is never replaced or dropped, except by `close`. */
  lemma {:induction false} StoredSessionStays(states: seq<Proxy>, steps: seq<Step>, i: nat, j: nat, key: Key)
    requires Run(states, steps) && ClosedQuietly(states, steps) && i <= j < |states|
    requires forall k | i <= k < j :: !steps[k].Close?
    requires key in states[i].sessions
    ensures key in states[j].sessions && states[j].sessions[key] == states[i].sessions[key]
    decreases j - i
  {
    hide Apply, Inv, Quiet;
    if i < j {
      StoredSessionStays(states, steps, i, j - 1, key);
      RunInv(states, steps, j - 1);
      StepKeepsSession(states[j - 1], steps[j - 1], key);
    }
  }

  lemma StepKeepsSession(p: Proxy, e: Step, key: Key)
    requires Inv(p) && Enabled(p, e) && !e.Close? && key in p.sessions
    ensures key in Apply(p, e).sessions && Apply(p, e).sessions[key] == p.sessions[key]
  {
    hide LogInv, LocksInv, HeldInv, HeaderFor;
    if e.Succeed? { assert TaskInv(p, e.id); }
  }

  /** A failed handshake stores nothing and lets every other waiter for the key try. */
  lemma FailureLetsNextTry(p: Proxy, id: nat, other: nat)
    requires Inv(p) && Enabled(p, Fail(id))
    requires other in p.tasks && other != id && p.tasks[other].Waiting? && p.tasks[other].call.key == p.tasks[id].call.key
    ensures var after := Apply(p, Fail(id));
      after.sessions == p.sessions && Enabled(after, Enter(other))
      && Apply(after, Enter(other)).tasks[other].Initializing?
  {
  }

  lemma HeldLocksAreKnown(p: Proxy)
    requires Inv(p)
    ensures forall l | l in p.held :: l < p.nextLock
  {
  }

  /** Without competition the steps of a first call do what `Adapter.Prepare` does. */
  lemma UncontendedCall(p: Proxy, id: nat, call: Call, session: string)
    requires Inv(p) && id !in p.tasks && !call.skipInitialize && call.key !in p.sessions
    requires call.key in p.locks ==> p.locks[call.key] !in p.held
    ensures Enabled(p, Start(id, call)) && Enabled(Apply(p, Start(id, call)), Enter(id))
    ensures var shaking := Apply(Apply(p, Start(id, call)), Enter(id));
      && Enabled(shaking, Succeed(id, session))
      && Apply(shaking, Succeed(id, session)).sessions == p.sessions[call.key := session]
      && Apply(shaking, Succeed(id, session)).tasks[id] == Sent(call, if session != "" then Some(session) else None)
  {
    hide LogInv;
    HeldLocksAreKnown(p);
  }

  // ---------- Closing ----------

  ghost predicate NoClose(steps: seq<Step>) {
    forall i | 0 <= i < |steps| :: !steps[i].Close?
  }

  /** Some key has been initialized twice. */
  ghost predicate Twice(log: seq<Event>) {
    exists i, j | 0 <= i < j < |log| :: log[i].Initialized? && log[j].Initialized? && log[i].key == log[j].key
  }

  lemma {:induction false} ContinuationInv(p: Proxy, states: seq<Proxy>, steps: seq<Step>, n: nat)
    requires Inv(p) && From(p, states, steps) && NoClose(steps) && n < |states|
    ensures Inv(states[n])
  {
    hide Inv, Apply;
    if n > 0 {
      ContinuationInv(p, states, steps, n - 1);
      StepKeepsInv(states[n - 1], steps[n - 1]);
    }
  }

  /** A handshake older than the last close and a new one for its key both succeed. */
  lemma BothSucceed(p: Proxy, older: nat, newer: nat) returns (states: seq<Proxy>, steps: seq<Step>)
    requires older in p.tasks && p.tasks[older].Initializing? && newer !in p.tasks
    requires p.nextLock !in p.held && p.sessions == map[] && p.locks == map[]
    ensures From(p, states, steps) && NoClose(steps) && Twice(states[|steps|].log)
  {
    var key := p.tasks[older].call.key;
    states, steps := [p], [];
    assert From(p, states, steps);
    hide From;
    states, steps := Extend(p, states, steps, Start(newer, Call(key, false)));
    states, steps := Extend(p, states, steps, Enter(newer));
    states, steps := Extend(p, states, steps, Succeed(older, ""));
    var n := |states[3].log|;
    assert states[3].log[n - 2] == Initialized(key, "");
    states, steps := Extend(p, states, steps, Succeed(newer, ""));
    var log := states[4].log;
    assert log[n - 2] == log[n] == Initialized(key, "");
  }

  lemma UnusedId(tasks: map<nat, Task>) returns (id: nat)
    ensures id !in tasks
  {
    id := 0;
    var ids := tasks.Keys;
    while id in tasks
      invariant ids == set k | k in tasks && k >= id
      decreases ids
    {
      ids := ids - {id};
      id := id + 1;
    }
  }

  /** A caller that waits for a handshake has one pending, or may start its own. */
  lemma WaiterFindsHandshake(p: Proxy, id: nat)
    requires Inv(p) && id in p.tasks && p.tasks[id].Waiting?
    ensures p.tasks[id].lock < p.nextLock
    ensures p.tasks[id].lock in p.held ==> p.held[p.tasks[id].lock] in p.tasks && p.tasks[p.held[p.tasks[id].lock]].Initializing?
  {
    hide LogInv;
    assert TaskInv(p, id);
    if p.tasks[id].lock in p.held {
      assert HeldBy(p, p.tasks[id].lock, p.held[p.tasks[id].lock]);
    }
  }

  lemma NoisyCloseBreaks(p: Proxy) returns (states: seq<Proxy>, steps: seq<Step>)
    requires Inv(p) && !Quiet(p)
    ensures From(Apply(p, Close), states, steps) && NoClose(steps) && Twice(states[|steps|].log)
  {
    hide LogInv, LocksInv, TaskInv;
    var closed := Apply(p, Close);
    var newer := UnusedId(p.tasks);
    HeldLocksAreKnown(p);
    var id :| id in p.tasks && (p.tasks[id].Waiting? || p.tasks[id].Initializing?);
    if p.tasks[id].Waiting? {
      WaiterFindsHandshake(p, id);
    }
    if p.tasks[id].Waiting? && p.tasks[id].lock !in p.held {
      assert Enabled(closed, Enter(id));
      var entered := Apply(closed, Enter(id));
      states, steps := BothSucceed(entered, id, newer);
      states, steps := Before(closed, Enter(id), states, steps);
    } else {
      var older := if p.tasks[id].Waiting? then p.held[p.tasks[id].lock] else id;
      states, steps := BothSucceed(closed, older, newer);
    }
  }

  lemma Before(p: Proxy, e: Step, states: seq<Proxy>, steps: seq<Step>) returns (more: seq<Proxy>, moreSteps: seq<Step>)
    requires Enabled(p, e) && !e.Close? && From(Apply(p, e), states, steps) && NoClose(steps)
    ensures From(p, more, moreSteps) && NoClose(moreSteps) && more[|moreSteps|] == states[|steps|]
  {
    hide Apply, Enabled;
    more, moreSteps := [p] + states, [e] + steps;
    forall i | 0 <= i < |moreSteps|
      ensures Enabled(more[i], moreSteps[i]) && more[i + 1] == Apply(more[i], moreSteps[i])
    {
      if i > 0 { assert more[i] == states[i - 1] && moreSteps[i] == steps[i - 1]; }
    }
  }

  /** Closing is harmless exactly while no handshake is pending or waited for: then, and only
      then, no continuation without another close initializes a key twice. */
  lemma CloseIsHarmlessWhenQuiet(p: Proxy)
    requires Inv(p)
    ensures Quiet(p) <==>
      forall states: seq<Proxy>, steps | From(Apply(p, Close), states, steps) && NoClose(steps) :: !Twice(states[|steps|].log)
  {
    hide Inv, Apply, Quiet;
    if Quiet(p) {
      StepKeepsInv(p, Close);
      forall states: seq<Proxy>, steps | From(Apply(p, Close), states, steps) && NoClose(steps)
        ensures !Twice(states[|steps|].log)
      {
        ContinuationInv(Apply(p, Close), states, steps, |steps|);
        InvMeansOnce(states[|steps|]);
      }
    } else {
      var states, steps := NoisyCloseBreaks(p);
    }
  }

  lemma InvMeansOnce(p: Proxy)
    requires Inv(p)
    ensures !Twice(p.log)
  {
    hide LocksInv, HeldInv, TaskInv;
  }

  /** Closing while a handshake is pending breaks this: the late answer and a new handshake both
      succeed for one key, and the stored session changes. */
  lemma CloseDuringHandshake(key: Key) returns (states: seq<Proxy>, steps: seq<Step>)
    ensures Run(states, steps) && |steps| == 7
    ensures steps[2] == Close && forall i | 3 <= i < 7 :: steps[i] != Close
    ensures Initialized(key, "a") in states[7].log && Initialized(key, "b") in states[7].log
    ensures key in states[6].sessions && states[6].sessions[key] == "a"
    ensures key in states[7].sessions && states[7].sessions[key] == "b"
  {
    var call := Call(key, false);
    states, steps := [Empty], [];
    assert From(Empty, states, steps);
    hide From;
    states, steps := Extend(Empty, states, steps, Start(1, call));
    states, steps := Extend(Empty, states, steps, Enter(1));
    states, steps := Extend(Empty, states, steps, Close);
    states, steps := Extend(Empty, states, steps, Start(2, call));
    states, steps := Extend(Empty, states, steps, Enter(2));
    assert states[5].tasks == map[1 := Initializing(call, 0), 2 := Initializing(call, 1)];
    states, steps := Extend(Empty, states, steps, Succeed(1, "a"));
    assert states[6].log[0] == Initialized(key, "a");
    states, steps := Extend(Empty, states, steps, Succeed(2, "b"));
    assert states[7].log[0] == Initialized(key, "a") && states[7].log[2] == Initialized(key, "b");
  }

  lemma Extend(p: Proxy, states: seq<Proxy>, steps: seq<Step>, e: Step) returns (more: seq<Proxy>, moreSteps: seq<Step>)
    requires From(p, states, steps) && Enabled(states[|steps|], e)
    ensures more == states + [Apply(states[|steps|], e)] && moreSteps == steps + [e]
    ensures From(p, more, moreSteps)
  {
    more, moreSteps := states + [Apply(states[|steps|], e)], steps + [e];
  }
}
