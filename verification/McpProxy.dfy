/** The MCP proxy's one-time handshake with each remote server. Callers run concurrently and
    interleave only where they wait; each step below is one stretch between two waits. */
module McpProxy {
  import opened Prelude

  // ---------- Whose session it is ----------

  /** What of a call decides its credentials. */
  datatype Caller = Caller(passthrough: bool, rawToken: string, userId: string, secretEnvName: string)

  /** `_resolve_token`: the token and the identity the session belongs to. */
  function ResolveToken(c: Caller, env: map<string, string>): Option<(string, string)> {
    if c.passthrough then
      if c.rawToken == "" then None else Some((c.rawToken, "user:" + c.userId))
    else if c.secretEnvName == "" || c.secretEnvName !in env || env[c.secretEnvName] == "" then None
    else Some((env[c.secretEnvName], "svc:" + c.secretEnvName))
  }

  /** Two callers share an identity exactly when both pass through the same user's token or both
      use the same service secret. */
  lemma IdentityIsPrivate(a: Caller, b: Caller, env: map<string, string>)
    requires ResolveToken(a, env).Some? && ResolveToken(b, env).Some?
    ensures ResolveToken(a, env).value.1 == ResolveToken(b, env).value.1
      <==> a.passthrough == b.passthrough
           && (if a.passthrough then a.userId == b.userId else a.secretEnvName == b.secretEnvName)
  {
    var x, y := ResolveToken(a, env).value.1, ResolveToken(b, env).value.1;
    assert a.passthrough ==> x[0] == 'u' && x[5..] == a.userId;
    assert b.passthrough ==> y[0] == 'u' && y[5..] == b.userId;
    assert !a.passthrough ==> x[0] == 's' && x[4..] == a.secretEnvName;
    assert !b.passthrough ==> y[0] == 's' && y[4..] == b.secretEnvName;
  }

  /** Whose credentials go out. A tool that passes tokens through sends the caller's own token,
      whatever secrets there are, and none is sent exactly when the caller has none; any other tool
      sends the secret it names, whoever calls, and none exactly when there is no such secret. */
  lemma CredentialsAreOwn(c: Caller, other: Caller, env: map<string, string>, envOther: map<string, string>)
    ensures c.passthrough ==>
      && (ResolveToken(c, env).Some? <==> c.rawToken != "")
      && (ResolveToken(c, env).Some? ==> ResolveToken(c, env).value.0 == c.rawToken)
      && ResolveToken(c, env) == ResolveToken(c, envOther)
    ensures !c.passthrough ==>
      && (ResolveToken(c, env).Some? <==> c.secretEnvName != "" && c.secretEnvName in env && env[c.secretEnvName] != "")
      && (ResolveToken(c, env).Some? ==> ResolveToken(c, env).value.0 == env[c.secretEnvName])
      && (!other.passthrough && other.secretEnvName == c.secretEnvName ==> ResolveToken(c, env) == ResolveToken(other, env))
  {
  }

  // ---------- The protocol ----------

  /** Remote URL and identity. */
  datatype Key = Key(url: string, identity: string)

  datatype Call = Call(key: Key, skipInitialize: bool)

  datatype Task =
    | Waiting(call: Call, lock: nat)
    | Initializing(call: Call, lock: nat)
    | Sent(call: Call, header: Option<string>)
    | Failed

  /** What the remote side sees, since the last `close`. */
  datatype Event =
    | Initialized(key: Key, session: string)
    | InitializeFailed(key: Key)
    | Called(call: Call, header: Option<string>)

  /** Locks are objects, here numbered; `held` maps a held lock to its holder. */
  datatype Proxy = Proxy(
    sessions: map<Key, string>, locks: map<Key, nat>, nextLock: nat, held: map<nat, nat>,
    tasks: map<nat, Task>, log: seq<Event>)

  datatype Step =
    | Start(id: nat, call: Call)
    | Enter(id: nat)
    | Succeed(id: nat, session: string)
    | Fail(id: nat)
    | Cancel(id: nat)
    | Close

  predicate Enabled(p: Proxy, e: Step) {
    match e
    case Start(id, _) => id !in p.tasks
    case Enter(id) => id in p.tasks && p.tasks[id].Waiting? && p.tasks[id].lock !in p.held
    case Succeed(id, _) => id in p.tasks && p.tasks[id].Initializing?
    case Fail(id) => id in p.tasks && p.tasks[id].Initializing?
    case Cancel(id) => id in p.tasks && p.tasks[id].Waiting?
    case Close => true
  }

  /** The session header of a call: the stored id, unless there is none or it is empty. */
  function HeaderFor(sessions: map<Key, string>, key: Key): Option<string> {
    if key in sessions && sessions[key] != "" then Some(sessions[key]) else None
  }

  /** The call goes out with what is stored at that moment. */
  function SendCall(p: Proxy, id: nat, call: Call): Proxy {
    var header := HeaderFor(p.sessions, call.key);
    p.(tasks := p.tasks[id := Sent(call, header)], log := p.log + [Called(call, header)])
  }

  function StartStep(p: Proxy, id: nat, call: Call): Proxy {
    if call.skipInitialize || call.key in p.sessions then SendCall(p, id, call)
    else if call.key in p.locks then p.(tasks := p.tasks[id := Waiting(call, p.locks[call.key])])
    else p.(locks := p.locks[call.key := p.nextLock], nextLock := p.nextLock + 1,
            tasks := p.tasks[id := Waiting(call, p.nextLock)])
  }

  function Apply(p: Proxy, e: Step): Proxy
    requires Enabled(p, e)
  {
    match e
    case Start(id, call) => StartStep(p, id, call)
    case Enter(id) =>
      var t := p.tasks[id];
      if t.call.key in p.sessions then SendCall(p, id, t.call)
      else p.(held := p.held[t.lock := id], tasks := p.tasks[id := Initializing(t.call, t.lock)])
    case Succeed(id, session) =>
      var t := p.tasks[id];
      SendCall(
        p.(sessions := p.sessions[t.call.key := session], held := p.held - {t.lock},
           log := p.log + [Initialized(t.call.key, session)]),
        id, t.call)
    case Fail(id) =>
      var t := p.tasks[id];
      p.(held := p.held - {t.lock}, tasks := p.tasks[id := Failed], log := p.log + [InitializeFailed(t.call.key)])
    case Cancel(id) => p.(tasks := p.tasks[id := Failed])
    case Close => p.(sessions := map[], locks := map[], log := [])
  }

  const Empty := Proxy(map[], map[], 0, map[], map[], [])

  ghost predicate Run(states: seq<Proxy>, steps: seq<Step>) {
    From(Empty, states, steps)
  }

  /** A run that goes on from p. */
  ghost predicate From(p: Proxy, states: seq<Proxy>, steps: seq<Step>) {
    && |states| == |steps| + 1
    && states[0] == p
    && forall i | 0 <= i < |steps| :: Enabled(states[i], steps[i]) && states[i + 1] == Apply(states[i], steps[i])
  }

  /** No handshake is under way or waited for. */
  ghost predicate Quiet(p: Proxy) {
    forall id | id in p.tasks :: !p.tasks[id].Waiting? && !p.tasks[id].Initializing?
  }

  /** The adapter is only closed while no handshake is pending. */
  ghost predicate ClosedQuietly(states: seq<Proxy>, steps: seq<Step>)
    requires Run(states, steps)
  {
    forall i | 0 <= i < |steps| && steps[i].Close? :: Quiet(states[i])
  }

  // ---------- The invariant ----------

  ghost predicate LocksInv(p: Proxy) {
    && (forall k | k in p.locks :: p.locks[k] < p.nextLock)
    && (forall k, l | k in p.locks && l in p.locks :: p.locks[k] == p.locks[l] ==> k == l)
  }

  /** A held lock is held by a task that is initializing under it. */
  ghost predicate HeldInv(p: Proxy) {
    forall l | l in p.held :: HeldBy(p, l, p.held[l])
  }

  ghost predicate HeldBy(p: Proxy, l: nat, id: nat) {
    id in p.tasks && p.tasks[id].Initializing? && p.tasks[id].lock == l
  }

  ghost predicate TaskInv(p: Proxy, id: nat)
    requires id in p.tasks
  {
    match p.tasks[id]
    case Waiting(call, lock) => !call.skipInitialize && call.key in p.locks && p.locks[call.key] == lock
    case Initializing(call, lock) =>
      && !call.skipInitialize && call.key in p.locks && p.locks[call.key] == lock
      && lock in p.held && p.held[lock] == id
      && call.key !in p.sessions
    case _ => true
  }

  /** The log shows exactly the stored sessions, each initialized once, and every call that does
      not skip the handshake after its own key's session, with that session's id. */
  ghost predicate LogInv(log: seq<Event>, sessions: map<Key, string>) {
    && (forall i | 0 <= i < |log| && log[i].Initialized? ::
          log[i].key in sessions && sessions[log[i].key] == log[i].session)
    && (forall k | k in sessions :: Initialized(k, sessions[k]) in log)
    && (forall i, j | 0 <= i < j < |log| && log[i].Initialized? && log[j].Initialized? :: log[i].key != log[j].key)
    && (forall i | 0 <= i < |log| && log[i].Called? && !log[i].call.skipInitialize :: CallInOrder(log, i))
  }

  ghost predicate CallInOrder(log: seq<Event>, i: nat)
    requires i < |log| && log[i].Called?
  {
    exists j :: 0 <= j < i && log[j].Initialized? && log[j].key == log[i].call.key
      && log[i].header == (if log[j].session != "" then Some(log[j].session) else None)
  }

  ghost predicate Inv(p: Proxy) {
    LocksInv(p) && HeldInv(p) && LogInv(p.log, p.sessions) && forall id | id in p.tasks :: TaskInv(p, id)
  }

  lemma LogCall(log: seq<Event>, sessions: map<Key, string>, call: Call)
    requires LogInv(log, sessions)
    requires call.skipInitialize || call.key in sessions
    ensures LogInv(log + [Called(call, HeaderFor(sessions, call.key))], sessions)
  {
    var more := log + [Called(call, HeaderFor(sessions, call.key))];
    forall i | 0 <= i < |more| && more[i].Called? && !more[i].call.skipInitialize ensures CallInOrder(more, i) {
      if i < |log| {
        assert CallInOrder(log, i);
        var j :| 0 <= j < i && log[j].Initialized? && log[j].key == log[i].call.key
          && log[i].header == (if log[j].session != "" then Some(log[j].session) else None);
        assert more[j] == log[j] && more[i] == log[i];
      } else {
        assert Initialized(call.key, sessions[call.key]) in log;
        var j :| 0 <= j < |log| && log[j] == Initialized(call.key, sessions[call.key]);
        assert more[j] == log[j];
      }
    }
  }

  lemma LogOther(log: seq<Event>, sessions: map<Key, string>, key: Key)
    requires LogInv(log, sessions)
    ensures LogInv(log + [InitializeFailed(key)], sessions)
  {
    var more := log + [InitializeFailed(key)];
    forall i | 0 <= i < |more| && more[i].Called? && !more[i].call.skipInitialize ensures CallInOrder(more, i) {
      OrderKept(log, more, i);
    }
  }

  lemma OrderKept(log: seq<Event>, more: seq<Event>, i: nat)
    requires log <= more && i < |log| && log[i].Called? && CallInOrder(log, i)
    ensures CallInOrder(more, i)
  {
  }

  lemma LogInitialized(log: seq<Event>, sessions: map<Key, string>, key: Key, session: string)
    requires LogInv(log, sessions) && key !in sessions
    ensures LogInv(log + [Initialized(key, session)], sessions[key := session])
  {
    var more, stored := log + [Initialized(key, session)], sessions[key := session];
    assert more[|log|] == Initialized(key, session);
    forall k | k in stored ensures Initialized(k, stored[k]) in more {
      if k != key { assert Initialized(k, sessions[k]) in log; }
    }
    forall i | 0 <= i < |more| && more[i].Called? && !more[i].call.skipInitialize ensures CallInOrder(more, i) {
      OrderKept(log, more, i);
    }
  }

  lemma StepKeepsLog(p: Proxy, e: Step)
    requires Inv(p) && Enabled(p, e)
    ensures LogInv(Apply(p, e).log, Apply(p, e).sessions)
  {
    hide LogInv;
    if !e.Start? && !e.Close? { assert TaskInv(p, e.id); }
    match e {
      case Start(id, call) => if call.skipInitialize || call.key in p.sessions { LogCall(p.log, p.sessions, call); }
      case Enter(id) => if p.tasks[id].call.key in p.sessions { LogCall(p.log, p.sessions, p.tasks[id].call); }
      case Succeed(id, session) =>
        var call := p.tasks[id].call;
        LogInitialized(p.log, p.sessions, call.key, session);
        LogCall(p.log + [Initialized(call.key, session)], p.sessions[call.key := session], call);
      case Fail(id) => LogOther(p.log, p.sessions, p.tasks[id].call.key);
      case Cancel(_) =>
      case Close => EmptyLog();
    }
  }

  lemma EmptyLog()
    ensures LogInv([], map[])
  {
  }

  lemma StepKeepsLocks(p: Proxy, e: Step)
    requires Inv(p) && Enabled(p, e)
    ensures LocksInv(Apply(p, e))
  {
    hide LogInv, HeldInv, HeaderFor;
  }

  lemma StepKeepsHeld(p: Proxy, e: Step)
    requires Inv(p) && Enabled(p, e)
    ensures HeldInv(Apply(p, e))
  {
    hide LogInv, LocksInv, HeaderFor;
    if !e.Start? && !e.Close? { assert TaskInv(p, e.id); }
    var after := Apply(p, e);
    forall l | l in after.held ensures HeldBy(after, l, after.held[l]) {
      if l in p.held { assert HeldBy(p, l, p.held[l]); }
    }
  }

  lemma StepKeepsTask(p: Proxy, e: Step, id: nat)
    requires Inv(p) && Enabled(p, e) && (e.Close? ==> Quiet(p))
    requires id in Apply(p, e).tasks
    ensures TaskInv(Apply(p, e), id)
  {
    hide LogInv, HeaderFor, HeldInv, LocksInv;
    if id in p.tasks { assert TaskInv(p, id); }
    if !e.Close? {
      if e.id == id { StepKeepsOwnTask(p, e); } else { StepKeepsOtherTask(p, e, id); }
    }
  }

  lemma StepKeepsOwnTask(p: Proxy, e: Step)
    requires Inv(p) && Enabled(p, e) && !e.Close?
    ensures e.id in Apply(p, e).tasks && TaskInv(Apply(p, e), e.id)
  {
    hide LogInv, HeaderFor, HeldInv, LocksInv;
    if !e.Start? { assert TaskInv(p, e.id); }
  }

  /** Only the holder of a lock releases it, and a key's lock never changes. */
  lemma StepKeepsOtherTask(p: Proxy, e: Step, id: nat)
    requires Inv(p) && Enabled(p, e) && !e.Close? && e.id != id && id in p.tasks
    ensures id in Apply(p, e).tasks && TaskInv(Apply(p, e), id)
  {
    hide LogInv, HeaderFor, HeldInv, LocksInv;
    assert TaskInv(p, id);
    if !e.Start? { assert TaskInv(p, e.id); }
    if e.Enter? && p.tasks[id].Initializing? {
      assert p.tasks[e.id].lock != p.tasks[id].lock;
    }
  }

  lemma StepKeepsInv(p: Proxy, e: Step)
    requires Inv(p) && Enabled(p, e) && (e.Close? ==> Quiet(p))
    ensures Inv(Apply(p, e))
  {
    hide Apply, LogInv, LocksInv, HeldInv, TaskInv;
    StepKeepsLog(p, e);
    StepKeepsLocks(p, e);
    StepKeepsHeld(p, e);
    forall id | id in Apply(p, e).tasks ensures TaskInv(Apply(p, e), id) {
      StepKeepsTask(p, e, id);
    }
  }

  lemma {:induction false} RunInv(states: seq<Proxy>, steps: seq<Step>, i: nat)
    requires Run(states, steps) && ClosedQuietly(states, steps) && i < |states|
    ensures Inv(states[i])
  {
    if i == 0 {
      EmptyLog();
    } else {
      RunInv(states, steps, i - 1);
      StepKeepsInv(states[i - 1], steps[i - 1]);
    }
  }

  // ---------- The adapter itself ----------

  class Adapter {
    var sessions: map<Key, string>
    var initLocks: map<Key, nat>
    var nextLock: nat

    constructor ()
      ensures sessions == map[] && initLocks == map[]
    {
      sessions, initLocks, nextLock := map[], map[], 0;
    }

    method Close()
      modifies this
      ensures sessions == map[] && initLocks == map[]
    {
      sessions, initLocks := map[], map[];
    }

    /** `_ensure_initialized` with nobody else holding the key's lock; `answer` is None when
        posting or decoding the handshake raises, else the session id of the response. */
    method EnsureInitialized(key: Key, answer: Option<string>) returns (ok: bool)
      modifies this
      ensures ok <==> key in sessions
      ensures sessions == if key in old(sessions) || answer.None? then old(sessions)
                          else old(sessions)[key := answer.value]
      ensures initLocks.Keys == if key in old(sessions) then old(initLocks).Keys else old(initLocks).Keys + {key}
      ensures forall k | k in old(initLocks) :: k in initLocks && initLocks[k] == old(initLocks)[k]
    {
      if key in sessions {
        return true;
      }
      if key !in initLocks {
        initLocks := initLocks[key := nextLock];
        nextLock := nextLock + 1;
      }
      if answer.None? {
        return false;
      }
      sessions := sessions[key := answer.value];
      return true;
    }

    /** The session header `invoke` sends, or None when the handshake fails. */
    method Prepare(call: Call, answer: Option<string>) returns (header: Option<Option<string>>)
      modifies this
      ensures header.Some? <==> call.skipInitialize || call.key in sessions
      ensures header.Some? ==> header.value == HeaderFor(sessions, call.key)
      ensures sessions == if call.skipInitialize || call.key in old(sessions) || answer.None? then old(sessions)
                          else old(sessions)[call.key := answer.value]
    {
      if !call.skipInitialize {
        var ok := EnsureInitialized(call.key, answer);
        if !ok {
          return None;
        }
      }
      return Some(if call.key in sessions && sessions[call.key] != "" then Some(sessions[call.key]) else None);
    }
  }
}
