/** Where the role lists come from, in every run of interleaved calls. */
module RoleRuns {
  import opened Prelude
  import opened Json
  import opened Roles

  ghost predicate Started(steps: seq<Step>, i: nat, id: nat, user: string) {
    i < |steps| && steps[i].Start? && steps[i].id == id && steps[i].user == user
  }

  /** Before step n the call started with this claim, which names these roles. */
  ghost predicate FromClaim(c: Config, steps: seq<Step>, n: nat, id: nat, user: string, roles: seq<string>, claim: Value) {
    roles == Normalize(c.py, claim) != []
    && exists i :: 0 <= i < n && Started(steps, i, id, user) && steps[i].claim == claim
  }

  ghost predicate WithoutClaim(c: Config, steps: seq<Step>, n: nat, id: nat, user: string) {
    exists i :: 0 <= i < n && Started(steps, i, id, user) && Normalize(c.py, steps[i].claim) == []
  }

  /** The call started without roles in its claim, and the provider then gave these. */
  ghost predicate FromProvider(c: Config, steps: seq<Step>, n: nat, id: nat, user: string, roles: seq<string>, p: Provider) {
    Offers(p, roles)
    && exists i | 0 <= i < n && i < |steps| :: steps[i] == Answer(id, p) && WithoutClaim(c, steps, i, id, user)
  }

  ghost predicate Origin(c: Config, steps: seq<Step>, n: nat, id: nat, user: string, roles: seq<string>, source: Source) {
    match source
    case Claimed(claim) => FromClaim(c, steps, n, id, user, roles, claim)
    case Fallback(p) => FromProvider(c, steps, n, id, user, roles, p)
    case Cached => false
  }

  /** Step k wrote these roles for the user, for a call that had them from its claim or from the
      provider. */
  ghost predicate Put(c: Config, states: seq<World>, steps: seq<Step>, k: nat, user: string, roles: seq<string>) {
    && k < |steps| && k < |states| && steps[k].Store? && Stored(c, steps[k].effect)
    && steps[k].id in states[k].tasks
    && (var t := states[k].tasks[steps[k].id];
        t.Writing? && t.user == user && t.roles == roles
        && Origin(c, steps, k, steps[k].id, user, roles, t.source))
  }

  /** The call read, without roles in its claim, what a step before it had put there less than
      the ttl earlier. */
  ghost predicate FromCache(c: Config, states: seq<World>, steps: seq<Step>, n: nat, id: nat, user: string, roles: seq<string>, at: int) {
    exists k, i | 0 <= k < i < n :: Put(c, states, steps, k, user, roles) && Started(steps, i, id, user)
      && Normalize(c.py, steps[i].claim) == [] && steps[i].at == at && steps[k].at <= at < steps[k].at + c.ttl
  }

  ghost predicate HasOrigin(c: Config, states: seq<World>, steps: seq<Step>, n: nat, id: nat, t: Task) {
    match t
    case Asking(user) => WithoutClaim(c, steps, n, id, user)
    case Writing(user, roles, source) => Origin(c, steps, n, id, user, roles, source)
    case Resolved(user, roles, source, at) =>
      if source.Cached? then FromCache(c, states, steps, n, id, user, roles, at)
      else Origin(c, steps, n, id, user, roles, source)
    case Failed => true
  }

  lemma OriginStays(c: Config, states: seq<World>, steps: seq<Step>, n: nat, id: nat, t: Task)
    requires HasOrigin(c, states, steps, n, id, t)
    ensures HasOrigin(c, states, steps, n + 1, id, t)
  {
  }

  lemma {:induction false} TasksHaveOrigin(c: Config, states: seq<World>, steps: seq<Step>, n: nat, id: nat)
    requires c.codec.Valid() && Run(c, states, steps) && n < |states| && id in states[n].tasks
    ensures HasOrigin(c, states, steps, n, id, states[n].tasks[id])
    decreases n, 0
  {
    hide HasOrigin, Inv;
    var w, e := states[n - 1], steps[n - 1];
    assert Enabled(w, e) && states[n] == Apply(c, w, e);
    if (e.Start? || e.Answer? || e.Store?) && e.id == id {
      MovedTaskHasOrigin(c, states, steps, n - 1);
    } else {
      TasksHaveOrigin(c, states, steps, n - 1, id);
      OriginStays(c, states, steps, n - 1, id, w.tasks[id]);
    }
  }

  lemma {:induction false} MovedTaskHasOrigin(c: Config, states: seq<World>, steps: seq<Step>, n: nat)
    requires c.codec.Valid() && Run(c, states, steps) && n < |steps|
    requires steps[n].Start? || steps[n].Answer? || steps[n].Store?
    ensures steps[n].id in states[n + 1].tasks
    ensures HasOrigin(c, states, steps, n + 1, steps[n].id, states[n + 1].tasks[steps[n].id])
    decreases n, 1
  {
    hide Inv, Put, CacheGet;
    var w, e := states[n], steps[n];
    assert Enabled(w, e) && states[n + 1] == Apply(c, w, e);
    match e {
      case Start(id, user, claim, at, readable) =>
        assert Started(steps, n, id, user);
        if states[n + 1].tasks[id].Resolved? {
          RunInv(c, states, steps, n);
          HitIsRecent(c, w, user, at, readable);
          var roles := states[n + 1].tasks[id].roles;
          var i :| 0 <= i < |w.writes| && w.writes[i].user == user && w.writes[i].roles == roles
            && w.writes[i].at <= at < w.writes[i].at + c.ttl;
          var k := WriteHasStep(c, states, steps, n, i);
          assert Put(c, states, steps, k, user, roles);
        }
      case Answer(id, p) =>
        TasksHaveOrigin(c, states, steps, n, id);
        assert WithoutClaim(c, steps, n, id, w.tasks[id].user);
      case Store(id, at, effect) =>
        TasksHaveOrigin(c, states, steps, n, id);
        OriginStays(c, states, steps, n, id, w.tasks[id]);
    }
  }

  lemma {:induction false} WriteHasStep(c: Config, states: seq<World>, steps: seq<Step>, n: nat, i: nat) returns (k: nat)
    requires c.codec.Valid() && Run(c, states, steps) && n < |states| && i < |states[n].writes|
    ensures var x := states[n].writes[i];
      k < n && Put(c, states, steps, k, x.user, x.roles) && steps[k].Store? && steps[k].at == x.at
    decreases n, 0
  {
    hide Inv, CacheGet, CacheSet, Origin;
    var w, e := states[n - 1], steps[n - 1];
    assert Enabled(w, e) && states[n] == Apply(c, w, e);
    if i < |w.writes| {
      k := WriteHasStep(c, states, steps, n - 1, i);
    } else {
      k := n - 1;
      TasksHaveOrigin(c, states, steps, n - 1, e.id);
    }
  }

  /** In every interleaved run a resolved list is what the call's own claim names, or what the
      provider answered that call, or what an earlier step wrote for the same user, less than the
      ttl before, for a call that had it from its claim or from the provider. Hits write nothing,
      so they never extend that age. */
  lemma RolesHaveProvenance(c: Config, states: seq<World>, steps: seq<Step>, n: nat, id: nat)
    requires c.codec.Valid() && Run(c, states, steps) && n < |states|
    requires id in states[n].tasks && states[n].tasks[id].Resolved?
    ensures var t := states[n].tasks[id];
      match t.source
      case Claimed(claim) => FromClaim(c, steps, n, id, t.user, t.roles, claim)
      case Fallback(p) => FromProvider(c, steps, n, id, t.user, t.roles, p)
      case Cached => FromCache(c, states, steps, n, id, t.user, t.roles, t.at)
  {
    TasksHaveOrigin(c, states, steps, n, id);
  }

  /** A claim that names roles decides, whatever the cache holds, whether or not it works, and
      whatever happens before the call writes. */
  lemma {:induction false} ClaimDecides(c: Config, states: seq<World>, steps: seq<Step>, i: nat, n: nat)
    requires Run(c, states, steps) && i < n < |states|
    requires steps[i].Start? && Normalize(c.py, steps[i].claim) != []
    ensures var id, user, claim := steps[i].id, steps[i].user, steps[i].claim;
      && id in states[n].tasks
      && (if exists j | i < j < n :: steps[j].Store? && steps[j].id == id
          then exists at :: states[n].tasks[id] == Resolved(user, Normalize(c.py, claim), Claimed(claim), at)
          else states[n].tasks[id] == Writing(user, Normalize(c.py, claim), Claimed(claim)))
  {
    hide Normalize, CacheGet, CacheSet;
    var e := steps[n - 1];
    assert Enabled(states[n - 1], e) && states[n] == Apply(c, states[n - 1], e);
    if i < n - 1 {
      ClaimDecides(c, states, steps, i, n - 1);
    }
  }

  /** Whether the step changes the user's entry. */
  predicate Touches(w: World, e: Step, user: string)
    requires Enabled(w, e)
  {
    match e
    case Store(id, _, effect) => w.tasks[id].user == user && Applied(effect)
    case Invalidate(u, effect) => u == user && Applied(effect)
    case Lose(u) => u == user
    case _ => false
  }

  lemma UntouchedStays(c: Config, w: World, e: Step, user: string)
    requires Enabled(w, e) && !Touches(w, e, user)
    ensures (user in w.store) == (user in Apply(c, w, e).store)
    ensures user in w.store ==> Apply(c, w, e).store[user] == w.store[user]
  {
  }

  lemma {:induction false} EntryStays(c: Config, states: seq<World>, steps: seq<Step>, i: nat, k: nat, user: string)
    requires Run(c, states, steps) && i <= k < |states|
    requires forall j | i <= j < k :: !Touches(states[j], steps[j], user)
    requires user in states[i].store
    ensures user in states[k].store && states[k].store[user] == states[i].store[user]
    decreases k - i
  {
    hide Apply, Touches;
    if i < k {
      EntryStays(c, states, steps, i, k - 1, user);
      UntouchedStays(c, states[k - 1], steps[k - 1], user);
    }
  }

  /** No step from i on writes for the user. */
  ghost predicate NoWrite(states: seq<World>, steps: seq<Step>, i: nat, k: nat, user: string)
    requires k <= |steps| && k < |states|
  {
    forall j | i <= j < k && steps[j].Store? && steps[j].id in states[j].tasks && states[j].tasks[steps[j].id].Writing? ::
      states[j].tasks[steps[j].id].user != user
  }

  lemma {:induction false} StaysDropped(c: Config, states: seq<World>, steps: seq<Step>, i: nat, k: nat, user: string)
    requires Run(c, states, steps) && i <= k < |states| && NoWrite(states, steps, i, k, user)
    requires user !in states[i].store
    ensures user !in states[k].store
    decreases k - i
  {
    hide Apply, Enabled, NoWrite;
    if i < k {
      assert NoWrite(states, steps, i, k - 1, user) by { NoWriteBefore(states, steps, i, k, user); }
      StaysDropped(c, states, steps, i, k - 1, user);
      NoWriteStep(c, states, steps, i, k, user);
    }
  }

  lemma NoWriteBefore(states: seq<World>, steps: seq<Step>, i: nat, k: nat, user: string)
    requires i < k <= |steps| && k < |states| && NoWrite(states, steps, i, k, user)
    ensures NoWrite(states, steps, i, k - 1, user)
  {
  }

  lemma NoWriteStep(c: Config, states: seq<World>, steps: seq<Step>, i: nat, k: nat, user: string)
    requires Run(c, states, steps) && i < k < |states| && NoWrite(states, steps, i, k, user)
    requires user !in states[k - 1].store
    ensures user !in states[k].store
  {
    hide CacheGet;
    assert Enabled(states[k - 1], steps[k - 1]) && states[k] == Apply(c, states[k - 1], steps[k - 1]);
  }

  /** After an invalidation that took effect, and until something is written for the user, a call
      without roles in its claim asks the provider. */
  lemma InvalidatedIsAsked(c: Config, states: seq<World>, steps: seq<Step>, i: nat, k: nat, user: string)
    requires Run(c, states, steps) && i < k < |steps|
    requires steps[i].Invalidate? && steps[i].user == user && Applied(steps[i].effect) && c.redis
    requires NoWrite(states, steps, i + 1, k, user)
    requires steps[k].Start? && steps[k].user == user && Normalize(c.py, steps[k].claim) == []
    ensures steps[k].id in states[k + 1].tasks && states[k + 1].tasks[steps[k].id] == Asking(user)
  {
    hide Normalize, NoWrite;
    assert states[i + 1] == Apply(c, states[i], steps[i]) && user !in states[i + 1].store;
    StaysDropped(c, states, steps, i + 1, k, user);
    assert Enabled(states[k], steps[k]) && states[k + 1] == Apply(c, states[k], steps[k]);
  }

  /** With a working cache, a later call without a claim reads back exactly what was written,
      while the ttl lasts and nothing has touched the user's entry in between. */
  lemma WrittenRolesAreReadBack(c: Config, states: seq<World>, steps: seq<Step>, i: nat, k: nat)
    requires c.codec.Valid() && c.redis && c.ttl > 0
    requires Run(c, states, steps) && i < k < |steps|
    requires steps[i].Store? && Applied(steps[i].effect)
    requires var user := states[i].tasks[steps[i].id].user;
      && (forall j | i < j < k :: !Touches(states[j], steps[j], user))
      && steps[k].Start? && steps[k].user == user && steps[k].readable
    requires Normalize(c.py, steps[k].claim) == [] && steps[k].at < steps[i].at + c.ttl
    ensures var written, read := states[i].tasks[steps[i].id], steps[k];
      states[k + 1].tasks[read.id] == Resolved(written.user, written.roles, Cached, read.at)
  {
    hide Normalize, Touches;
    var t := states[i].tasks[steps[i].id];
    assert states[i + 1].store[t.user] == Entry(c.codec.dumps(t.roles), steps[i].at + c.ttl);
    EntryStays(c, states, steps, i + 1, k, t.user);
    NamesAreKept(c.py, t.roles);
  }
}
