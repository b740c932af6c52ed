/** Which roles a caller has: the token's claim, else the Redis cache, else the identity
    provider. Callers interleave where they wait; the store is shared. */
module Roles {
  import opened Prelude
  import opened Json

  // ---------- Reading a roles value ----------

  /** What one list item contributes. */
  function ItemRoles(py: Python, item: Value): seq<string> {
    match item
    case Str(s) => [s]
    case Obj(m) =>
      var name := Or(Get(m, "name"), Get(m, "displayName"));
      if Truthy(name) then [ToText(py, name)] else []
    case _ => []
  }

  function ListRoles(py: Python, items: seq<Value>): seq<string> {
    if items == [] then [] else ListRoles(py, items[..|items| - 1]) + ItemRoles(py, items[|items| - 1])
  }

  function Normalize(py: Python, value: Value): seq<string> {
    match value
    case Str(s) => [s]
    case Arr(items) => ListRoles(py, items)
    case _ => []
  }

  function Strings(roles: seq<string>): Value {
    Arr(seq(|roles|, i requires 0 <= i < |roles| => Str(roles[i])))
  }

  /** A list of names is read as it is, so normalising twice changes nothing. */
  lemma {:induction false} NamesAreKept(py: Python, roles: seq<string>)
    ensures Normalize(py, Strings(roles)) == roles
  {
    if roles != [] {
      var n := |roles| - 1;
      NamesAreKept(py, roles[..n]);
      assert Strings(roles).items[..n] == Strings(roles[..n]).items;
    }
  }

  /** One item names a role by itself, as a text, or by its name, or, lacking one, by its display
      name; anything else names none. */
  lemma ItemMeans(py: Python, item: Value)
    ensures var roles := Normalize(py, Arr([item]));
      && (item.Str? ==> roles == [item.s])
      && (!item.Str? && !item.Obj? ==> roles == [])
      && (item.Obj? && Truthy(Get(item.members, "name")) ==> roles == [ToText(py, Get(item.members, "name"))])
      && (item.Obj? && !Truthy(Get(item.members, "name")) && Truthy(Get(item.members, "displayName")) ==>
            roles == [ToText(py, Get(item.members, "displayName"))])
      && (item.Obj? && !Truthy(Get(item.members, "name")) && !Truthy(Get(item.members, "displayName")) ==> roles == [])
  {
    assert [item][..0] == [];
    assert ListRoles(py, [item]) == ListRoles(py, []) + ItemRoles(py, item);
  }

  /** The items of a list name their roles one after another. */
  lemma {:induction false} ItemsMean(py: Python, a: seq<Value>, b: seq<Value>)
    ensures Normalize(py, Arr(a + b)) == Normalize(py, Arr(a)) + Normalize(py, Arr(b))
    ensures Normalize(py, Arr([])) == []
  {
    hide ItemRoles;
    if b == [] {
      assert a + b == a;
    } else {
      var n := |b| - 1;
      ItemsMean(py, a, b[..n]);
      assert (a + b)[..|a + b| - 1] == a + b[..n] && (a + b)[|a + b| - 1] == b[n];
    }
  }

  /** A value that is no list: a text names itself, anything else names nothing. */
  lemma OtherValuesMean(py: Python, value: Value)
    requires !value.Arr?
    ensures Normalize(py, value) == if value.Str? then [value.s] else []
  {
  }

  /** `_normalize`. */
  method NormalizeValue(py: Python, value: Value) returns (out: seq<string>)
    ensures out == Normalize(py, value)
    ensures Normalize(py, Strings(out)) == out
  {
    out := [];
    match value {
      case Str(s) => out := [s];
      case Arr(items) =>
        var i := 0;
        while i < |items|
          invariant 0 <= i <= |items|
          invariant out == ListRoles(py, items[..i])
        {
          assert items[..i + 1][..i] == items[..i];
          match items[i] {
            case Str(s) => out := out + [s];
            case Obj(m) =>
              var name := Or(Get(m, "name"), Get(m, "displayName"));
              if Truthy(name) {
                out := out + [ToText(py, name)];
              }
            case _ =>
          }
          i := i + 1;
        }
        assert items[..i] == items;
      case _ =>
    }
    NamesAreKept(py, out);
  }

  // ---------- The store ----------

  /** The JSON text format: `loads` is None for a text that is not JSON. */
  datatype Codec = Codec(dumps: seq<string> -> string, loads: string -> Option<Value>) {
    ghost predicate Valid() {
      forall roles :: loads(dumps(roles)) == Some(Strings(roles))
    }
  }

  /** A stored text and when it expires. Keys contain the user id and nothing else that varies. */
  datatype Entry = Entry(text: string, expires: int)

  type Store = map<string, Entry>

  /** A command succeeds, or the client raises; it may have taken effect all the same. */
  datatype Effect = Done | Raised(applied: bool)

  predicate Applied(e: Effect) {
    e.Raised? ==> e.applied
  }

  datatype Config = Config(py: Python, codec: Codec, redis: bool, ttl: int)

  /** `_cache_get`. */
  function CacheGet(c: Config, store: Store, user: string, now: int, readable: bool): Option<seq<string>> {
    if !c.redis || !readable || user !in store || store[user].expires <= now then None
    else
      var loaded := c.codec.loads(store[user].text);
      if loaded.None? then None else Some(Normalize(c.py, loaded.value))
  }

  /** A write takes effect; the server refuses an expiry that is not positive. */
  predicate Stored(c: Config, e: Effect) {
    c.redis && c.ttl > 0 && Applied(e)
  }

  /** `_cache_set`. */
  function CacheSet(c: Config, store: Store, user: string, roles: seq<string>, now: int, e: Effect): Store {
    if Stored(c, e) then store[user := Entry(c.codec.dumps(roles), now + c.ttl)] else store
  }

  /** `invalidate`. */
  function Dropped(c: Config, store: Store, user: string, e: Effect): Store {
    if c.redis && Applied(e) then store - {user} else store
  }

  /** With a working cache: what was written is read back until the ttl is over and not after, and
      no other user's entry changes; a user who was invalidated has none. */
  lemma CacheMeans(c: Config, store: Store, user: string, roles: seq<string>, at: int, now: int, other: string)
    requires c.codec.Valid() && c.redis && c.ttl > 0
    ensures var written, dropped := CacheSet(c, store, user, roles, at, Done), Dropped(c, store, user, Done);
      && CacheGet(c, written, user, now, true) == (if now < at + c.ttl then Some(roles) else None)
      && CacheGet(c, dropped, user, now, true) == None
      && (other != user ==>
            CacheGet(c, written, other, now, true) == CacheGet(c, dropped, other, now, true) == CacheGet(c, store, other, now, true))
  {
    NamesAreKept(c.py, roles);
    assert c.codec.loads(c.codec.dumps(roles)) == Some(Strings(roles));
  }

  // ---------- Resolving ----------

  /** What the identity provider's client does: it may not be configured, or raise. */
  datatype Provider = Unconfigured | Names(roles: seq<string>) | Broken

  datatype Source = Claimed(claim: Value) | Cached | Fallback(provider: Provider)

  datatype Task =
    | Asking(user: string)
    | Writing(user: string, roles: seq<string>, source: Source)
    | Resolved(user: string, roles: seq<string>, source: Source, at: int)
    | Failed

  /** Up to the first wait for something other than the cache. */
  function Begin(c: Config, store: Store, user: string, claim: Value, now: int, readable: bool): Task {
    var roles := Normalize(c.py, claim);
    if roles != [] then Writing(user, roles, Claimed(claim))
    else
      var cached := CacheGet(c, store, user, now, readable);
      if cached.Some? then Resolved(user, cached.value, Cached, now) else Asking(user)
  }

  function Ask(user: string, p: Provider): Task {
    match p
    case Unconfigured => Writing(user, [], Fallback(p))
    case Names(roles) => Writing(user, roles, Fallback(p))
    case Broken => Failed
  }

  class Redis {
    var store: Store

    constructor ()
      ensures store == map[]
    {
      store := map[];
    }
  }

  class RoleResolver {
    const config: Config
    const redis: Redis

    constructor (config: Config, redis: Redis)
      ensures this.config == config && this.redis == redis
    {
      this.config, this.redis := config, redis;
    }

    method CacheRead(user: string, now: int, readable: bool) returns (cached: Option<seq<string>>)
      ensures cached == CacheGet(config, redis.store, user, now, readable)
    {
      if !config.redis || !readable || user !in redis.store || redis.store[user].expires <= now {
        return None;
      }
      var loaded := config.codec.loads(redis.store[user].text);
      if loaded.None? {
        return None;
      }
      var roles := NormalizeValue(config.py, loaded.value);
      return Some(roles);
    }

    method CacheWrite(user: string, roles: seq<string>, now: int, e: Effect)
      modifies redis
      ensures redis.store == CacheSet(config, old(redis.store), user, roles, now, e)
    {
      if Stored(config, e) {
        redis.store := redis.store[user := Entry(config.codec.dumps(roles), now + config.ttl)];
      }
    }

    method Invalidate(user: string, e: Effect)
      modifies redis
      ensures redis.store == Dropped(config, old(redis.store), user, e)
    {
      if config.redis && Applied(e) {
        redis.store := redis.store - {user};
      }
    }

    /** `resolve` without interference; `later` is the clock at the write. None when the
        provider raises. */
    method Resolve(user: string, claim: Value, now: int, readable: bool, p: Provider, later: int, e: Effect)
      returns (roles: Option<seq<string>>)
      modifies redis
      ensures match Begin(config, old(redis.store), user, claim, now, readable)
        case Writing(_, claimed, _) =>
          roles == Some(claimed) && redis.store == CacheSet(config, old(redis.store), user, claimed, later, e)
        case Resolved(_, cached, _, _) => roles == Some(cached) && redis.store == old(redis.store)
        case Asking(_) =>
          (match Ask(user, p)
           case Writing(_, named, _) =>
             roles == Some(named) && redis.store == CacheSet(config, old(redis.store), user, named, later, e)
           case _ => roles == None && redis.store == old(redis.store))
        case Failed => true
      ensures var named, cached := Normalize(config.py, claim), CacheGet(config, old(redis.store), user, now, readable);
        && (named != [] ==> roles == Some(named))
        && (named == [] && cached.Some? ==> roles == cached && redis.store == old(redis.store))
        && (named == [] && cached.None? ==>
              roles == match p case Unconfigured => Some([]) case Names(list) => Some(list) case Broken => None)
        && (named != [] || cached.None? ==>
              redis.store == if roles.None? then old(redis.store)
                             else CacheSet(config, old(redis.store), user, roles.value, later, e))
    {
      var claimed := NormalizeValue(config.py, claim);
      if claimed != [] {
        CacheWrite(user, claimed, later, e);
        return Some(claimed);
      }
      var cached := CacheRead(user, now, readable);
      if cached.Some? {
        return cached;
      }
      var named: seq<string> := [];
      match p {
        case Unconfigured =>
        case Names(list) => named := list;
        case Broken => return None;
      }
      CacheWrite(user, named, later, e);
      return Some(named);
    }
  }

  // ---------- Runs ----------

  datatype Write = Write(id: nat, user: string, roles: seq<string>, source: Source, at: int)

  /** `writes` records every write of the run that took effect, newest last. */
  datatype World = World(store: Store, tasks: map<nat, Task>, now: int, writes: seq<Write>)

  datatype Step =
    | Start(id: nat, user: string, claim: Value, at: int, readable: bool)
    | Answer(id: nat, provider: Provider)
    | Store(id: nat, at: int, effect: Effect)
    | Invalidate(user: string, effect: Effect)
    | Lose(user: string)

  predicate Enabled(w: World, e: Step) {
    match e
    case Start(id, _, _, at, _) => id !in w.tasks && w.now <= at
    case Answer(id, _) => id in w.tasks && w.tasks[id].Asking?
    case Store(id, at, _) => id in w.tasks && w.tasks[id].Writing? && w.now <= at
    case _ => true
  }

  function StoreStep(c: Config, w: World, id: nat, t: Task, at: int, e: Effect): World
    requires t.Writing?
  {
    World(CacheSet(c, w.store, t.user, t.roles, at, e),
      w.tasks[id := Resolved(t.user, t.roles, t.source, at)], at,
      if Stored(c, e) then w.writes + [Write(id, t.user, t.roles, t.source, at)] else w.writes)
  }

  function Apply(c: Config, w: World, e: Step): World
    requires Enabled(w, e)
  {
    match e
    case Start(id, user, claim, at, readable) =>
      w.(tasks := w.tasks[id := Begin(c, w.store, user, claim, at, readable)], now := at)
    case Answer(id, p) => w.(tasks := w.tasks[id := Ask(w.tasks[id].user, p)])
    case Store(id, at, effect) => StoreStep(c, w, id, w.tasks[id], at, effect)
    case Invalidate(user, effect) => w.(store := Dropped(c, w.store, user, effect))
    case Lose(user) => w.(store := w.store - {user})
  }

  ghost predicate Run(c: Config, states: seq<World>, steps: seq<Step>) {
    && |states| == |steps| + 1
    && states[0] == World(map[], map[], 0, [])
    && forall i | 0 <= i < |steps| :: Enabled(states[i], steps[i]) && states[i + 1] == Apply(c, states[i], steps[i])
  }

  /** The roles a provider's answer gives. */
  predicate Offers(p: Provider, roles: seq<string>) {
    match p
    case Unconfigured => roles == []
    case Names(named) => roles == named
    case Broken => false
  }

  /** A source a write may have: a claim that names these roles, or a provider that gave them. */
  predicate Fits(c: Config, roles: seq<string>, source: Source) {
    match source
    case Claimed(claim) => roles == Normalize(c.py, claim) && roles != []
    case Cached => false
    case Fallback(p) => Offers(p, roles)
  }

  /** The entry is what some write for the user put there. */
  ghost predicate WrittenBy(c: Config, writes: seq<Write>, user: string, entry: Entry) {
    exists i :: 0 <= i < |writes| && writes[i].user == user
      && entry == Entry(c.codec.dumps(writes[i].roles), writes[i].at + c.ttl)
  }

  /** The list was written for the user less than the ttl before `at`. */
  ghost predicate Recent(c: Config, writes: seq<Write>, user: string, roles: seq<string>, at: int) {
    exists i :: 0 <= i < |writes| && writes[i].user == user && writes[i].roles == roles
      && writes[i].at <= at < writes[i].at + c.ttl
  }

  ghost predicate TaskInv(c: Config, writes: seq<Write>, t: Task) {
    match t
    case Writing(_, roles, source) => Fits(c, roles, source)
    case Resolved(user, roles, source, at) =>
      if source.Cached? then Recent(c, writes, user, roles, at) else Fits(c, roles, source)
    case _ => true
  }

  ghost predicate Inv(c: Config, w: World) {
    && (forall i | 0 <= i < |w.writes| :: w.writes[i].at <= w.now && Fits(c, w.writes[i].roles, w.writes[i].source))
    && (forall user | user in w.store :: WrittenBy(c, w.writes, user, w.store[user]))
    && (forall id | id in w.tasks :: TaskInv(c, w.writes, w.tasks[id]))
  }

  lemma MoreWrites(c: Config, writes: seq<Write>, more: seq<Write>)
    requires writes <= more
    ensures forall user, entry | WrittenBy(c, writes, user, entry) :: WrittenBy(c, more, user, entry)
    ensures forall t | TaskInv(c, writes, t) :: TaskInv(c, more, t)
  {
  }

  /** A hit was written recently. */
  lemma HitIsRecent(c: Config, w: World, user: string, now: int, readable: bool)
    requires c.codec.Valid() && Inv(c, w) && w.now <= now
    ensures var cached := CacheGet(c, w.store, user, now, readable);
      cached.Some? ==> Recent(c, w.writes, user, cached.value, now)
  {
    if CacheGet(c, w.store, user, now, readable).Some? {
      var i :| 0 <= i < |w.writes| && w.writes[i].user == user
        && w.store[user] == Entry(c.codec.dumps(w.writes[i].roles), w.writes[i].at + c.ttl);
      NamesAreKept(c.py, w.writes[i].roles);
    }
  }

  lemma StoreKeepsInv(c: Config, w: World, e: Step)
    requires Inv(c, w) && Enabled(w, e) && e.Store?
    ensures Inv(c, Apply(c, w, e))
  {
    hide Recent, WrittenBy;
    var t := w.tasks[e.id];
    var after := Apply(c, w, e);
    assert TaskInv(c, w.writes, t);
    MoreWrites(c, w.writes, after.writes);
    if Stored(c, e.effect) {
      Newest(c, w.writes, Write(e.id, t.user, t.roles, t.source, e.at));
    }
  }

  lemma Newest(c: Config, writes: seq<Write>, x: Write)
    ensures WrittenBy(c, writes + [x], x.user, Entry(c.codec.dumps(x.roles), x.at + c.ttl))
  {
    assert (writes + [x])[|writes|] == x;
  }

  lemma StepKeepsInv(c: Config, w: World, e: Step)
    requires c.codec.Valid() && Inv(c, w) && Enabled(w, e)
    ensures Inv(c, Apply(c, w, e))
  {
    if e.Store? {
      StoreKeepsInv(c, w, e);
    } else {
      hide Recent, WrittenBy;
      if e.Start? {
        HitIsRecent(c, w, e.user, e.at, e.readable);
      }
    }
  }

  lemma {:induction false} RunInv(c: Config, states: seq<World>, steps: seq<Step>, n: nat)
    requires c.codec.Valid() && Run(c, states, steps) && n < |states|
    ensures Inv(c, states[n])
  {
    assert Inv(c, World(map[], map[], 0, []));
    hide Apply, Inv;
    if n > 0 {
      RunInv(c, states, steps, n - 1);
      StepKeepsInv(c, states[n - 1], steps[n - 1]);
    }
  }
}
