/** The cache of token-signing keys: fetched on demand, at a bounded rate. */
module Jwks {
  import opened Prelude
  import opened Json
  import Division

  /** Keys by `kid`. A boolean kid is the number it equals. */
  type Keys = map<Value, Value>

  /** The key a truthy `kid` is stored under; None when it cannot be a dictionary key. */
  function DictKey(kid: Value): Option<Value> {
    match kid
    case Bool(b) => Some(Int(if b then 1 else 0))
    case Arr(_) => None
    case Obj(_) => None
    case _ => Some(kid)
  }

  /** Whether handling the entry raises. */
  predicate Malformed(entry: Value) {
    !entry.Obj? || (Truthy(Get(entry.members, "kid")) && DictKey(Get(entry.members, "kid")).None?)
  }

  predicate HasKid(entry: Value, kid: Value) {
    !Malformed(entry) && Truthy(Get(entry.members, "kid")) && DictKey(Get(entry.members, "kid")) == Some(kid)
  }

  /** The entries of a key-set document; None when taking or iterating them raises. */
  function Entries(body: Value): Option<seq<Value>> {
    if !body.Obj? then None
    else if "keys" !in body.members then Some([])
    else match body.members["keys"]
      case Arr(items) => Some(items)
      case Str(s) => if s == "" then Some([]) else None
      case Obj(m) => if m == map[] then Some([]) else None
      case _ => None
  }

  function Collect(entries: seq<Value>): Option<Keys> {
    if entries == [] then Some(map[])
    else
      var before, entry := Collect(entries[..|entries| - 1]), entries[|entries| - 1];
      if before.None? || Malformed(entry) then None
      else
        var kid := Get(entry.members, "kid");
        if Truthy(kid) then Some(before.value[DictKey(kid).value := entry]) else before
  }

  function Parsed(body: Value): Option<Keys> {
    var entries := Entries(body);
    if entries.None? then None else Collect(entries.value)
  }

  /** The last of the entries with this kid. */
  ghost predicate IsLastWithKid(entries: seq<Value>, kid: Value, entry: Value) {
    exists i :: 0 <= i < |entries| && entries[i] == entry && HasKid(entry, kid)
      && forall j | i < j < |entries| :: !HasKid(entries[j], kid)
  }

  /** Every kid that occurs maps to its last entry; one malformed entry spoils the document. */
  lemma {:induction false} CollectHolds(entries: seq<Value>)
    ensures Collect(entries).None? <==> exists e :: e in entries && Malformed(e)
    ensures Collect(entries).Some? ==> forall k ::
      && (k in Collect(entries).value <==> exists e :: e in entries && HasKid(e, k))
      && (k in Collect(entries).value ==> IsLastWithKid(entries, k, Collect(entries).value[k]))
  {
    if entries != [] {
      var init, last := entries[..|entries| - 1], entries[|entries| - 1];
      assert entries == init + [last];
      CollectHolds(init);
      if Collect(entries).Some? {
        var keys := Collect(entries).value;
        forall k
          ensures k in keys <==> exists e :: e in entries && HasKid(e, k)
          ensures k in keys ==> IsLastWithKid(entries, k, keys[k])
        {
          CollectStep(init, last, k);
        }
      }
    }
  }

  lemma CollectStep(init: seq<Value>, last: Value, k: Value)
    requires Collect(init + [last]).Some? && Collect(init).Some?
    requires k in Collect(init).value <==> exists e :: e in init && HasKid(e, k)
    requires k in Collect(init).value ==> IsLastWithKid(init, k, Collect(init).value[k])
    ensures var entries := init + [last]; var keys := Collect(entries).value;
      && (k in keys <==> exists e :: e in entries && HasKid(e, k))
      && (k in keys ==> IsLastWithKid(entries, k, keys[k]))
  {
    var entries := init + [last];
    assert entries[..|entries| - 1] == init;
    if HasKid(last, k) {
      assert entries[|init|] == last;
    } else if k in Collect(init).value {
      var entry := Collect(init).value[k];
      var i :| 0 <= i < |init| && init[i] == entry && HasKid(entry, k)
        && forall j | i < j < |init| :: !HasKid(init[j], k);
      assert entries[i] == entry;
    }
  }

  // ---------- One call ----------

  /** `Failed` covers transport errors, error statuses and bodies that are not JSON. */
  datatype Fetch = Failed | Body(v: Value)

  /** A fetch with the clock when it starts and when its keys would be installed. */
  datatype Attempt = Attempt(at: int, outcome: Fetch, done: int)

  datatype Config = Config(ttl: int, cooldown: int)

  datatype State = State(keys: Keys, fetchedAt: int, lastAttempt: int)

  datatype Answer = Returned(key: Value) | NotFound | Raised

  const Initial := State(map[], 0, 0)

  /** A fetch that brings keys. */
  predicate Good(a: Attempt) {
    a.outcome.Body? && Parsed(a.outcome.v).Some? && Parsed(a.outcome.v).value != map[]
  }

  predicate Raises(a: Attempt) {
    a.outcome.Body? && Parsed(a.outcome.v).None?
  }

  function Refreshed(s: State, a: Attempt): State {
    if Good(a) then State(Parsed(a.outcome.v).value, a.done, a.at) else s.(lastAttempt := a.at)
  }

  predicate Stale(c: Config, s: State, now: int) {
    s.keys == map[] || now - s.fetchedAt > c.ttl
  }

  predicate MayRetry(c: Config, s: State, now: int) {
    now - s.lastAttempt > c.cooldown
  }

  /** A call of `get` at time `now`; the attempts are what its fetches meet, if it makes any. */
  datatype Request = Request(kid: string, now: int, first: Attempt, second: Attempt)

  datatype Outcome = Outcome(state: State, answer: Answer, made: seq<Attempt>)

  function Found(s: State, kid: string): Answer {
    if Str(kid) in s.keys then Returned(s.keys[Str(kid)]) else NotFound
  }

  function LastTry(s: State, r: Request, a: Attempt, made: seq<Attempt>): Outcome {
    var after := Refreshed(s, a);
    Outcome(after, if Raises(a) then Raised else Found(after, r.kid), made + [a])
  }

  /** `get`. */
  function Step(c: Config, s: State, r: Request): Outcome {
    if Stale(c, s, r.now) then
      var after := Refreshed(s, r.first);
      if Raises(r.first) then Outcome(after, Raised, [r.first])
      else if Str(r.kid) !in after.keys && MayRetry(c, after, r.now) then LastTry(after, r, r.second, [r.first])
      else Outcome(after, Found(after, r.kid), [r.first])
    else if Str(r.kid) !in s.keys && MayRetry(c, s, r.now) then LastTry(s, r, r.first, [])
    else Outcome(s, Found(s, r.kid), [])
  }

  /** The keys are missing or too old. */
  predicate Expired(c: Config, s: State, now: int) {
    s.keys == map[] || now > s.fetchedAt + c.ttl
  }

  /** The kid is not there and the last attempt is more than the cooldown ago. */
  predicate WorthRetrying(c: Config, s: State, kid: string, now: int) {
    Str(kid) !in s.keys && now > s.lastAttempt + c.cooldown
  }

  /** When a call fetches, and what it answers. It fetches first exactly when the keys are missing or
      expired; then, unless that raised, exactly when the kid is still missing and the cooldown is
      over. If no fetch raises it answers with the key the cache then holds for the kid, whichever
      fetch brought it, and with none exactly when there is none. */
  lemma LookupMeans(c: Config, s: State, r: Request)
    ensures var x := Step(c, s, r);
      var first := if Expired(c, s, r.now) then [r.first] else [];
      var mid := if Expired(c, s, r.now) then Refreshed(s, r.first) else s;
      var next := if Expired(c, s, r.now) then r.second else r.first;
      var again := !(Expired(c, s, r.now) && Raises(r.first)) && WorthRetrying(c, mid, r.kid, r.now);
      && x.made == first + (if again then [next] else [])
      && x.state == (if again then Refreshed(mid, next) else mid)
      && (x.answer == Raised <==> exists a :: a in x.made && Raises(a))
      && ((forall a | a in x.made :: !Raises(a)) ==>
            && (Str(r.kid) in x.state.keys ==> x.answer == Returned(x.state.keys[Str(r.kid)]))
            && (x.answer == NotFound <==> Str(r.kid) !in x.state.keys))
  {
    hide Raises, Refreshed, Good, Parsed;
  }

  /** What one fetch does: it sets the time of the last attempt; it replaces the keys, and the time
      they are from, exactly when its document is one and holds a key. */
  lemma RefreshMeans(s: State, a: Attempt)
    ensures var t := Refreshed(s, a);
      && t.lastAttempt == a.at
      && (a.outcome.Failed? ==> t.keys == s.keys && t.fetchedAt == s.fetchedAt && !Raises(a))
      && (a.outcome.Body? ==> Raises(a) == Parsed(a.outcome.v).None?)
      && (a.outcome.Body? && Parsed(a.outcome.v).Some? && Parsed(a.outcome.v).value != map[] ==>
            t.keys == Parsed(a.outcome.v).value && t.fetchedAt == a.done)
      && (Raises(a) || (a.outcome.Body? && Parsed(a.outcome.v) == Some(map[])) ==>
            t.keys == s.keys && t.fetchedAt == s.fetchedAt)
  {
    hide Parsed;
  }

  /** A document that lists objects is read entry by entry: every truthy text kid is found, with the
      last of its entries. */
  lemma DocumentMeans(m: map<string, Value>, kid: string)
    requires "keys" in m && m["keys"].Arr? && forall e | e in m["keys"].items :: e.Obj?
    requires forall e | e in m["keys"].items :: Get(e.members, "kid").Str?
    ensures var entries, keys := m["keys"].items, Parsed(Obj(m));
      && keys.Some?
      && (Str(kid) in keys.value <==> kid != "" && exists e :: e in entries && Get(e.members, "kid") == Str(kid))
      && (Str(kid) in keys.value ==>
            exists i :: 0 <= i < |entries| && entries[i] == keys.value[Str(kid)] && Get(entries[i].members, "kid") == Str(kid)
              && forall j | i < j < |entries| :: Get(entries[j].members, "kid") != Str(kid))
  {
    hide Collect;
    var entries := m["keys"].items;
    CollectHolds(entries);
    if Str(kid) in Collect(entries).value {
      assert IsLastWithKid(entries, Str(kid), Collect(entries).value[Str(kid)]);
    }
    if exists e :: e in entries && Get(e.members, "kid") == Str(kid) {
      var e :| e in entries && Get(e.members, "kid") == Str(kid);
      assert kid != "" ==> HasKid(e, Str(kid));
    }
  }

  /** An entry that cannot be handled: no object, or with a list or an object, not empty, for a kid. */
  predicate Unusable(entry: Value) {
    || !entry.Obj?
    || ("kid" in entry.members
        && var kid := entry.members["kid"]; (kid.Arr? && kid.items != []) || (kid.Obj? && kid.members != map[]))
  }

  /** Which documents raise: those that are no object, and those whose `keys` cannot be iterated, or
      hold an entry that cannot be handled. One without `keys` holds none. */
  lemma DocumentRaises(body: Value)
    ensures Parsed(body).None? <==>
      || !body.Obj?
      || ("keys" in body.members
          && var keys := body.members["keys"];
             || keys.Null? || keys.Bool? || keys.Int? || (keys.Str? && keys.s != "") || (keys.Obj? && keys.members != map[])
             || (keys.Arr? && exists e :: e in keys.items && Unusable(e)))
    ensures body.Obj? && "keys" !in body.members ==> Parsed(body) == Some(map[])
  {
    if body.Obj? && "keys" in body.members && body.members["keys"].Arr? {
      CollectHolds(body.members["keys"].items);
      UnusableIsMalformed(body.members["keys"].items);
      hide Collect, Unusable, Malformed;
    }
  }

  lemma UnusableIsMalformed(entries: seq<Value>)
    ensures (exists e :: e in entries && Unusable(e)) <==> exists e :: e in entries && Malformed(e)
  {
    forall e ensures Unusable(e) <==> Malformed(e) {}
  }

  class JwksCache {
    const config: Config
    var keys: Keys
    var fetchedAt: int
    var lastAttempt: int

    constructor (config: Config)
      ensures this.config == config && Contents() == Initial
    {
      this.config := config;
      keys, fetchedAt, lastAttempt := map[], 0, 0;
    }

    ghost function Contents(): State
      reads this
    {
      State(keys, fetchedAt, lastAttempt)
    }

    method Refresh(a: Attempt) returns (raised: bool)
      modifies this
      ensures Contents() == Refreshed(old(Contents()), a)
      ensures raised == Raises(a)
    {
      lastAttempt := a.at;
      if a.outcome.Failed? {
        return false;
      }
      var entries := Entries(a.outcome.v);
      if entries.None? {
        return true;
      }
      var fetched: Keys := map[];
      var i := 0;
      while i < |entries.value|
        invariant 0 <= i <= |entries.value|
        invariant Collect(entries.value[..i]) == Some(fetched)
        invariant Contents() == old(Contents()).(lastAttempt := a.at)
      {
        var entry := entries.value[i];
        assert entries.value[..i + 1][..i] == entries.value[..i];
        if Malformed(entry) {
          SpoiltDocument(entries.value, i);
          return true;
        }
        var kid := Get(entry.members, "kid");
        if Truthy(kid) {
          fetched := fetched[DictKey(kid).value := entry];
        }
        i := i + 1;
      }
      assert entries.value[..i] == entries.value;
      if fetched != map[] {
        keys := fetched;
        fetchedAt := a.done;
      }
      return false;
    }

    method Lookup(r: Request) returns (answer: Answer, made: seq<Attempt>)
      modifies this
      ensures Outcome(Contents(), answer, made) == Step(config, old(Contents()), r)
    {
      hide Parsed, Raises, Good;
      made := [];
      var next := r.first;
      if keys == map[] || r.now - fetchedAt > config.ttl {
        made := made + [next];
        var raised := Refresh(next);
        if raised {
          return Raised, made;
        }
        next := r.second;
      }
      if Str(r.kid) in keys {
        return Returned(keys[Str(r.kid)]), made;
      }
      if r.now - lastAttempt > config.cooldown {
        made := made + [next];
        var raised := Refresh(next);
        if raised {
          return Raised, made;
        }
      }
      if Str(r.kid) !in keys {
        return NotFound, made;
      }
      return Returned(keys[Str(r.kid)]), made;
    }
  }

  lemma SpoiltDocument(entries: seq<Value>, i: nat)
    requires i < |entries| && Malformed(entries[i])
    ensures Collect(entries).None?
  {
  }

  // ---------- Sequential runs ----------

  /** The clock does not run backwards within a call. */
  predicate Timed(r: Request) {
    r.now <= r.first.at <= r.first.done <= r.second.at <= r.second.done
  }

  /** Calls one after the other. */
  ghost predicate Sequential(requests: seq<Request>) {
    && (forall i | 0 <= i < |requests| :: Timed(requests[i]))
    && (forall i, j | 0 <= i < j < |requests| :: requests[i].second.done <= requests[j].now)
  }

  function After(c: Config, requests: seq<Request>): State {
    if requests == [] then Initial
    else Step(c, After(c, requests[..|requests| - 1]), requests[|requests| - 1]).state
  }

  /** All fetches of the run, in order. */
  function Fetches(c: Config, requests: seq<Request>): seq<Attempt> {
    if requests == [] then []
    else Fetches(c, requests[..|requests| - 1])
         + Step(c, After(c, requests[..|requests| - 1]), requests[|requests| - 1]).made
  }

  /** A call fetches twice only under a negative cooldown: the second condition compares the
      clock reading taken before the first fetch with that fetch's later one. */
  lemma OneFetchPerCall(c: Config, s: State, r: Request)
    requires Timed(r)
    ensures |Step(c, s, r).made| <= 2
    ensures |Step(c, s, r).made| == 2 ==> c.cooldown < r.now - r.first.at <= 0
  {
  }

  lemma CooldownBoundsFetches(c: Config)
    ensures c.cooldown >= 0 <==> forall s, r | Timed(r) :: |Step(c, s, r).made| <= 1
  {
    if c.cooldown < 0 {
      var a := Attempt(0, Failed, 0);
      var r := Request("", 0, a, a);
      assert Timed(r);
      assert |Step(c, Initial, r).made| == 2;
    } else {
      forall s, r | Timed(r) ensures |Step(c, s, r).made| <= 1 {
        OneFetchPerCall(c, s, r);
      }
    }
  }

  /** The last fetch that brought keys. */
  function LatestGood(made: seq<Attempt>): Option<Attempt> {
    if made == [] then None
    else if Good(made[|made| - 1]) then Some(made[|made| - 1])
    else LatestGood(made[..|made| - 1])
  }

  /** The cache is what its fetches so far say. */
  ghost predicate Reflects(s: State, made: seq<Attempt>) {
    && (made == [] ==> s.lastAttempt == 0)
    && (made != [] ==> s.lastAttempt == made[|made| - 1].at)
    && (match LatestGood(made)
        case None => s.keys == map[] && s.fetchedAt == 0
        case Some(a) => Good(a) && s.keys == Parsed(a.outcome.v).value && s.fetchedAt == a.done)
  }

  lemma RefreshReflects(s: State, made: seq<Attempt>, a: Attempt)
    requires Reflects(s, made)
    ensures Reflects(Refreshed(s, a), made + [a])
  {
  }

  lemma StepReflects(c: Config, s: State, made: seq<Attempt>, r: Request)
    requires Reflects(s, made)
    ensures Reflects(Step(c, s, r).state, made + Step(c, s, r).made)
  {
    hide Reflects, Good, Raises, Refreshed, Parsed;
    var more := Step(c, s, r).made;
    if more == [] {
      assert made + more == made;
    } else {
      RefreshReflects(s, made, r.first);
      if |more| == 2 {
        RefreshReflects(Refreshed(s, r.first), made + [r.first], r.second);
        assert made + more == made + [r.first] + [r.second];
      } else {
        assert more == [r.first];
      }
    }
  }

  lemma {:induction false} RunReflects(c: Config, requests: seq<Request>)
    ensures Reflects(After(c, requests), Fetches(c, requests))
  {
    hide Step;
    if requests != [] {
      var n := |requests| - 1;
      RunReflects(c, requests[..n]);
      StepReflects(c, After(c, requests[..n]), Fetches(c, requests[..n]), requests[n]);
    }
  }

  /** Every returned key has the requested kid and comes from the latest fetch that brought
      keys, where it is the last entry with that kid. */
  lemma ReturnedKeyIsLatest(c: Config, requests: seq<Request>)
    requires requests != []
    ensures var n := |requests| - 1;
      var answer := Step(c, After(c, requests[..n]), requests[n]).answer;
      answer.Returned? ==>
        var good := LatestGood(Fetches(c, requests));
        && good.Some? && Good(good.value)
        && IsLastWithKid(Entries(good.value.outcome.v).value, Str(requests[n].kid), answer.key)
  {
    var n := |requests| - 1;
    var answer := Step(c, After(c, requests[..n]), requests[n]).answer;
    RunReflects(c, requests);
    if answer.Returned? {
      var good := LatestGood(Fetches(c, requests)).value;
      assert Parsed(good.outcome.v) == Collect(Entries(good.outcome.v).value);
      hide Good, Refreshed;
      assert answer == Found(After(c, requests), requests[n].kid);
      CollectHolds(Entries(good.outcome.v).value);
    }
  }

  lemma StepKeepsKeys(c: Config, s: State, r: Request)
    requires s.keys != map[]
    ensures Step(c, s, r).state.keys != map[]
  {
  }

  /** Once there are keys there are keys, whatever fails later. */
  lemma {:induction false} KeysStay(c: Config, requests: seq<Request>, n: nat)
    requires n <= |requests| && After(c, requests[..n]).keys != map[]
    ensures After(c, requests).keys != map[]
    decreases |requests|
  {
    hide Step;
    if n < |requests| {
      var m := |requests| - 1;
      assert requests[..m][..n] == requests[..n];
      KeysStay(c, requests[..m], n);
      StepKeepsKeys(c, After(c, requests[..m]), requests[m]);
    } else {
      assert requests[..n] == requests;
    }
  }

  // ---------- Fetch rate ----------

  /** From call n on, every call finds keys that have not expired. */
  ghost predicate WarmFrom(c: Config, requests: seq<Request>, n: nat) {
    forall i | n <= i < |requests| :: !Stale(c, After(c, requests[..i]), requests[i].now)
  }

  /** While keys are warm, each fetch starts more than the cooldown after the one before it. */
  lemma {:induction false} WarmFetchesAreSpaced(c: Config, requests: seq<Request>, n: nat, k: nat)
    requires Sequential(requests) && n <= |requests| && WarmFrom(c, requests, n)
    requires 0 < k < |Fetches(c, requests)| && k >= |Fetches(c, requests[..n])|
    ensures Fetches(c, requests)[k].at - Fetches(c, requests)[k - 1].at > c.cooldown
    decreases |requests|
  {
    hide Step, LatestGood, After, Fetches, WarmFrom, Reflects, Sequential;
    WholeRun(requests);
    if n < |requests| {
      var m := |requests| - 1;
      var before := requests[..m];
      assert before[..n] == requests[..n];
      WarmPrefix(c, requests, n);
      LastFetches(c, requests, n);
      if k < |Fetches(c, before)| {
        WarmFetchesAreSpaced(c, before, n, k);
      } else {
        LastAttemptIsKept(c, before);
      }
    }
  }

  lemma WholeRun(requests: seq<Request>)
    ensures requests[..|requests|] == requests
  {
  }

  lemma WarmPrefix(c: Config, requests: seq<Request>, n: nat)
    requires n < |requests| && Sequential(requests) && WarmFrom(c, requests, n)
    ensures var before := requests[..|requests| - 1];
      Sequential(before) && WarmFrom(c, before, n)
  {
    hide After, Stale;
    var before := requests[..|requests| - 1];
    forall i | n <= i < |before| ensures !Stale(c, After(c, before[..i]), before[i].now) {
      assert before[..i] == requests[..i];
    }
  }

  lemma LastFetches(c: Config, requests: seq<Request>, n: nat)
    requires n < |requests| && Sequential(requests) && WarmFrom(c, requests, n)
    ensures var before := requests[..|requests| - 1];
      var more := Fetches(c, requests)[|Fetches(c, before)|..];
      && |Fetches(c, before)| <= |Fetches(c, requests)| <= |Fetches(c, before)| + 1
      && Fetches(c, requests)[..|Fetches(c, before)|] == Fetches(c, before)
      && (more != [] ==> more[0].at - After(c, before).lastAttempt > c.cooldown)
  {
  }

  lemma LastAttemptIsKept(c: Config, requests: seq<Request>)
    requires Fetches(c, requests) != []
    ensures After(c, requests).lastAttempt == Fetches(c, requests)[|Fetches(c, requests)| - 1].at
  {
    RunReflects(c, requests);
  }

  lemma {:induction false} SpacingAddsUp(made: seq<Attempt>, cooldown: nat)
    requires made != [] && forall k | 0 < k < |made| :: made[k].at - made[k - 1].at > cooldown
    ensures (|made| - 1) * cooldown <= made[|made| - 1].at - made[0].at
  {
    if |made| > 1 {
      var n := |made| - 1;
      SpacingAddsUp(made[..n], cooldown);
      assert (|made| - 1) * cooldown == (n - 1) * cooldown + cooldown;
    }
  }

  /** While keys are warm, a window of length w sees at most floor(w / cooldown) + 1 fetches. */
  lemma WarmFetchRate(c: Config, requests: seq<Request>, n: nat, from: nat, until: nat, w: nat)
    requires c.cooldown > 0 && Sequential(requests) && n <= |requests| && WarmFrom(c, requests, n)
    requires |Fetches(c, requests[..n])| <= from < until <= |Fetches(c, requests)|
    requires Fetches(c, requests)[until - 1].at - Fetches(c, requests)[from].at <= w
    ensures until - from <= w / c.cooldown + 1
  {
    hide Fetches, Sequential, WarmFrom;
    var made := Fetches(c, requests)[from..until];
    forall k | 0 < k < |made| ensures made[k].at - made[k - 1].at > c.cooldown {
      WarmFetchesAreSpaced(c, requests, n, from + k);
    }
    SpacingAddsUp(made, c.cooldown);
    Division.Quotient(w, until - from - 1, c.cooldown);
  }
}
