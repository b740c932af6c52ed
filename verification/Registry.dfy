/** Listing and looking up tools for one principal. */
module Registry {
  import opened Prelude
  import opened ToolCache

  /** Roles and customer code of a caller; None and the empty code mean no code. */
  datatype Principal = Principal(roles: seq<string>, customerCode: Option<string>) {
    function RoleSet(): set<string> {
      set r | r in roles
    }

    predicate HasCode() {
      customerCode.Some? && customerCode.value != ""
    }

    predicate Anonymous() {
      RoleSet() == {} && !HasCode()
    }
  }

  /** Granted by a role or by the customer code. */
  predicate Visible(t: ToolView, p: Principal) {
    t.roles * p.RoleSet() != {} || (p.HasCode() && p.customerCode.value in t.customerCodes)
  }

  function Filter(views: seq<ToolView>, p: Principal): seq<ToolView> {
    if views == [] then []
    else if Visible(views[0], p) then [views[0]] + Filter(views[1..], p)
    else Filter(views[1..], p)
  }

  /** `list_for_principal` on a snapshot. */
  function List(views: seq<ToolView>, p: Principal): seq<ToolView> {
    if p.Anonymous() then [] else Filter(views, p)
  }

  /** `find_authorized_for_principal` on the snapshot's index. */
  function Find(byName: map<string, ToolView>, name: string, p: Principal): Option<ToolView> {
    if p.Anonymous() then None
    else if name !in byName then None
    else if Visible(byName[name], p) then Some(byName[name])
    else None
  }

  lemma {:induction false} FilterHolds(views: seq<ToolView>, p: Principal)
    ensures forall t :: t in Filter(views, p) <==> t in views && Visible(t, p)
  {
    if views != [] {
      FilterHolds(views[1..], p);
      assert views == [views[0]] + views[1..];
    }
  }

  /** The early return for a caller without roles and code hides nothing: nothing is visible. */
  lemma AnonymousSeesNothing(views: seq<ToolView>, p: Principal)
    ensures List(views, p) == Filter(views, p)
  {
  }

  /** What the listing contains. */
  lemma ListHolds(views: seq<ToolView>, p: Principal)
    ensures forall t :: t in List(views, p) <==> t in views && Visible(t, p)
  {
    AnonymousSeesNothing(views, p);
    FilterHolds(views, p);
  }

  /** A lookup by name succeeds exactly when a tool of that name is in the listing for the same
      principal, and finds that tool. */
  lemma FindAgreesWithList(views: seq<ToolView>, name: string, p: Principal)
    requires UniqueNames(views)
    ensures var found := Find(Index(views), name, p);
      && (found.Some? <==> exists t :: t in List(views, p) && t.name == name)
      && (found.Some? ==> found.value in List(views, p) && found.value.name == name)
  {
    IndexFinds(views);
    ListHolds(views, p);
    if t :| t in List(views, p) && t.name == name {
      assert Index(views)[name] == t;
    }
  }

  /** Positions in the snapshot of the tools in the listing. */
  ghost predicate Positions(views: seq<ToolView>, listed: seq<ToolView>, at: seq<nat>) {
    && |at| == |listed|
    && (forall i | 0 <= i < |at| :: at[i] < |views| && views[at[i]] == listed[i])
    && (forall i, j | 0 <= i < j < |at| :: at[i] < at[j])
  }

  /** The listing is an order-preserving subsequence of the snapshot. */
  lemma {:induction false} FilterKeepsOrder(views: seq<ToolView>, p: Principal) returns (at: seq<nat>)
    ensures Positions(views, Filter(views, p), at) && Covers(views, p, at)
  {
    hide Visible, Positions, Covers;
    if views == [] {
      at := [];
      assert Positions(views, [], at) && Covers(views, p, at) by { NoPositions(p); }
    } else {
      var later := FilterKeepsOrder(views[1..], p);
      var shifted := seq(|later|, i requires 0 <= i < |later| => later[i] + 1);
      at := if Visible(views[0], p) then [0] + shifted else shifted;
      ShiftedCovers(views, p, later, shifted);
      ShiftedPositions(views, Filter(views[1..], p), later, shifted);
    }
  }

  lemma NoPositions(p: Principal)
    ensures Positions([], [], []) && Covers([], p, [])
  {
  }

  lemma ShiftedPositions(views: seq<ToolView>, listed: seq<ToolView>, later: seq<nat>, shifted: seq<nat>)
    requires views != [] && Positions(views[1..], listed, later)
    requires |shifted| == |later| && forall k | 0 <= k < |later| :: shifted[k] == later[k] + 1
    ensures Positions(views, listed, shifted) && Positions(views, [views[0]] + listed, [0] + shifted)
  {
  }

  /** No visible position is missing. */
  ghost predicate Covers(views: seq<ToolView>, p: Principal, at: seq<nat>) {
    forall i: nat | i < |views| && Visible(views[i], p) :: i in at
  }

  lemma ShiftedCovers(views: seq<ToolView>, p: Principal, later: seq<nat>, shifted: seq<nat>)
    requires views != [] && Covers(views[1..], p, later)
    requires |shifted| == |later| && forall k | 0 <= k < |later| :: shifted[k] == later[k] + 1
    ensures Covers(views, p, if Visible(views[0], p) then [0] + shifted else shifted)
  {
    hide Visible;
    forall i: nat | 0 < i < |views| && Visible(views[i], p) ensures i in shifted {
      assert views[1..][i - 1] == views[i];
      var k :| 0 <= k < |later| && later[k] == i - 1;
      assert shifted[k] == i;
    }
  }

  lemma ListKeepsOrder(views: seq<ToolView>, p: Principal) returns (at: seq<nat>)
    ensures Positions(views, List(views, p), at)
  {
    AnonymousSeesNothing(views, p);
    at := FilterKeepsOrder(views, p);
  }

  /** For a caller with roles and a code, the listing is the union of what each alone lists. */
  lemma ListIsUnion(views: seq<ToolView>, roles: seq<string>, code: Option<string>)
    ensures forall t ::
      (t in List(views, Principal(roles, code))
       <==> t in List(views, Principal(roles, None)) || t in List(views, Principal([], code)))
  {
    ListHolds(views, Principal(roles, code));
    ListHolds(views, Principal(roles, None));
    ListHolds(views, Principal([], code));
  }

  // ---------- The rows of the table ----------

  /** The row is granted to one of the caller's roles, or to the caller's customer code. */
  ghost predicate Granted(t: ToolRow, p: Principal) {
    || (exists role :: role in p.roles && role in t.grants)
    || (p.customerCode.Some? && p.customerCode.value != "" && p.customerCode.value in t.customerGrants)
  }

  lemma VisibleIffGranted(v: ToolView, t: ToolRow, p: Principal)
    requires Describes(v, t)
    ensures Visible(v, p) <==> Granted(t, p)
  {
    if Visible(v, p) && v.roles * p.RoleSet() != {} {
      var role :| role in v.roles * p.RoleSet();
      assert role in p.roles && role in t.grants;
    }
    if role :| role in p.roles && role in t.grants {
      assert role in v.roles * p.RoleSet();
    }
  }

  /** The listing has one entry for each granted row, in the order of the rows. */
  ghost predicate ListsRows(rows: seq<ToolRow>, p: Principal, listed: seq<ToolView>) {
    exists at: seq<nat> :: ListsRowsAt(rows, p, listed, at)
  }

  ghost predicate ListsRowsAt(rows: seq<ToolRow>, p: Principal, listed: seq<ToolView>, at: seq<nat>) {
    && |at| == |listed|
    && (forall k | 0 <= k < |at| :: at[k] < |rows| && Granted(rows[at[k]], p) && Describes(listed[k], rows[at[k]]))
    && (forall k, l | 0 <= k < l < |at| :: at[k] < at[l])
    && (forall i: nat | i < |rows| && Granted(rows[i], p) :: i in at)
  }

  /** Of views that show the rows, exactly the granted ones are listed. */
  lemma ListedAreGranted(views: seq<ToolView>, rows: seq<ToolRow>, p: Principal)
    requires Shows(views, rows)
    ensures ListsRows(rows, p, List(views, p))
  {
    hide Describes, Visible, Granted, Filter, Principal.Anonymous;
    AnonymousSeesNothing(views, p);
    FilterHolds(views, p);
    var at := FilterKeepsOrder(views, p);
    forall i | 0 <= i < |rows| ensures Visible(views[i], p) <==> Granted(rows[i], p) {
      VisibleIffGranted(views[i], rows[i], p);
    }
    assert ListsRowsAt(rows, p, Filter(views, p), at);
  }

  ghost predicate UniqueRows(rows: seq<ToolRow>) {
    forall i, j | 0 <= i < j < |rows| :: rows[i].name != rows[j].name
  }

  /** The lookup's answer, from the rows: the row of that name, if there is one and it is granted. */
  ghost predicate FindsRow(rows: seq<ToolRow>, name: string, p: Principal, found: Option<ToolView>) {
    && (found.Some? <==> exists t :: t in rows && t.name == name && Granted(t, p))
    && (found.Some? ==> exists t :: t in rows && t.name == name && Granted(t, p) && Describes(found.value, t))
  }

  lemma FoundIsGranted(views: seq<ToolView>, rows: seq<ToolRow>, name: string, p: Principal)
    requires Shows(views, rows) && UniqueRows(rows)
    ensures UniqueNames(views) && FindsRow(rows, name, p, Find(Index(views), name, p))
  {
    hide Visible, Granted;
    IndexFinds(views);
    AnonymousHasNoGrant(rows, p);
    assert forall i | 0 <= i < |rows| :: Describes(views[i], rows[i]) && views[i] in views;
    forall i | 0 <= i < |rows| ensures Visible(views[i], p) <==> Granted(rows[i], p) {
      VisibleIffGranted(views[i], rows[i], p);
    }
  }

  lemma AnonymousHasNoGrant(rows: seq<ToolRow>, p: Principal)
    ensures p.Anonymous() ==> forall t :: !Granted(t, p)
  {
    if p.Anonymous() {
      assert forall r | r in p.roles :: r in p.RoleSet();
    }
  }

  // ---------- The service object ----------

  /** The registry over its cache, without competition for the cache's lock. `rows` is what the
      loader would answer, None when it raises; `later` is the clock after loading. */
  class ToolRegistry {
    const cache: Cache

    constructor (cache: Cache)
      ensures this.cache == cache
    {
      this.cache := cache;
    }

    /** None when the refresh raises; then the listing is not answered at all. */
    method ListForPrincipal(p: Principal, now: int, rows: Option<seq<ToolRow>>, later: int)
      returns (listed: Option<seq<ToolView>>)
      requires cache.Valid()
      modifies cache`tools, cache`byName, cache`loadedAt
      ensures cache.Valid()
      ensures listed.Some? <==> old(cache.IsFresh(now)) || rows.Some?
      ensures listed.Some? ==> forall t ::
        (t in listed.value
         <==> Visible(t, p) && t in (if old(cache.IsFresh(now)) then old(cache.tools) else Views(rows.value)))
      ensures listed.Some? ==> listed.value == List(cache.tools, p)
      ensures !old(cache.IsFresh(now)) && rows.Some? ==> Shows(cache.tools, rows.value)
      ensures listed.Some? ==> forall loaded | Shows(cache.tools, loaded) :: ListsRows(loaded, p, listed.value)
      ensures listed.Some? && !old(cache.IsFresh(now)) ==> ListsRows(rows.value, p, listed.value)
    {
      var ok := cache.EnsureFresh(now, rows, later);
      if !ok {
        return None;
      }
      forall loaded | Shows(cache.tools, loaded) ensures ListsRows(loaded, p, List(cache.tools, p)) {
        ListedAreGranted(cache.tools, loaded, p);
      }
      ListHolds(cache.tools, p);
      if p.RoleSet() == {} && !p.HasCode() {
        return Some([]);
      }
      return Some(Filter(cache.tools, p));
    }

    /** Err when the refresh raises; else the tool of that name in the caller's listing, if any. */
    method FindAuthorized(name: string, p: Principal, now: int, rows: Option<seq<ToolRow>>, later: int)
      returns (found: Result<Option<ToolView>, ()>)
      requires cache.Valid()
      requires UniqueNames(cache.tools) && (rows.Some? ==> UniqueNames(Views(rows.value)))
      modifies cache`tools, cache`byName, cache`loadedAt
      ensures cache.Valid() && UniqueNames(cache.tools)
      ensures found.Ok? <==> old(cache.IsFresh(now)) || rows.Some?
      ensures found.Ok? ==> found.value == Find(cache.byName, name, p)
      ensures found.Ok? ==> (found.value.Some? <==> exists t :: t in List(cache.tools, p) && t.name == name)
      ensures found.Ok? && found.value.Some? ==> found.value.value in List(cache.tools, p)
      ensures !old(cache.IsFresh(now)) && rows.Some? ==> Shows(cache.tools, rows.value)
      ensures found.Ok? ==> forall loaded | Shows(cache.tools, loaded) && UniqueRows(loaded) ::
        FindsRow(loaded, name, p, found.value)
      ensures found.Ok? && !old(cache.IsFresh(now)) && UniqueRows(rows.value) ==> FindsRow(rows.value, name, p, found.value)
    {
      var ok := cache.EnsureFresh(now, rows, later);
      if !ok {
        return Err(());
      }
      forall loaded | Shows(cache.tools, loaded) && UniqueRows(loaded)
        ensures FindsRow(loaded, name, p, Find(cache.byName, name, p))
      {
        FoundIsGranted(cache.tools, loaded, name, p);
      }
      FindAgreesWithList(cache.tools, name, p);
      if p.RoleSet() == {} && !p.HasCode() {
        return Ok(None);
      }
      if name !in cache.byName {
        return Ok(None);
      }
      var view := cache.byName[name];
      var roleHit := p.RoleSet() != {} && view.roles * p.RoleSet() != {};
      var codeHit := p.HasCode() && p.customerCode.value in view.customerCodes;
      if !(roleHit || codeHit) {
        return Ok(None);
      }
      return Ok(Some(view));
    }

    /** Subscribers hear of a forced refresh exactly when it succeeds. */
    method ForceRefresh(rows: Option<seq<ToolRow>>, now: int) returns (ok: bool)
      requires cache.Valid()
      modifies cache`tools, cache`byName, cache`loadedAt, cache.subscribers
      ensures cache.Valid() && cache.subscribers == old(cache.subscribers) && ok == rows.Some?
      ensures cache.State() == if rows.Some? then Installed(rows.value, now) else Invalidated(old(cache.State()))
      ensures forall q | q in cache.subscribers ::
        q.events == if rows.Some? then Offered(old(q.events), "tools_changed") else old(q.events)
    {
      ok := cache.InvalidateAndReload(rows, now);
    }
  }
}
