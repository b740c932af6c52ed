/** Validation of a CloudCost tool spec. */
module ImportSpec {
  import opened Prelude
  import opened Json
  import opened Text

  const NAME_PREFIX := "cloud_cost."
  const ALLOWED_METHOD := "GET"
  const BASE_URL_ENV := "CLOUDCOST_API_BASE"
  const SYNC_PREFIX := "/api/sync/"
  const SYNC_ALLOWED_PATH := "/api/sync/last"

  const PATH_BLOCKLIST: seq<string> := [
    "/credentials", "/azure-deploy/", "/azure-consent/", "/taiji/ingest", "/admin/users",
    "/api-keys", "/api-permissions", "/customer-assignments", "/export", "/sync/all",
    "/sync/refresh-summary", "/sync/status/", "/sync/logs", "/discover-gcp-projects", "/hard/",
    "/suspend", "/activate", "/mark-paid", "/confirm", "/adjust", "/generate", "/regenerate",
    "/read-all", "/unread-count"]

  const ALLOWED_ROLES: set<string> := {"cloud_admin", "cloud_ops", "cloud_finance", "cloud_viewer"}

  const ALLOWED_TARGETS: set<string> := {"path", "query", "body"}

  datatype Fault =
    | NotMapping
    | MissingKeys
    | BadName
    | DuplicateName
    | BadMethod
    | BlockedPath
    | BadRoles
    | BadParamMap

  /** `SpecError`; the faults of a tool carry its index. */
  datatype SpecError = BadBaseUrlEnv | BadTools | BadDefaultRoles | BadTool(index: nat, fault: Fault)

  type Spec = map<string, Value>

  // ---------- What is accepted ----------

  predicate RolesOk(v: Value) {
    v.Arr? && v.items != [] && forall r | r in v.items :: r.Str? && r.s in ALLOWED_ROLES
  }

  predicate PathAllowed(py: Python, path: string) {
    && (forall i | 0 <= i < |PATH_BLOCKLIST| :: !Contains(py.lower(path), PATH_BLOCKLIST[i]))
    && (StartsWith(py.lower(path), SYNC_PREFIX) ==> path == SYNC_ALLOWED_PATH)
  }

  predicate ParamMapOk(v: Value) {
    v.Obj? && forall key | key in v.members :: v.members[key].Str? && v.members[key].s in ALLOWED_TARGETS
  }

  predicate HasRequired(t: Value) {
    t.Obj? && {"name", "method", "path"} <= t.members.Keys
  }

  /** One tool on its own. */
  predicate ToolOk(py: Python, t: Value) {
    && HasRequired(t)
    && StartsWith(ToText(py, t.members["name"]), NAME_PREFIX)
    && py.upper(ToText(py, t.members["method"])) == ALLOWED_METHOD
    && PathAllowed(py, ToText(py, t.members["path"]))
    && ("roles" in t.members ==> RolesOk(t.members["roles"]))
    && ParamMapOk(Or(Get(t.members, "param_map"), Obj(map[])))
  }

  function NameOf(py: Python, t: Value): string
    requires HasRequired(t)
  {
    ToText(py, t.members["name"])
  }

  /** Every tool is in order and no two share a name. */
  ghost predicate ToolsOk(py: Python, tools: seq<Value>) {
    && (forall i | 0 <= i < |tools| :: ToolOk(py, tools[i]))
    && (forall i, j | 0 <= i < j < |tools| :: NameOf(py, tools[i]) != NameOf(py, tools[j]))
  }

  ghost predicate Accepted(py: Python, spec: Spec) {
    && Get(spec, "base_url_env") == Str(BASE_URL_ENV)
    && Get(spec, "tools").Arr? && Get(spec, "tools").items != []
    && RolesOk(Get(spec, "roles"))
    && ToolsOk(py, Get(spec, "tools").items)
  }

  /** Only a string has a text form that starts like a tool name. */
  lemma NameIsText(py: Python, v: Value)
    requires StartsWith(ToText(py, v), NAME_PREFIX)
    ensures v.Str?
  {
    var t := ToText(py, v);
    assert t[0] == NAME_PREFIX[0] == 'c';
  }

  // ---------- Role lists ----------

  function Strings(items: seq<Value>): seq<string>
    requires forall v | v in items :: v.Str?
  {
    seq(|items|, i requires 0 <= i < |items| => items[i].s)
  }

  /** First occurrences, in order. */
  function Dedup(names: seq<string>): (out: seq<string>)
    ensures forall r :: r in out <==> r in names
    ensures forall i, j | 0 <= i < j < |out| :: out[i] != out[j]
  {
    if names == [] then []
    else
      var init, last := Dedup(names[..|names| - 1]), names[|names| - 1];
      assert names == names[..|names| - 1] + [last];
      if last in names[..|names| - 1] then init else init + [last]
  }

  /** Order is kept: role names come out in the order of their first occurrence. */
  lemma {:induction false} DedupKeepsOrder(names: seq<string>, i: nat, j: nat)
    requires i < j < |Dedup(names)|
    ensures exists p, q ::
      (0 <= p < q < |names| && names[p] == Dedup(names)[i] && names[q] == Dedup(names)[j]
       && names[p] !in names[..p] && names[q] !in names[..q])
  {
    var k := |names| - 1;
    var init := names[..k];
    if j < |Dedup(init)| {
      DedupKeepsOrder(init, i, j);
      var p, q :| 0 <= p < q < |init| && init[p] == Dedup(init)[i] && init[q] == Dedup(init)[j]
        && init[p] !in init[..p] && init[q] !in init[..q];
      assert names[..p] == init[..p] && names[..q] == init[..q];
      assert names[p] == Dedup(names)[i] && names[q] == Dedup(names)[j];
    } else {
      FirstPosition(init, Dedup(init)[i]);
      var p :| 0 <= p < |init| && init[p] == Dedup(init)[i] && init[p] !in init[..p];
      assert names[..p] == init[..p];
      assert names[p] == Dedup(names)[i] && names[k] == Dedup(names)[j];
    }
  }

  lemma {:induction false} FirstPosition(names: seq<string>, name: string)
    requires name in names
    ensures exists p :: 0 <= p < |names| && names[p] == name && names[p] !in names[..p]
  {
    var k := |names| - 1;
    if name in names[..k] {
      FirstPosition(names[..k], name);
      var p :| 0 <= p < k && names[..k][p] == name && names[..k][p] !in names[..k][..p];
      assert names[..k][..p] == names[..p];
      assert names[p] == name;
    } else {
      assert names[k] == name;
    }
  }

  /** `_validate_roles`. */
  method ValidateRoles(names: Value) returns (r: Result<seq<string>, ()>)
    ensures r.Ok? <==> RolesOk(names)
    ensures r.Ok? ==> r.value == Dedup(Strings(names.items))
  {
    if !names.Arr? || names.items == [] {
      return Err(());
    }
    var items := names.items;
    if exists i | 0 <= i < |items| :: !items[i].Str? || items[i].s !in ALLOWED_ROLES {
      return Err(());
    }
    assert forall i | 0 <= i < |items| :: items[i].Str? && items[i].s in ALLOWED_ROLES;
    var seen: set<string> := {};
    var out: seq<string> := [];
    var i := 0;
    while i < |items|
      invariant 0 <= i <= |items|
      invariant out == Dedup(Strings(items)[..i])
      invariant forall s :: s in seen <==> s in out
    {
      assert Strings(items)[..i + 1][..i] == Strings(items)[..i];
      var role := items[i].s;
      if role !in seen {
        seen := seen + {role};
        out := out + [role];
      }
      i := i + 1;
    }
    assert Strings(items)[..i] == Strings(items);
    return Ok(out);
  }

  // ---------- The validator ----------

  /** The first check a tool fails, given the names of the tools before it. */
  function ToolFault(py: Python, t: Value, earlier: set<string>): Option<Fault> {
    if !t.Obj? then Some(NotMapping)
    else if !HasRequired(t) then Some(MissingKeys)
    else if !StartsWith(NameOf(py, t), NAME_PREFIX) then Some(BadName)
    else if NameOf(py, t) in earlier then Some(DuplicateName)
    else if py.upper(ToText(py, t.members["method"])) != ALLOWED_METHOD then Some(BadMethod)
    else if !PathAllowed(py, ToText(py, t.members["path"])) then Some(BlockedPath)
    else if "roles" in t.members && !RolesOk(t.members["roles"]) then Some(BadRoles)
    else if !ParamMapOk(Or(Get(t.members, "param_map"), Obj(map[]))) then Some(BadParamMap)
    else None
  }

  /** The path holds a forbidden text, in any case, or is in the sync module and not its one allowed path. */
  ghost predicate Forbidden(py: Python, path: string) {
    || (exists blocked :: blocked in PATH_BLOCKLIST && Contains(py.lower(path), blocked))
    || (StartsWith(py.lower(path), "/api/sync/") && path != "/api/sync/last")
  }

  lemma ForbiddenIff(py: Python, path: string)
    ensures Forbidden(py, path) <==> !PathAllowed(py, path)
  {
    if blocked :| blocked in PATH_BLOCKLIST && Contains(py.lower(path), blocked) {
      var i :| 0 <= i < |PATH_BLOCKLIST| && PATH_BLOCKLIST[i] == blocked;
    }
  }

  /** Which fault is reported: the checks come in this order, and the first that fails counts. */
  lemma FaultIsFirst(py: Python, t: Value, earlier: set<string>)
    ensures var f := ToolFault(py, t, earlier);
      && (f == Some(NotMapping) <==> !t.Obj?)
      && (t.Obj? ==> (f == Some(MissingKeys) <==> "name" !in t.members || "method" !in t.members || "path" !in t.members))
      && (t.Obj? && "name" in t.members && "method" in t.members && "path" in t.members ==>
            var name, verb, path := ToText(py, t.members["name"]), ToText(py, t.members["method"]), ToText(py, t.members["path"]);
            var named := StartsWith(name, "cloud_cost.");
            var isNew := named && name !in earlier;
            var isGet := isNew && py.upper(verb) == "GET";
            var allowed := isGet && !Forbidden(py, path);
            var roled := allowed && ("roles" in t.members ==> RolesOk(t.members["roles"]));
            && (f == Some(BadName) <==> !named)
            && (f == Some(DuplicateName) <==> named && !isNew)
            && (f == Some(BadMethod) <==> isNew && !isGet)
            && (f == Some(BlockedPath) <==> isGet && !allowed)
            && (f == Some(BadRoles) <==> allowed && !roled)
            && (f == Some(BadParamMap) <==>
                  roled && "param_map" in t.members && Truthy(t.members["param_map"])
                  && !(t.members["param_map"].Obj?
                       && forall key | key in t.members["param_map"].members ::
                            t.members["param_map"].members[key] in {Str("path"), Str("query"), Str("body")}))
            && (f == None ==> roled))
  {
    hide PathAllowed, RolesOk, Contains;
    if HasRequired(t) {
      ForbiddenIff(py, ToText(py, t.members["path"]));
      ParamMapMeans(t.members);
    }
  }

  lemma ParamMapMeans(t: map<string, Value>)
    ensures !ParamMapOk(Or(Get(t, "param_map"), Obj(map[]))) <==>
      "param_map" in t && Truthy(t["param_map"])
      && !(t["param_map"].Obj?
           && forall key | key in t["param_map"].members ::
                t["param_map"].members[key] in {Str("path"), Str("query"), Str("body")})
  {
  }

  function NamesBefore(py: Python, tools: seq<Value>, i: nat): set<string>
    requires i <= |tools|
  {
    set j | 0 <= j < i && HasRequired(tools[j]) :: NameOf(py, tools[j])
  }

  /** `_validate_spec`: accepts exactly the acceptable specs; otherwise names the first fault. */
  method ValidateSpec(py: Python, spec: Spec) returns (r: Result<(), SpecError>)
    ensures r.Ok? <==> Accepted(py, spec)
    ensures r == Err(BadBaseUrlEnv) <==> Get(spec, "base_url_env") != Str("CLOUDCOST_API_BASE")
    ensures Get(spec, "base_url_env") == Str("CLOUDCOST_API_BASE") ==>
      (r == Err(BadTools) <==> !Get(spec, "tools").Arr? || Get(spec, "tools").items == [])
    ensures r == Err(BadDefaultRoles) ==>
      Get(spec, "base_url_env") == Str("CLOUDCOST_API_BASE") && Get(spec, "tools").Arr? && !RolesOk(Get(spec, "roles"))
    ensures r.Err? && r.error.BadTool? ==> RolesOk(Get(spec, "roles"))
    ensures r.Err? && r.error.BadTool? ==>
      var tools, i := Get(spec, "tools"), r.error.index;
      tools.Arr? && i < |tools.items|
      && ToolsOk(py, tools.items[..i])
      && ToolFault(py, tools.items[i], NamesBefore(py, tools.items, i)) == Some(r.error.fault)
  {
    if !Truthy(Get(spec, "base_url_env")) || Get(spec, "base_url_env") != Str(BASE_URL_ENV) {
      return Err(BadBaseUrlEnv);
    }
    var tools := Get(spec, "tools");
    if !tools.Arr? || tools.items == [] {
      return Err(BadTools);
    }
    var defaults := ValidateRoles(Or(Get(spec, "roles"), Arr([])));
    if defaults.Err? {
      return Err(BadDefaultRoles);
    }
    var items := tools.items;
    var seen: set<string> := {};
    var i := 0;
    while i < |items|
      invariant 0 <= i <= |items|
      invariant ToolsOk(py, items[..i])
      invariant seen == NamesBefore(py, items, i)
    {
      var fault := ToolFault(py, items[i], seen);
      if fault.Some? {
        FaultMeans(py, items, i);
        return Err(BadTool(i, fault.value));
      }
      FaultMeans(py, items, i);
      seen := seen + {NameOf(py, items[i])};
      i := i + 1;
    }
    assert items[..i] == items;
    return Ok(());
  }

  lemma ToolsOkSnoc(py: Python, items: seq<Value>, i: nat)
    requires i < |items| && ToolsOk(py, items[..i])
    ensures ToolsOk(py, items[..i + 1])
      <==> ToolOk(py, items[i]) && NameOf(py, items[i]) !in NamesBefore(py, items, i)
  {
    hide PathAllowed, ParamMapOk, RolesOk, StartsWith;
    var init, more := items[..i], items[..i + 1];
    assert forall j | 0 <= j < i :: init[j] == more[j] == items[j] && ToolOk(py, init[j]);
    assert more[i] == items[i];
    if ToolOk(py, items[i]) && NameOf(py, items[i]) !in NamesBefore(py, items, i) {
      forall j, k | 0 <= j < k < |more| ensures NameOf(py, more[j]) != NameOf(py, more[k]) {
        if k == i { assert NameOf(py, items[j]) in NamesBefore(py, items, i); }
      }
    }
  }

  lemma ToolsOkPrefix(py: Python, items: seq<Value>, i: nat)
    requires i <= |items| && ToolsOk(py, items)
    ensures ToolsOk(py, items[..i])
  {
  }

  lemma FaultMeans(py: Python, items: seq<Value>, i: nat)
    requires i < |items| && ToolsOk(py, items[..i])
    ensures var fault := ToolFault(py, items[i], NamesBefore(py, items, i));
      && (fault.None? ==> ToolsOk(py, items[..i + 1]))
      && (fault.None? ==> HasRequired(items[i]))
      && (fault.None? ==> NamesBefore(py, items, i + 1) == NamesBefore(py, items, i) + {NameOf(py, items[i])})
      && (fault.Some? ==> !ToolsOk(py, items))
  {
    ToolsOkSnoc(py, items, i);
    if ToolsOk(py, items) { ToolsOkPrefix(py, items, i + 1); }
  }
}
