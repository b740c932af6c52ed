/** The importer and the HTTP adapter together: what calling an imported tool can do. */
module ImportedTools {
  import opened Prelude
  import opened Json
  import opened HttpSend
  import opened HttpAdapter
  import opened ImportSpec
  import opened ImportPlan
  import opened ImportRender
  import opened SqlDatabase
  import PathTemplate
  import PathArguments
  import Percent
  import Text

  /** Case mapping keeps "GET" and the empty string. */
  ghost predicate Sane(py: Python) {
    py.upper(ALLOWED_METHOD) == ALLOWED_METHOD && py.lower("") == ""
  }

  /** The row as the adapter sees it, when its columns have the types the adapter needs. */
  function ToolOfRow(c: Columns): Option<Tool> {
    if c.config.SqlJson? && c.config.v.Obj? && c.authMode.SqlText?
       && (c.authHeader.SqlText? || c.authHeader.SqlNull?) && c.authPrefix.SqlText?
       && (c.secretEnvName.SqlText? || c.secretEnvName.SqlNull?)
    then
      Some(Tool(
        c.config.v.members,
        c.authMode.s == "user_passthrough",
        if c.authHeader.SqlText? then Some(c.authHeader.s) else None,
        c.authPrefix.s,
        if c.secretEnvName.SqlText? then c.secretEnvName.s else ""))
    else None
  }

  /** A tool that reads only: GET, no retries, no headers from arguments, an allowed path, and
      the caller's own token. */
  ghost predicate ReadOnly(py: Python, tool: Tool) {
    && tool.passthrough
    && tool.authHeader == Some("Authorization") && tool.authPrefix == "Bearer "
    && MethodOf(py, tool) == "GET"
    && PathAllowed(py, TemplateOf(py, tool))
    && TimeoutOk(py, tool)
    && ParamMapOk(Or(Get(tool.config, "param_map"), Obj(map[])))
  }

  ghost predicate SafeRow(py: Python, c: Columns) {
    ToolOfRow(c).Some? && ReadOnly(py, ToolOfRow(c).value)
  }

  lemma EmptyPathAllowed(py: Python)
    requires Sane(py)
    ensures PathAllowed(py, "")
  {
  }

  lemma ConfigEntries(baseUrlEnv: Value, methodName: string, path: Value, timeout: int, t: map<string, Value>)
    ensures var m := ConfigOf(baseUrlEnv, methodName, path, timeout, t);
      && m.Obj? && "method" in m.members && m.members["method"] == Str(methodName)
      && Get(m.members, "timeout_sec") == Int(timeout) && Get(m.members, "path") == path && Get(m.members, "retries") == Int(0)
      && Or(Get(m.members, "param_map"), Obj(map[])) == Or(Get(t, "param_map"), Obj(map[]))
  {
  }

  /** Every row an accepted spec writes is safe. */
  lemma PlannedRowsAreSafe(py: Python, spec: Spec, i: nat)
    requires Sane(py) && Renderable(py, spec) && i < |Plans(py, spec)|
    ensures SafeRow(py, Plans(py, spec)[i].columns)
  {
    var t := Get(spec, "tools").items[i];
    assert ToolOk(py, t);
    PlannedRow(py, spec, t, DefaultTimeout(py, spec).value);
  }

  lemma PlannedRow(py: Python, spec: Spec, t: Value, timeout: int)
    requires Sane(py) && RolesOk(Get(spec, "roles")) && ToolOk(py, t)
    requires PlanOf(py, spec, t, timeout).Some?
    ensures SafeRow(py, PlanOf(py, spec, t, timeout).value.columns)
  {
    var m := t.members;
    var seconds := TimeoutOf(py, t, timeout).value;
    ConfigEntries(Get(spec, "base_url_env"), py.upper(m["method"].s), m["path"], seconds, m);
    EmptyPathAllowed(py);
    assert ToText(py, Str("")) == "";
  }

  /** No argument of a safe tool reaches a header, and none is refused. */
  lemma {:induction false} NoArgumentHeaders(py: Python, w: PathTemplate.WordClass, tool: Tool, r: Routing, args: seq<Argument>)
    requires ReadOnly(py, tool) && RoutingOf(py, w, tool, args) == Some(r)
    ensures Headers(py, r, args) == map[]
    ensures Routable(r, args)
  {
    forall key ensures !r.To(key).Header? && r.To(key) != Unknown && r.To(key) != Untyped {}
    if args != [] {
      NoArgumentHeaders(py, w, tool, r, args[..|args| - 1]);
    }
  }

  /** What a call of a safe tool still depends on: the base URL, an argument for every placeholder
      of the path, and a usable body wrapper. */
  predicate Callable(py: Python, w: PathTemplate.WordClass, tool: Tool, call: Call, env: Environ) {
    && BaseUrl(tool, env).Ok?
    && RoutingOf(py, w, tool, call.args).Some?
    && (var r := RoutingOf(py, w, tool, call.args).value;
        && PathTemplate.Names(w, TemplateOf(py, tool)) <= PathValues(py, Sent(r, call.args, Path)).Keys
        && ContentOf(Get(tool.config, "body_wrap"), Sent(r, call.args, Body)).Some?)
  }

  lemma ReadyIffCallable(py: Python, w: PathTemplate.WordClass, tool: Tool, call: Call, env: Environ, defaultRetries: int)
    requires ReadOnly(py, tool)
    ensures RoutingOf(py, w, tool, call.args).Some?
    ensures Ready(py, w, tool, call, env, defaultRetries) <==> Callable(py, w, tool, call, env)
  {
    hide Sent, Headers, Routable, PathTemplate.Names, PathTemplate.Render, PathAllowed;
    var r := RoutingOf(py, w, tool, call.args).value;
    NoArgumentHeaders(py, w, tool, r, call.args);
    PathTemplate.RenderSucceeds(w, TemplateOf(py, tool), PathValues(py, Sent(r, call.args, Path)));
  }

  /** Calling a safe tool: one GET request when it is callable and none otherwise, without waiting,
      to the base URL and a path rendered from an allowed template, with the caller's own token
      and no header chosen by the arguments. */
  method CallSafeTool(py: Python, w: PathTemplate.WordClass, ghost columns: Columns, tool: Tool, call: Call,
                      env: Environ, defaultRetries: int, base: real, outcomes: nat -> Outcome)
    returns (r: Result<string, CallError>, request: Option<Request>, sent: nat, sleeps: seq<real>)
    requires SafeRow(py, columns) && ToolOfRow(columns) == Some(tool)
    ensures sent <= 1 && sleeps == [] && (sent == 1 <==> request.Some?)
    ensures request.Some? <==> Callable(py, w, tool, call, env)
    ensures request.Some? ==>
      && request.value.methodName == "GET"
      && request.value.headers == AllHeaders(call, map["Authorization" := "Bearer " + call.rawToken], map[])
      && PathAllowed(py, TemplateOf(py, tool))
      && (var path := RenderedPath(py, w, RoutingOf(py, w, tool, call.args).value, TemplateOf(py, tool), call.args);
          path.Ok? && request.value.url == TrimSlashes(BaseUrl(tool, env).value) + path.value)
      && r == (match Decide(outcomes(0)) case Ok(text) => Ok(text) case Err(e) => Err(Upstream(e)))
    ensures request.None? ==> r.Err? && !r.error.Upstream?
  {
    hide Sent, Headers, Routable, PathTemplate.Names, PathTemplate.Render, PathAllowed, AllHeaders, BaseUrl;
    ReadyIffCallable(py, w, tool, call, env, defaultRetries);
    NoArgumentHeaders(py, w, tool, RoutingOf(py, w, tool, call.args).value, call.args);
    r, request, sent, sleeps := Invoke(py, w, tool, call, env, defaultRetries, base, outcomes);
  }

  // ---------- The blocklist and rendered paths ----------

  /** The blocklist is applied to the template. A template without placeholders is its own path,
      so there the path a request goes to is allowed too. */
  lemma PlainPathStaysAllowed(py: Python, w: PathTemplate.WordClass, tool: Tool, values: map<string, string>)
    requires ReadOnly(py, tool) && PathTemplate.Names(w, TemplateOf(py, tool)) == {}
    ensures PathTemplate.Render(w, TemplateOf(py, tool), values) == Ok(TemplateOf(py, tool))
    ensures PathAllowed(py, PathTemplate.Render(w, TemplateOf(py, tool), values).value)
  {
    PathTemplate.RenderPlain(w, TemplateOf(py, tool), values);
  }

  /** With a placeholder it need not be: an argument can complete a blocked path. */
  lemma ArgumentCompletesBlockedPath(py: Python, w: PathTemplate.WordClass)
    requires PathTemplate.Proper(w) && w('x')
    requires py.lower("/api/{x}") == "/api/{x}" && py.lower("/api/credentials") == "/api/credentials"
    ensures PathAllowed(py, "/api/{x}")
    ensures PathTemplate.Render(w, "/api/{x}", map["x" := "credentials"]) == Ok("/api/credentials")
    ensures !PathAllowed(py, "/api/credentials")
  {
    TemplateIsAllowed();
    RenderedCredentials(w);
    CredentialsAreBlocked();
  }

  lemma RenderedCredentials(w: PathTemplate.WordClass)
    requires PathTemplate.Proper(w) && w('x')
    ensures PathTemplate.Render(w, "/api/{x}", map["x" := "credentials"]) == Ok("/api/credentials")
  {
    hide PathTemplate.Render, Percent.Quote;
    var parts, values := [PathArguments.Part("x", "")], map["x" := "credentials"];
    var none: seq<PathArguments.Part> := parts[1..];
    assert none == [] && PathArguments.Text(none) == "" && PathArguments.PathText(none, values) == "";
    PathArguments.RenderTemplate(w, "/api/", parts, values);
    Percent.QuoteKeepsUnreserved("credentials");
    assert PathArguments.Template("/api/", parts) == "/api/{x}";
    assert "/api/" + ("credentials" + ("" + "")) == "/api/credentials";
  }

  lemma CredentialsAreBlocked()
    ensures exists i :: 0 <= i < |PATH_BLOCKLIST| && Text.Contains("/api/credentials", PATH_BLOCKLIST[i])
  {
    var text, blocked := "/api/credentials", "/credentials";
    assert text[4..16] == blocked;
    assert Text.MatchAt(text, blocked, 4);
    assert PATH_BLOCKLIST[0] == blocked;
  }

  /** Too long for "/api/{x}", or different from it in its first letters. */
  predicate Unlike(e: string) {
    |e| >= 5 && e[0] == '/' && (|e| > 8 || e[1] != 'a' || e[2] != 'p')
  }

  lemma BlocklistIsUnlike()
    ensures forall i | 0 <= i < |PATH_BLOCKLIST| :: Unlike(PATH_BLOCKLIST[i])
    ensures !Text.StartsWith("/api/{x}", SYNC_PREFIX)
  {
  }

  lemma TemplateIsAllowed()
    ensures forall i | 0 <= i < |PATH_BLOCKLIST| :: !Text.Contains("/api/{x}", PATH_BLOCKLIST[i])
    ensures !Text.StartsWith("/api/{x}", SYNC_PREFIX)
  {
    hide *;
    BlocklistIsUnlike();
    forall i | 0 <= i < |PATH_BLOCKLIST| ensures !Text.Contains("/api/{x}", PATH_BLOCKLIST[i]) {
      UnlikeIsAbsent(PATH_BLOCKLIST[i]);
    }
  }

  lemma UnlikeIsAbsent(e: string)
    requires Unlike(e)
    ensures !Text.Contains("/api/{x}", e)
  {
    var text := "/api/{x}";
    forall i: nat | i <= |text| ensures !Text.MatchAt(text, e, i) {}
  }

  // ---------- Any number of imports ----------

  ghost predicate HoldsSafe(py: Python, db: Db, name: string) {
    name in db.tools && SafeRow(py, db.tools[name].columns)
  }

  ghost function ImportOne(py: Python, spec: Spec, db: Db): Db
    requires Renderable(py, spec)
  {
    Run(Session(db, None), Script(Plans(py, spec))).committed
  }

  ghost predicate NamedBy(py: Python, spec: Spec, name: string)
    requires Renderable(py, spec)
  {
    ImportPlan.Named(Plans(py, spec), name)
  }

  /** An import makes the rows it names safe and leaves safe rows safe. */
  lemma OneImport(py: Python, spec: Spec, before: Db, name: string)
    requires Sane(py) && Renderable(py, spec) && Valid(before)
    ensures Valid(ImportOne(py, spec, before))
    ensures NamedBy(py, spec, name) || HoldsSafe(py, before, name)
      ==> HoldsSafe(py, ImportOne(py, spec, before), name)
  {
    hide Renderable, SafeRow, Plans, Run;
    var plans, after := Plans(py, spec), ImportOne(py, spec, before);
    ImportIsCorrect(py, spec, before);
    assert Imported(before, after, plans);
    if ImportPlan.Named(plans, name) {
      var i :| 0 <= i < |plans| && plans[i].name == name;
      assert RowImported(before, after, plans[i]);
      PlannedRowsAreSafe(py, spec, i);
    }
  }

  ghost predicate AllRenderable(py: Python, specs: seq<Spec>) {
    forall i | 0 <= i < |specs| :: Renderable(py, specs[i])
  }

  /** Importing several specs one after another. */
  ghost function ImportAll(py: Python, specs: seq<Spec>, db: Db): Db
    requires AllRenderable(py, specs)
    decreases |specs|
  {
    if specs == [] then db else ImportAll(py, specs[1..], ImportOne(py, specs[0], db))
  }

  /** After any sequence of accepted imports into any database, every row named in one of them,
      and every row that was safe before, is safe. */
  lemma {:induction false} ImportedRowsAreSafe(py: Python, specs: seq<Spec>, db: Db, name: string)
    requires Sane(py) && Valid(db) && AllRenderable(py, specs)
    ensures Valid(ImportAll(py, specs, db))
    ensures HoldsSafe(py, db, name) || (exists k :: 0 <= k < |specs| && NamedBy(py, specs[k], name))
      ==> HoldsSafe(py, ImportAll(py, specs, db), name)
    decreases |specs|
  {
    if specs != [] {
      hide Renderable, ImportOne, NamedBy, HoldsSafe, Valid;
      var later := specs[1..];
      OneImport(py, specs[0], db, name);
      ImportedRowsAreSafe(py, later, ImportOne(py, specs[0], db), name);
      if exists k :: 0 <= k < |specs| && NamedBy(py, specs[k], name) {
        var k :| 0 <= k < |specs| && NamedBy(py, specs[k], name);
        if k > 0 { assert later[k - 1] == specs[k]; }
      }
    }
  }
}
