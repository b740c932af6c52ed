/** The config-driven HTTP dispatcher: argument routing, retry budget and one call. */
module HttpAdapter {
  import opened Prelude
  import opened Json
  import opened HttpSend
  import opened Text
  import PathTemplate

  /** A call argument; arguments come in order and under distinct keys. */
  datatype Argument = Argument(key: string, value: Value)

  ghost predicate DistinctKeys(args: seq<Argument>) {
    forall i, j | 0 <= i < j < |args| :: args[i].key != args[j].key
  }

  /** Where an argument goes. An unknown target is refused; one that is not a string raises. */
  datatype Target = Path | Query | Body | Header(name: string) | Unknown | Untyped

  const HEADER_PREFIX := "header:"

  function Named(target: Value): Target {
    match target
    case Str(s) =>
      if s == "path" then Path
      else if s == "query" then Query
      else if s == "body" then Body
      else if HEADER_PREFIX <= s then Header(s[|HEADER_PREFIX|..])
      else Unknown
    case _ => Untyped
  }

  /** Explicit entry first, then the path template, then the method's default. */
  function TargetOf(paramMap: map<string, Value>, pathVars: set<string>, methodName: string, key: string): Target {
    var explicit := Get(paramMap, key);
    if explicit != Null then Named(explicit)
    else if key in pathVars then Path
    else if methodName == "GET" || methodName == "DELETE" || methodName == "HEAD" then Query
    else Body
  }

  /** A tool's routing, with everything but the key fixed. */
  datatype Routing = Routing(paramMap: map<string, Value>, pathVars: set<string>, methodName: string) {
    function To(key: string): Target {
      TargetOf(paramMap, pathVars, methodName, key)
    }
  }

  /** The arguments that go to one target, in order. */
  function Sent(r: Routing, args: seq<Argument>, to: Target): seq<Argument> {
    if args == [] then []
    else Sent(r, args[..|args| - 1], to)
         + (if r.To(args[|args| - 1].key) == to then [args[|args| - 1]] else [])
  }

  function HeaderText(py: Python, v: Value): string {
    if v == Null then "" else ToText(py, v)
  }

  /** Headers set by arguments; a later argument replaces an earlier one's header. */
  function Headers(py: Python, r: Routing, args: seq<Argument>): map<string, string> {
    if args == [] then map[]
    else
      var last := args[|args| - 1];
      var before := Headers(py, r, args[..|args| - 1]);
      match r.To(last.key)
      case Header(name) => before[name := HeaderText(py, last.value)]
      case _ => before
  }

  /** The text forms of the path arguments. */
  function PathValues(py: Python, args: seq<Argument>): map<string, string> {
    if args == [] then map[]
    else
      var last := args[|args| - 1];
      PathValues(py, args[..|args| - 1])[last.key := ToText(py, last.value)]
  }

  /** The request body: none, the body arguments, or those under the wrapper's key. */
  datatype Content = NoContent | Flat(args: seq<Argument>) | Wrapped(key: Value, args: seq<Argument>)

  /** None when the wrapper cannot be a dictionary key. */
  function ContentOf(wrap: Value, args: seq<Argument>): Option<Content> {
    if args == [] then Some(NoContent)
    else if !Truthy(wrap) then Some(Flat(args))
    else if wrap.Arr? || wrap.Obj? then None
    else Some(Wrapped(wrap, args))
  }

  datatype Mapped = Mapped(path: string, query: seq<Argument>, body: Content, header: map<string, string>)

  /** `RaisedMapping` stands for a Python exception other than DispatchError. */
  datatype MapError = UnknownTarget | MissingPathArgument(name: string) | RaisedMapping

  predicate Routable(r: Routing, args: seq<Argument>) {
    forall a | a in args :: r.To(a.key) != Unknown && r.To(a.key) != Untyped
  }

  /** The error of the first argument whose target is refused. */
  function Refusal(r: Routing, args: seq<Argument>): (e: Option<MapError>)
    ensures e.None? <==> Routable(r, args)
  {
    if args == [] then None
    else
      var init, last := args[..|args| - 1], args[|args| - 1];
      assert args == init + [last];
      if Refusal(r, init).Some? then Refusal(r, init)
      else match r.To(last.key)
        case Unknown => Some(UnknownTarget)
        case Untyped => Some(RaisedMapping)
        case _ => None
  }

  function RenderedPath(py: Python, w: PathTemplate.WordClass, r: Routing, template: string, args: seq<Argument>): Result<string, string> {
    PathTemplate.Render(w, template, PathValues(py, Sent(r, args, Path)))
  }

  /** `map_params`: every argument goes to the bucket of its target, and the path is the template
      rendered with the path arguments. */
  method MapParams(py: Python, w: PathTemplate.WordClass, r: Routing, template: string, wrap: Value, args: seq<Argument>)
    returns (m: Result<Mapped, MapError>)
    ensures !Routable(r, args) ==> Refusal(r, args).Some? && m == Err(Refusal(r, args).value)
    ensures Routable(r, args) ==>
      match RenderedPath(py, w, r, template, args) {
        case Err(name) => m == Err(MissingPathArgument(name))
        case Ok(text) =>
          var content := ContentOf(wrap, Sent(r, args, Body));
          m == if content.None? then Err(RaisedMapping)
               else Ok(Mapped(text, Sent(r, args, Query), content.value, Headers(py, r, args)))
      }
  {
    hide PathTemplate.Render, Refusal, PathValues, Sent, Headers, Routable, HeaderText, Routing.To;
    assert args[..0] == [] && Sent(r, [], Path) == Sent(r, [], Query) == Sent(r, [], Body) == []
      && Headers(py, r, []) == map[] && Routable(r, []) by { NothingSent(py, r); }
    var pathArgs, query, body: seq<Argument> := [], [], [];
    var header: map<string, string> := map[];
    var i := 0;
    while i < |args|
      invariant 0 <= i <= |args|
      invariant Routable(r, args[..i])
      invariant pathArgs == Sent(r, args[..i], Path)
      invariant query == Sent(r, args[..i], Query)
      invariant body == Sent(r, args[..i], Body)
      invariant header == Headers(py, r, args[..i])
    {
      var a := args[i];
      OneMoreSent(py, r, args, i);
      match r.To(a.key) {
        case Path => pathArgs := pathArgs + [a];
        case Query => query := query + [a];
        case Body => body := body + [a];
        case Header(name) => header := header[name := HeaderText(py, a.value)];
        case Unknown =>
          RefusalAt(r, args, i);
          return Err(UnknownTarget);
        case Untyped =>
          RefusalAt(r, args, i);
          return Err(RaisedMapping);
      }
      i := i + 1;
    }
    assert args[..i] == args;
    match PathTemplate.Render(w, template, PathValues(py, pathArgs)) {
      case Err(name) => return Err(MissingPathArgument(name));
      case Ok(text) =>
        var content := ContentOf(wrap, body);
        if content.None? {
          return Err(RaisedMapping);
        }
        return Ok(Mapped(text, query, content.value, header));
    }
  }

  lemma NothingSent(py: Python, r: Routing)
    ensures Sent(r, [], Path) == Sent(r, [], Query) == Sent(r, [], Body) == []
    ensures Headers(py, r, []) == map[] && Routable(r, [])
  {
  }

  /** What one more argument adds to the buckets. */
  lemma OneMoreSent(py: Python, r: Routing, args: seq<Argument>, i: nat)
    requires i < |args|
    ensures forall to ::
      (Sent(r, args[..i + 1], to) == Sent(r, args[..i], to) + if r.To(args[i].key) == to then [args[i]] else [])
    ensures Headers(py, r, args[..i + 1]) ==
      match r.To(args[i].key)
      case Header(name) => Headers(py, r, args[..i])[name := HeaderText(py, args[i].value)]
      case _ => Headers(py, r, args[..i])
    ensures Routable(r, args[..i + 1])
      <==> Routable(r, args[..i]) && r.To(args[i].key) != Unknown && r.To(args[i].key) != Untyped
  {
    hide HeaderText, Routing.To;
    assert args[..i + 1][..i] == args[..i] && args[..i + 1] == args[..i] + [args[i]];
  }

  lemma {:induction false} RefusalAt(r: Routing, args: seq<Argument>, i: nat)
    requires i < |args| && Routable(r, args[..i])
    requires r.To(args[i].key) == Unknown || r.To(args[i].key) == Untyped
    ensures Refusal(r, args) == Some(if r.To(args[i].key) == Unknown then UnknownTarget else RaisedMapping)
    decreases |args|
  {
    if i + 1 < |args| {
      var init := args[..|args| - 1];
      assert init[..i] == args[..i] && init[..i + 1] == args[..i + 1];
      RefusalAt(r, init, i);
    } else {
      assert args[..i + 1] == args;
      assert args[i] in args;
    }
  }

  /** A bucket holds exactly the arguments of its target, each as often as the call does: with
      one target per key, no argument is lost or sent twice. */
  lemma {:induction false} BucketHolds(r: Routing, args: seq<Argument>, to: Target, a: Argument)
    ensures multiset(Sent(r, args, to))[a] == if r.To(a.key) == to then multiset(args)[a] else 0
  {
    if args != [] {
      var init, last := args[..|args| - 1], args[|args| - 1];
      assert args == init + [last];
      BucketHolds(r, init, to, a);
    }
  }

  /** The text of a path argument is the text of the one argument with that key. */
  lemma {:induction false} PathValueOf(py: Python, args: seq<Argument>, a: Argument)
    requires DistinctKeys(args) && a in args
    ensures a.key in PathValues(py, args) && PathValues(py, args)[a.key] == ToText(py, a.value)
  {
    var init, last := args[..|args| - 1], args[|args| - 1];
    assert args == init + [last];
    if a != last {
      PathValueOf(py, init, a);
      var i :| 0 <= i < |init| && init[i] == a;
      assert args[i].key != args[|args| - 1].key;
    }
  }

  /** A header is set exactly when some argument is routed to it, and by the last of those. */
  lemma {:induction false} HeaderHolds(py: Python, r: Routing, args: seq<Argument>, name: string)
    ensures var sent := Sent(r, args, Header(name));
      && (name in Headers(py, r, args) <==> sent != [])
      && (sent != [] ==> Headers(py, r, args)[name] == HeaderText(py, sent[|sent| - 1].value))
  {
    if args != [] {
      HeaderHolds(py, r, args[..|args| - 1], name);
    }
  }

  // ---------- One call ----------

  /** The columns of a tool row the adapter reads. */
  datatype Tool = Tool(
    config: map<string, Value>, passthrough: bool, authHeader: Option<string>, authPrefix: string,
    secretEnvName: string)

  datatype Call = Call(
    args: seq<Argument>, rawToken: string, toolName: string, userId: string, roles: seq<string>,
    traceId: string, customerCode: Option<string>)

  type Environ = map<string, string>

  /** `Raised` stands for a Python exception other than DispatchError. */
  datatype CallError = ConfigError | Raised | Unroutable(reason: MapError) | Upstream(error: DispatchError)

  /** `_env_required` of the base URL's variable. */
  function BaseUrl(tool: Tool, env: Environ): Result<string, CallError> {
    var name := Get(tool.config, "base_url_env");
    if !Truthy(name) then Err(ConfigError)
    else if !name.Str? then Err(Raised)
    else if name.s !in env || env[name.s] == "" then Err(ConfigError)
    else Ok(env[name.s])
  }

  /** Whether `float()` of the timeout raises nothing. */
  predicate TimeoutOk(py: Python, tool: Tool) {
    match Get(tool.config, "timeout_sec")
    case Str(s) => s == "" || py.parsesFloat(s)
    case Arr(items) => items == []
    case Obj(m) => m == map[]
    case _ => true
  }

  /** `_retries_for`; None where `int()` raises. */
  function RetriesFor(py: Python, tool: Tool, defaultRetries: int): Option<int> {
    if tool.passthrough then Some(0)
    else
      var value := Get(tool.config, "retries");
      if value == Null then Some(defaultRetries)
      else match ToInt(py, value)
           case None => None
           case Some(n) => Some(if n < 0 then 0 else n)
  }

  function MethodOf(py: Python, tool: Tool): string {
    py.upper(if "method" in tool.config then ToText(py, tool.config["method"]) else "GET")
  }

  function TemplateOf(py: Python, tool: Tool): string {
    ToText(py, Or(Get(tool.config, "path"), Str("")))
  }

  /** None when looking an argument up in the parameter map raises. */
  function RoutingOf(py: Python, w: PathTemplate.WordClass, tool: Tool, args: seq<Argument>): Option<Routing> {
    var vars := PathTemplate.Names(w, TemplateOf(py, tool));
    match Or(Get(tool.config, "param_map"), Obj(map[]))
    case Obj(m) => Some(Routing(m, vars, MethodOf(py, tool)))
    case _ => if args == [] then Some(Routing(map[], vars, MethodOf(py, tool))) else None
  }

  /** `map_params` of a tool's configuration. */
  function MappedBy(py: Python, w: PathTemplate.WordClass, tool: Tool, args: seq<Argument>): Result<Mapped, MapError> {
    var routing := RoutingOf(py, w, tool, args);
    if routing.None? then Err(RaisedMapping)
    else
      var r := routing.value;
      if Refusal(r, args).Some? then Err(Refusal(r, args).value)
      else match RenderedPath(py, w, r, TemplateOf(py, tool), args)
        case Err(name) => Err(MissingPathArgument(name))
        case Ok(text) =>
          var content := ContentOf(Get(tool.config, "body_wrap"), Sent(r, args, Body));
          if content.None? then Err(RaisedMapping)
          else Ok(Mapped(text, Sent(r, args, Query), content.value, Headers(py, r, args)))
  }

  /** The authorization entry, if the tool has one; None where the secret is missing. */
  function AuthHeader(tool: Tool, call: Call, env: Environ): Option<map<string, string>> {
    match tool.authHeader
    case None => Some(map[])
    case Some(name) =>
      if name == "" then Some(map[])
      else if tool.passthrough then Some(map[name := tool.authPrefix + call.rawToken])
      else if tool.secretEnvName in env && env[tool.secretEnvName] != "" then
        Some(map[name := tool.authPrefix + env[tool.secretEnvName]])
      else None
  }

  /** `_build_headers`: later entries replace earlier ones of the same name. */
  function AllHeaders(call: Call, auth: map<string, string>, extra: map<string, string>): map<string, string> {
    map[
      "X-Gateway-User-Id" := call.userId,
      "X-Gateway-User-Roles" := Join(call.roles, ","),
      "X-Gateway-Trace-Id" := call.traceId,
      "X-Gateway-Tool-Name" := call.toolName]
    + auth
    + (if call.customerCode.Some? && call.customerCode.value != ""
       then map["X-Customer-Code" := call.customerCode.value] else map[])
    + extra
  }

  /** `s.rstrip("/")`. */
  function TrimSlashes(s: string): string {
    if s != "" && s[|s| - 1] == '/' then TrimSlashes(s[..|s| - 1]) else s
  }

  datatype Request = Request(
    methodName: string, url: string, query: seq<Argument>, body: Content, headers: map<string, string>)

  /** Everything a request needs is there. */
  predicate Ready(py: Python, w: PathTemplate.WordClass, tool: Tool, call: Call, env: Environ, defaultRetries: int) {
    && BaseUrl(tool, env).Ok? && TimeoutOk(py, tool) && RetriesFor(py, tool, defaultRetries).Some?
    && RoutingOf(py, w, tool, call.args).Some?
    && (var r := RoutingOf(py, w, tool, call.args).value;
        && Routable(r, call.args)
        && RenderedPath(py, w, r, TemplateOf(py, tool), call.args).Ok?
        && ContentOf(Get(tool.config, "body_wrap"), Sent(r, call.args, Body)).Some?)
    && AuthHeader(tool, call, env).Some?
  }

  function RequestOf(py: Python, w: PathTemplate.WordClass, tool: Tool, call: Call, env: Environ, defaultRetries: int): Request
    requires Ready(py, w, tool, call, env, defaultRetries)
  {
    var r := RoutingOf(py, w, tool, call.args).value;
    Request(
      MethodOf(py, tool),
      TrimSlashes(BaseUrl(tool, env).value) + RenderedPath(py, w, r, TemplateOf(py, tool), call.args).value,
      Sent(r, call.args, Query),
      ContentOf(Get(tool.config, "body_wrap"), Sent(r, call.args, Body)).value,
      AllHeaders(call, AuthHeader(tool, call, env).value, Headers(py, r, call.args)))
  }

  /** The first thing that is missing. */
  function Obstacle(py: Python, w: PathTemplate.WordClass, tool: Tool, call: Call, env: Environ, defaultRetries: int): (e: CallError)
    requires !Ready(py, w, tool, call, env, defaultRetries)
    ensures !e.Upstream?
  {
    if BaseUrl(tool, env).Err? && BaseUrl(tool, env).error == ConfigError then ConfigError
    else if BaseUrl(tool, env).Err? || !TimeoutOk(py, tool) || RetriesFor(py, tool, defaultRetries).None? then Raised
    else match MappedBy(py, w, tool, call.args)
      case Err(RaisedMapping) => Raised
      case Err(reason) => Unroutable(reason)
      case Ok(_) => ConfigError
  }

  /** `invoke`: a request is made exactly when everything it needs is there, and it is the one
      the configuration and the arguments describe; `outcomes` answers its attempts. */
  method Invoke(py: Python, w: PathTemplate.WordClass, tool: Tool, call: Call, env: Environ,
                defaultRetries: int, base: real, outcomes: nat -> Outcome)
    returns (r: Result<string, CallError>, request: Option<Request>, sent: nat, sleeps: seq<real>)
    ensures request.Some? <==> Ready(py, w, tool, call, env, defaultRetries)
    ensures request.Some? ==>
      && request.value == RequestOf(py, w, tool, call, env, defaultRetries)
      && (var k := FinalAttempt(outcomes, RetriesFor(py, tool, defaultRetries).value, 0);
          sent == k + 1 && sleeps == Backoff(base, k)
          && r == (match Decide(outcomes(k)) case Ok(text) => Ok(text) case Err(e) => Err(Upstream(e))))
    ensures request.None? ==>
      sent == 0 && sleeps == [] && r == Err(Obstacle(py, w, tool, call, env, defaultRetries))
  {
    hide Sent, Headers, PathTemplate.Render, PathTemplate.Names, Routable, FinalAttempt, Decide, Backoff;
    request, sent, sleeps := None, 0, [];
    var baseUrl := BaseUrl(tool, env);
    if baseUrl.Err? {
      return Err(baseUrl.error), request, sent, sleeps;
    }
    var retries := RetriesFor(py, tool, defaultRetries);
    if !TimeoutOk(py, tool) || retries.None? {
      return Err(Raised), request, sent, sleeps;
    }
    var routing := RoutingOf(py, w, tool, call.args);
    if routing.None? {
      return Err(Raised), request, sent, sleeps;
    }
    var mapped := MapParams(py, w, routing.value, TemplateOf(py, tool), Get(tool.config, "body_wrap"), call.args);
    if mapped.Err? {
      return Err(if mapped.error.RaisedMapping? then Raised else Unroutable(mapped.error)), request, sent, sleeps;
    }
    var auth := AuthHeader(tool, call, env);
    if auth.None? {
      return Err(ConfigError), request, sent, sleeps;
    }
    var m := mapped.value;
    request := Some(Request(
      MethodOf(py, tool), TrimSlashes(baseUrl.value) + m.path, m.query, m.body,
      AllHeaders(call, auth.value, m.header)));
    var answer;
    answer, sent, sleeps := Send(outcomes, retries.value, base);
    match answer {
      case Ok(text) => r := Ok(text);
      case Err(e) => r := Err(Upstream(e));
    }
  }
}
