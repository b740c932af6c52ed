/** The request the HTTP adapter sends, told from the tool's configuration and the arguments. */
module HttpRequests {
  import opened Prelude
  import opened Json
  import opened HttpSend
  import opened HttpAdapter
  import opened Text
  import PathTemplate

  // ---------- Where an argument belongs ----------

  /** The configuration's parameter map names this target for the key. */
  predicate HasEntry(tool: Tool, key: string, target: Value) {
    && "param_map" in tool.config && tool.config["param_map"].Obj?
    && key in tool.config["param_map"].members && tool.config["param_map"].members[key] == target != Null
  }

  ghost predicate NoEntry(tool: Tool, key: string) {
    forall target :: !HasEntry(tool, key, target)
  }

  /** The template of the configuration, if there is one. */
  ghost predicate HasTemplate(py: Python, tool: Tool, template: string) {
    if "path" in tool.config && Truthy(tool.config["path"]) then template == ToText(py, tool.config["path"]) else template == ""
  }

  ghost predicate IsPlaceholder(py: Python, w: PathTemplate.WordClass, tool: Tool, key: string) {
    exists template :: HasTemplate(py, tool, template) && key in PathTemplate.Names(w, template)
  }

  ghost predicate InPath(py: Python, w: PathTemplate.WordClass, tool: Tool, key: string) {
    HasEntry(tool, key, Str("path")) || (NoEntry(tool, key) && IsPlaceholder(py, w, tool, key))
  }

  ghost predicate InQuery(py: Python, w: PathTemplate.WordClass, tool: Tool, methodName: string, key: string) {
    || HasEntry(tool, key, Str("query"))
    || (NoEntry(tool, key) && !IsPlaceholder(py, w, tool, key) && methodName in {"GET", "DELETE", "HEAD"})
  }

  ghost predicate InBody(py: Python, w: PathTemplate.WordClass, tool: Tool, methodName: string, key: string) {
    || HasEntry(tool, key, Str("body"))
    || (NoEntry(tool, key) && !IsPlaceholder(py, w, tool, key) && methodName !in {"GET", "DELETE", "HEAD"})
  }

  predicate InHeader(tool: Tool, key: string, name: string) {
    HasEntry(tool, key, Str("header:" + name))
  }

  /** An entry the adapter understands. */
  predicate KnownTarget(target: Value) {
    target.Str? && (target.s == "path" || target.s == "query" || target.s == "body" || StartsWith(target.s, "header:"))
  }

  lemma EntryIs(tool: Tool, m: map<string, Value>, key: string)
    requires Or(Get(tool.config, "param_map"), Obj(map[])) == Obj(m)
    ensures NoEntry(tool, key) <==> Get(m, key) == Null
    ensures forall target :: HasEntry(tool, key, target) <==> Get(m, key) == target != Null
  {
    if !("param_map" in tool.config && tool.config["param_map"].Obj?) {
      assert m == map[];
    } else {
      assert tool.config["param_map"].members == m;
      if Get(m, key) != Null {
        assert HasEntry(tool, key, Get(m, key));
      }
    }
  }

  lemma NamedTargets(target: Value)
    ensures Named(target) == Path <==> target == Str("path")
    ensures Named(target) == Query <==> target == Str("query")
    ensures Named(target) == Body <==> target == Str("body")
    ensures forall name :: Named(target) == Header(name) <==> target == Str("header:" + name)
    ensures Named(target) != Unknown && Named(target) != Untyped <==> KnownTarget(target)
  {
    assert "path"[0] == 'p' && "query"[0] == 'q' && "body"[0] == 'b' && "header:"[0] == 'h';
    forall name ensures Named(target) == Header(name) <==> target == Str("header:" + name) {
      if target == Str("header:" + name) {
        assert HEADER_PREFIX <= target.s && target.s[|HEADER_PREFIX|..] == name && target.s[0] == 'h';
      }
    }
  }

  lemma PlaceholderIs(py: Python, w: PathTemplate.WordClass, tool: Tool, key: string)
    ensures HasTemplate(py, tool, TemplateOf(py, tool))
    ensures IsPlaceholder(py, w, tool, key) <==> key in PathTemplate.Names(w, TemplateOf(py, tool))
  {
    assert ToText(py, Str("")) == "";
  }

  /** The routing does what the configuration says, key by key. */
  lemma RoutingMeans(py: Python, w: PathTemplate.WordClass, tool: Tool, args: seq<Argument>, key: string)
    requires RoutingOf(py, w, tool, args).Some? && args != []
    ensures var r, verb := RoutingOf(py, w, tool, args).value, MethodOf(py, tool);
      && (r.To(key) == Path <==> InPath(py, w, tool, key))
      && (r.To(key) == Query <==> InQuery(py, w, tool, verb, key))
      && (r.To(key) == Body <==> InBody(py, w, tool, verb, key))
      && (forall name :: r.To(key) == Header(name) <==> InHeader(tool, key, name))
      && (r.To(key) != Unknown && r.To(key) != Untyped
          <==> NoEntry(tool, key) || exists target :: HasEntry(tool, key, target) && KnownTarget(target))
  {
    hide PathTemplate.Names, TemplateOf, MethodOf, Named, KnownTarget, HasEntry, NoEntry, IsPlaceholder, HasTemplate, Or;
    var m := Or(Get(tool.config, "param_map"), Obj(map[])).members;
    EntryIs(tool, m, key);
    PlaceholderIs(py, w, tool, key);
    NamedTargets(Get(m, key));
  }

  // ---------- The buckets ----------

  /** Exactly the arguments that belong there, in the order of the call. */
  ghost predicate Bucket(args: seq<Argument>, bucket: seq<Argument>, belongs: string -> bool) {
    exists at: seq<nat> :: BucketAt(args, bucket, belongs, at)
  }

  ghost predicate BucketAt(args: seq<Argument>, bucket: seq<Argument>, belongs: string -> bool, at: seq<nat>) {
    && |at| == |bucket|
    && (forall k | 0 <= k < |at| :: at[k] < |args| && bucket[k] == args[at[k]] && belongs(args[at[k]].key))
    && (forall k, l | 0 <= k < l < |at| :: at[k] < at[l])
    && (forall i: nat | i < |args| && belongs(args[i].key) :: i in at)
  }

  lemma {:induction false} SentInOrder(r: Routing, args: seq<Argument>, to: Target) returns (at: seq<nat>)
    ensures BucketAt(args, Sent(r, args, to), key => r.To(key) == to, at)
  {
    hide Routing.To, BucketAt;
    if args == [] {
      at := [];
      EmptyBucket(key => r.To(key) == to);
    } else {
      var n := |args| - 1;
      at := SentInOrder(r, args[..n], to);
      BucketGrows(args[..n], args[n], Sent(r, args[..n], to), key => r.To(key) == to, at);
      assert args == args[..n] + [args[n]];
      assert Sent(r, args, to) == Sent(r, args[..n], to) + if r.To(args[n].key) == to then [args[n]] else [];
      assert Sent(r, args[..n], to) + [] == Sent(r, args[..n], to);
      if r.To(args[n].key) == to { at := at + [n]; }
    }
  }

  lemma EmptyBucket(belongs: string -> bool)
    ensures BucketAt([], [], belongs, [])
  {
  }

  lemma BucketGrows(args: seq<Argument>, last: Argument, bucket: seq<Argument>, belongs: string -> bool, at: seq<nat>)
    requires BucketAt(args, bucket, belongs, at)
    ensures if belongs(last.key) then BucketAt(args + [last], bucket + [last], belongs, at + [|args|])
            else BucketAt(args + [last], bucket, belongs, at)
  {
    var all := args + [last];
    assert forall i | 0 <= i < |args| :: all[i] == args[i];
  }

  lemma BucketIs(args: seq<Argument>, bucket: seq<Argument>, f: string -> bool, g: string -> bool)
    requires Bucket(args, bucket, f) && forall a | a in args :: f(a.key) == g(a.key)
    ensures Bucket(args, bucket, g)
    ensures bucket == [] <==> forall a | a in args :: !g(a.key)
  {
    var at :| BucketAt(args, bucket, f, at);
    assert BucketAt(args, bucket, g, at);
    forall a | a in args && g(a.key) ensures bucket != [] {
      var i :| 0 <= i < |args| && args[i] == a;
      assert i in at;
    }
    if bucket != [] { assert args[at[0]] in args && g(args[at[0]].key); }
  }

  /** Where the query arguments and the body arguments come from. */
  lemma BucketsMean(py: Python, w: PathTemplate.WordClass, tool: Tool, args: seq<Argument>)
    requires RoutingOf(py, w, tool, args).Some?
    ensures var r, verb := RoutingOf(py, w, tool, args).value, MethodOf(py, tool);
      && Bucket(args, Sent(r, args, Query), key => InQuery(py, w, tool, verb, key))
      && Bucket(args, Sent(r, args, Body), key => InBody(py, w, tool, verb, key))
      && (Sent(r, args, Body) == [] <==> forall a | a in args :: !InBody(py, w, tool, verb, a.key))
  {
    hide RoutingOf, Sent, Routing.To, InPath, InQuery, InBody, MethodOf, BucketAt;
    var r, verb := RoutingOf(py, w, tool, args).value, MethodOf(py, tool);
    forall a | a in args
      ensures r.To(a.key) == Query <==> InQuery(py, w, tool, verb, a.key)
      ensures r.To(a.key) == Body <==> InBody(py, w, tool, verb, a.key)
    {
      assert args != [];
      RoutingMeans(py, w, tool, args, a.key);
    }
    var q := SentInOrder(r, args, Query);
    var b := SentInOrder(r, args, Body);
    BucketIs(args, Sent(r, args, Query), key => r.To(key) == Query, key => InQuery(py, w, tool, verb, key));
    BucketIs(args, Sent(r, args, Body), key => r.To(key) == Body, key => InBody(py, w, tool, verb, key));
  }

  // ---------- The path ----------

  /** The path arguments, as texts: those that belong in the path and nothing else. */
  ghost predicate PathTexts(py: Python, w: PathTemplate.WordClass, tool: Tool, args: seq<Argument>, values: map<string, string>) {
    && (forall a | a in args && InPath(py, w, tool, a.key) :: a.key in values && values[a.key] == ToText(py, a.value))
    && (forall key | key in values :: InPath(py, w, tool, key) && exists a :: a in args && a.key == key)
  }

  lemma {:induction false} PathKeys(py: Python, args: seq<Argument>)
    ensures forall key :: key in PathValues(py, args) <==> exists a :: a in args && a.key == key
  {
    if args != [] {
      var init, last := args[..|args| - 1], args[|args| - 1];
      assert args == init + [last];
      PathKeys(py, init);
    }
  }

  lemma {:induction false} SentIsDistinct(r: Routing, args: seq<Argument>, to: Target)
    requires DistinctKeys(args)
    ensures DistinctKeys(Sent(r, args, to))
    ensures forall a :: a in Sent(r, args, to) <==> a in args && r.To(a.key) == to
  {
    if args != [] {
      var init, last := args[..|args| - 1], args[|args| - 1];
      assert args == init + [last];
      SentIsDistinct(r, init, to);
      forall a | a in init ensures a.key != last.key {
        var i :| 0 <= i < |init| && init[i] == a;
        assert args[i].key != args[|args| - 1].key;
      }
    }
  }

  lemma PathMeans(py: Python, w: PathTemplate.WordClass, tool: Tool, args: seq<Argument>)
    requires RoutingOf(py, w, tool, args).Some? && DistinctKeys(args)
    ensures PathTexts(py, w, tool, args, PathValues(py, Sent(RoutingOf(py, w, tool, args).value, args, Path)))
  {
    hide RoutingOf, Sent, Routing.To, InPath, PathValues, DistinctKeys;
    var r := RoutingOf(py, w, tool, args).value;
    var sent := Sent(r, args, Path);
    SentIsDistinct(r, args, Path);
    PathKeys(py, sent);
    forall a | a in args ensures r.To(a.key) == Path <==> InPath(py, w, tool, a.key) {
      assert args != [];
      RoutingMeans(py, w, tool, args, a.key);
    }
    forall a | a in args && InPath(py, w, tool, a.key)
      ensures a.key in PathValues(py, sent) && PathValues(py, sent)[a.key] == ToText(py, a.value)
    {
      PathValueOf(py, sent, a);
    }
  }

  // ---------- The headers ----------

  /** The header is set by the last argument whose entry names it. */
  ghost predicate SetByArgument(py: Python, tool: Tool, args: seq<Argument>, name: string, value: string) {
    exists i :: 0 <= i < |args| && InHeader(tool, args[i].key, name)
      && value == (if args[i].value == Null then "" else ToText(py, args[i].value))
      && forall j | i < j < |args| :: !InHeader(tool, args[j].key, name)
  }

  ghost predicate ArgumentsSet(tool: Tool, args: seq<Argument>, name: string) {
    exists a :: a in args && InHeader(tool, a.key, name)
  }

  /** The caller's token, or the service's secret. */
  function TokenOf(tool: Tool, call: Call, env: Environ): string {
    if tool.passthrough then call.rawToken else if tool.secretEnvName in env then env[tool.secretEnvName] else ""
  }

  /** What the gateway itself puts there. */
  function GatewayValue(call: Call, name: string): Option<string> {
    if name == "X-Gateway-User-Id" then Some(call.userId)
    else if name == "X-Gateway-User-Roles" then Some(Join(call.roles, ","))
    else if name == "X-Gateway-Trace-Id" then Some(call.traceId)
    else if name == "X-Gateway-Tool-Name" then Some(call.toolName)
    else None
  }

  /** Header by header: an argument's value, else the customer code, else prefix and token, else the
      gateway's own value, else none. */
  ghost predicate HeaderMeant(py: Python, tool: Tool, call: Call, env: Environ, headers: map<string, string>, name: string) {
    if ArgumentsSet(tool, call.args, name) then
      name in headers && SetByArgument(py, tool, call.args, name, headers[name])
    else if name == "X-Customer-Code" && call.customerCode.Some? && call.customerCode.value != "" then
      name in headers && headers[name] == call.customerCode.value
    else if tool.authHeader == Some(name) && name != "" then
      && name in headers && headers[name] == tool.authPrefix + TokenOf(tool, call, env)
      && (!tool.passthrough ==> TokenOf(tool, call, env) != "")
    else if GatewayValue(call, name).Some? then
      name in headers && headers[name] == GatewayValue(call, name).value
    else name !in headers
  }

  lemma SetStays(py: Python, tool: Tool, args: seq<Argument>, last: Argument, name: string, value: string)
    requires SetByArgument(py, tool, args, name, value) && !InHeader(tool, last.key, name)
    ensures SetByArgument(py, tool, args + [last], name, value)
  {
    hide InHeader;
    var i :| 0 <= i < |args| && InHeader(tool, args[i].key, name)
      && value == (if args[i].value == Null then "" else ToText(py, args[i].value))
      && forall j | i < j < |args| :: !InHeader(tool, args[j].key, name);
    assert (args + [last])[i] == args[i];
  }

  lemma SetLast(py: Python, tool: Tool, args: seq<Argument>, last: Argument, name: string)
    requires InHeader(tool, last.key, name)
    ensures SetByArgument(py, tool, args + [last], name, HeaderText(py, last.value))
  {
    hide InHeader;
    assert (args + [last])[|args|] == last;
  }

  lemma {:induction false} HeadersByArguments(py: Python, tool: Tool, r: Routing, args: seq<Argument>, name: string)
    requires forall a | a in args :: r.To(a.key) == Header(name) <==> InHeader(tool, a.key, name)
    ensures name in Headers(py, r, args) <==> ArgumentsSet(tool, args, name)
    ensures name in Headers(py, r, args) ==> SetByArgument(py, tool, args, name, Headers(py, r, args)[name])
  {
    hide Routing.To, InHeader, SetByArgument;
    if args != [] {
      var init, last := args[..|args| - 1], args[|args| - 1];
      assert args == init + [last] && last in args;
      HeadersByArguments(py, tool, r, init, name);
      if r.To(last.key) == Header(name) {
        SetLast(py, tool, init, last, name);
      } else if name in Headers(py, r, args) {
        SetStays(py, tool, init, last, name, Headers(py, r, init)[name]);
      }
    }
  }

  /** Later entries replace earlier ones. */
  lemma LayersMean(call: Call, auth: map<string, string>, extra: map<string, string>, name: string)
    ensures var headers := AllHeaders(call, auth, extra);
      if name in extra then name in headers && headers[name] == extra[name]
      else if name == "X-Customer-Code" && call.customerCode.Some? && call.customerCode.value != "" then
        name in headers && headers[name] == call.customerCode.value
      else if name in auth then name in headers && headers[name] == auth[name]
      else if GatewayValue(call, name).Some? then name in headers && headers[name] == GatewayValue(call, name).value
      else name !in headers
  {
    hide Join;
  }

  lemma AuthMeans(tool: Tool, call: Call, env: Environ, name: string)
    requires AuthHeader(tool, call, env).Some?
    ensures var auth := AuthHeader(tool, call, env).value;
      && (name in auth <==> tool.authHeader == Some(name) && name != "")
      && (name in auth ==> auth[name] == tool.authPrefix + TokenOf(tool, call, env)
                           && (!tool.passthrough ==> TokenOf(tool, call, env) != ""))
  {
  }

  lemma HeadersMean(py: Python, w: PathTemplate.WordClass, tool: Tool, call: Call, env: Environ, name: string)
    requires RoutingOf(py, w, tool, call.args).Some? && AuthHeader(tool, call, env).Some?
    ensures var r := RoutingOf(py, w, tool, call.args).value;
      HeaderMeant(py, tool, call, env, AllHeaders(call, AuthHeader(tool, call, env).value, Headers(py, r, call.args)), name)
  {
    hide RoutingOf, Routing.To, InHeader, Headers, ArgumentsSet, SetByArgument, AllHeaders, AuthHeader, TokenOf, GatewayValue;
    var r := RoutingOf(py, w, tool, call.args).value;
    forall a | a in call.args ensures r.To(a.key) == Header(name) <==> InHeader(tool, a.key, name) {
      assert call.args != [];
      RoutingMeans(py, w, tool, call.args, a.key);
    }
    HeadersByArguments(py, tool, r, call.args, name);
    LayersMean(call, AuthHeader(tool, call, env).value, Headers(py, r, call.args), name);
    AuthMeans(tool, call, env, name);
  }

  // ---------- The request ----------

  /** The base URL without the slashes at its end. */
  predicate Trimmed(base: string, trimmed: string) {
    && trimmed <= base && (forall i | |trimmed| <= i < |base| :: base[i] == '/')
    && (trimmed != "" ==> trimmed[|trimmed| - 1] != '/')
  }

  lemma {:induction false} TrimMeans(s: string)
    ensures Trimmed(s, TrimSlashes(s))
  {
    if s != "" && s[|s| - 1] == '/' { TrimMeans(s[..|s| - 1]); }
  }

  ghost predicate BaseIs(tool: Tool, env: Environ, base: string) {
    && "base_url_env" in tool.config && tool.config["base_url_env"].Str?
    && tool.config["base_url_env"].s in env && env[tool.config["base_url_env"].s] == base != ""
  }

  /** No body without body arguments; otherwise they, under the wrapper's key if there is one. */
  ghost predicate BodyMeant(py: Python, w: PathTemplate.WordClass, tool: Tool, verb: string, args: seq<Argument>, body: Content) {
    match body
    case NoContent => forall a | a in args :: !InBody(py, w, tool, verb, a.key)
    case Flat(sent) =>
      sent != [] && !Truthy(Get(tool.config, "body_wrap")) && Bucket(args, sent, key => InBody(py, w, tool, verb, key))
    case Wrapped(key, sent) =>
      && sent != [] && Truthy(Get(tool.config, "body_wrap")) && key == Get(tool.config, "body_wrap")
      && Bucket(args, sent, k => InBody(py, w, tool, verb, k))
  }

  /** The whole request, from the tool's configuration, the arguments and the environment. */
  ghost predicate RequestMeant(py: Python, w: PathTemplate.WordClass, tool: Tool, call: Call, env: Environ, q: Request) {
    && q.methodName == py.upper(if "method" in tool.config then ToText(py, tool.config["method"]) else "GET")
    && Bucket(call.args, q.query, key => InQuery(py, w, tool, q.methodName, key))
    && BodyMeant(py, w, tool, q.methodName, call.args, q.body)
    && UrlMeant(py, w, tool, call.args, env, q.url)
    && forall name :: HeaderMeant(py, tool, call, env, q.headers, name)
  }

  ghost predicate UrlMeant(py: Python, w: PathTemplate.WordClass, tool: Tool, args: seq<Argument>, env: Environ, url: string) {
    exists base, trimmed, template, values, path ::
      && BaseIs(tool, env, base) && Trimmed(base, trimmed) && HasTemplate(py, tool, template)
      && PathTexts(py, w, tool, args, values) && PathTemplate.Render(w, template, values) == Ok(path)
      && url == trimmed + path
  }

  lemma UrlMeans(py: Python, w: PathTemplate.WordClass, tool: Tool, call: Call, env: Environ, defaultRetries: int)
    requires Ready(py, w, tool, call, env, defaultRetries) && DistinctKeys(call.args)
    ensures UrlMeant(py, w, tool, call.args, env, RequestOf(py, w, tool, call, env, defaultRetries).url)
  {
    hide RoutingOf, Sent, Headers, AllHeaders, AuthHeader, ContentOf, PathValues, PathTexts, TemplateOf, HasTemplate,
      PathTemplate.Render, TrimSlashes, Trimmed, Routable, MethodOf;
    var r := RoutingOf(py, w, tool, call.args).value;
    var base := BaseUrl(tool, env).value;
    TrimMeans(base);
    PlaceholderIs(py, w, tool, "");
    PathMeans(py, w, tool, call.args);
    var values := PathValues(py, Sent(r, call.args, Path));
    var path := RenderedPath(py, w, r, TemplateOf(py, tool), call.args).value;
    assert BaseIs(tool, env, base);
    assert PathTemplate.Render(w, TemplateOf(py, tool), values) == Ok(path);
  }

  lemma BodyMeans(py: Python, w: PathTemplate.WordClass, tool: Tool, args: seq<Argument>)
    requires RoutingOf(py, w, tool, args).Some?
    requires ContentOf(Get(tool.config, "body_wrap"), Sent(RoutingOf(py, w, tool, args).value, args, Body)).Some?
    ensures var sent := Sent(RoutingOf(py, w, tool, args).value, args, Body);
      BodyMeant(py, w, tool, MethodOf(py, tool), args, ContentOf(Get(tool.config, "body_wrap"), sent).value)
  {
    hide RoutingOf, Sent, MethodOf, InBody, InQuery, InPath, BucketAt;
    BucketsMean(py, w, tool, args);
    var verb, sent := MethodOf(py, tool), Sent(RoutingOf(py, w, tool, args).value, args, Body);
    BucketIs(args, sent, key => InBody(py, w, tool, verb, key), key => InBody(py, w, tool, verb, key));
  }

  /** Every request `invoke` makes is the one that is meant: each argument where its entry, the
      path template or the method's default puts it, the headers with the caller's token or the
      service's secret, the path rendered from the path arguments. */
  lemma RequestMeans(py: Python, w: PathTemplate.WordClass, tool: Tool, call: Call, env: Environ, defaultRetries: int)
    requires Ready(py, w, tool, call, env, defaultRetries) && DistinctKeys(call.args)
    ensures RequestMeant(py, w, tool, call, env, RequestOf(py, w, tool, call, env, defaultRetries))
  {
    hide RoutingOf, Sent, Headers, AllHeaders, AuthHeader, ContentOf, PathValues, TemplateOf, RenderedPath, TrimSlashes,
      Routable, InBody, InQuery, InPath, UrlMeant, BodyMeant, HeaderMeant, BaseUrl, RetriesFor, TimeoutOk;
    UrlMeans(py, w, tool, call, env, defaultRetries);
    BucketsMean(py, w, tool, call.args);
    BodyMeans(py, w, tool, call.args);
    forall name
      ensures HeaderMeant(py, tool, call, env, RequestOf(py, w, tool, call, env, defaultRetries).headers, name)
    {
      HeadersMean(py, w, tool, call, env, name);
    }
  }

  // ---------- When there is a request ----------

  ghost predicate PlaceholdersFilled(py: Python, w: PathTemplate.WordClass, tool: Tool, args: seq<Argument>) {
    forall key | IsPlaceholder(py, w, tool, key) :: InPath(py, w, tool, key) && exists a :: a in args && a.key == key
  }

  /** Arguments can be routed and the path rendered exactly when the parameter map is one (or is not
      asked), its entries for the arguments are understood, and every placeholder gets an argument. */
  lemma RoutesMean(py: Python, w: PathTemplate.WordClass, tool: Tool, args: seq<Argument>)
    requires DistinctKeys(args)
    ensures var routing := RoutingOf(py, w, tool, args);
      && (routing.None? <==> args != [] && Truthy(Get(tool.config, "param_map")) && !Get(tool.config, "param_map").Obj?)
      && (routing.Some? ==>
            && (Routable(routing.value, args) <==> forall a | a in args ::
                  NoEntry(tool, a.key) || exists target :: HasEntry(tool, a.key, target) && KnownTarget(target))
            && (RenderedPath(py, w, routing.value, TemplateOf(py, tool), args).Ok? <==> PlaceholdersFilled(py, w, tool, args)))
  {
    hide Sent, TemplateOf, MethodOf, PathTemplate.Names, PathTemplate.Render, HasEntry, KnownTarget, NoEntry, IsPlaceholder, InPath, InQuery, InBody, PathValues, Routing.To;
    var routing := RoutingOf(py, w, tool, args);
    if routing.Some? {
      hide RoutingOf;
      forall a | a in args
        ensures routing.value.To(a.key) != Unknown && routing.value.To(a.key) != Untyped
          <==> NoEntry(tool, a.key) || exists target :: HasEntry(tool, a.key, target) && KnownTarget(target)
      {
        assert args != [];
        RoutingMeans(py, w, tool, args, a.key);
      }
      PathFilled(py, w, tool, args);
    }
  }

  lemma PathFilled(py: Python, w: PathTemplate.WordClass, tool: Tool, args: seq<Argument>)
    requires RoutingOf(py, w, tool, args).Some? && DistinctKeys(args)
    ensures RenderedPath(py, w, RoutingOf(py, w, tool, args).value, TemplateOf(py, tool), args).Ok? <==> PlaceholdersFilled(py, w, tool, args)
  {
    hide RoutingOf, Sent, TemplateOf, PathTemplate.Names, PathTemplate.Render, IsPlaceholder, InPath, PathValues;
    var values := PathValues(py, Sent(RoutingOf(py, w, tool, args).value, args, Path));
    var names := PathTemplate.Names(w, TemplateOf(py, tool));
    PathTemplate.RenderSucceeds(w, TemplateOf(py, tool), values);
    PathMeans(py, w, tool, args);
    forall key ensures IsPlaceholder(py, w, tool, key) <==> key in names {
      PlaceholderIs(py, w, tool, key);
    }
    if PlaceholdersFilled(py, w, tool, args) {
      forall key | key in names ensures key in values {
        assert IsPlaceholder(py, w, tool, key);
        var a :| a in args && a.key == key;
      }
    }
  }

  /** The retry budget: none for a caller's own token, else the configured number, if it is one, or
      the default; never less than zero when configured. */
  lemma BudgetMeans(py: Python, tool: Tool, defaultRetries: int)
    ensures var budget, configured := RetriesFor(py, tool, defaultRetries), Get(tool.config, "retries");
      && (tool.passthrough ==> budget == Some(0))
      && (!tool.passthrough && configured == Null ==> budget == Some(defaultRetries))
      && (!tool.passthrough && configured != Null ==>
            && (budget.Some? <==> ToInt(py, configured).Some?)
            && (budget.Some? ==> budget.value >= 0 && budget.value >= ToInt(py, configured).value
                                 && (budget.value == 0 || budget.value == ToInt(py, configured).value)))
  {
  }

  // ---------- When there is none ----------

  /** The configuration names no variable, or one that is not set. */
  predicate BaseMissing(tool: Tool, env: Environ) {
    var name := Get(tool.config, "base_url_env");
    !Truthy(name) || (name.Str? && (name.s !in env || env[name.s] == ""))
  }

  predicate BaseRaises(tool: Tool) {
    Truthy(Get(tool.config, "base_url_env")) && !Get(tool.config, "base_url_env").Str?
  }

  /** `float()` refuses the configured timeout. */
  predicate TimeoutRaises(py: Python, tool: Tool) {
    var timeout := Get(tool.config, "timeout_sec");
    Truthy(timeout) && (timeout.Arr? || timeout.Obj? || (timeout.Str? && !py.parsesFloat(timeout.s)))
  }

  /** `int()` refuses the configured number of retries. */
  predicate RetriesRaise(py: Python, tool: Tool) {
    var retries := Get(tool.config, "retries");
    !tool.passthrough && (retries.Arr? || retries.Obj? || (retries.Str? && py.parseInt(retries.s).None?))
  }

  /** There are arguments and something that is no object to look them up in. */
  predicate MapRaises(tool: Tool, args: seq<Argument>) {
    args != [] && Truthy(Get(tool.config, "param_map")) && !Get(tool.config, "param_map").Obj?
  }

  /** The i-th argument is the first whose entry is not understood. */
  ghost predicate FirstBad(tool: Tool, args: seq<Argument>, i: nat, target: Value) {
    && i < |args| && HasEntry(tool, args[i].key, target) && !KnownTarget(target)
    && forall j, other | 0 <= j < i && HasEntry(tool, args[j].key, other) :: KnownTarget(other)
  }

  ghost predicate WrapRaises(py: Python, w: PathTemplate.WordClass, tool: Tool, args: seq<Argument>) {
    && Truthy(Get(tool.config, "body_wrap")) && (Get(tool.config, "body_wrap").Arr? || Get(tool.config, "body_wrap").Obj?)
    && exists a :: a in args && InBody(py, w, tool, MethodOf(py, tool), a.key)
  }

  predicate SecretMissing(tool: Tool, env: Environ) {
    && tool.authHeader.Some? && tool.authHeader.value != "" && !tool.passthrough
    && (tool.secretEnvName !in env || env[tool.secretEnvName] == "")
  }

  /** The error when no request is made, cause by cause in the order they are met. */
  ghost predicate ErrorMeant(py: Python, w: PathTemplate.WordClass, tool: Tool, call: Call, env: Environ, e: CallError) {
    if BaseMissing(tool, env) then e == ConfigError
    else if BaseRaises(tool) || TimeoutRaises(py, tool) || RetriesRaise(py, tool) || MapRaises(tool, call.args) then e == CallError.Raised
    else if exists i, target :: FirstBad(tool, call.args, i, target) then
      exists i, target :: FirstBad(tool, call.args, i, target)
        && e == if target.Str? then Unroutable(UnknownTarget) else CallError.Raised
    else if !PlaceholdersFilled(py, w, tool, call.args) then
      && e.Unroutable? && e.reason.MissingPathArgument? && IsPlaceholder(py, w, tool, e.reason.name)
      && !(InPath(py, w, tool, e.reason.name) && exists a :: a in call.args && a.key == e.reason.name)
    else if WrapRaises(py, w, tool, call.args) then e == CallError.Raised
    else SecretMissing(tool, env) && e == ConfigError
  }

  /** Nothing is missing. */
  ghost predicate NothingMissing(py: Python, w: PathTemplate.WordClass, tool: Tool, call: Call, env: Environ) {
    && !BaseMissing(tool, env) && !BaseRaises(tool) && !TimeoutRaises(py, tool) && !RetriesRaise(py, tool)
    && !MapRaises(tool, call.args) && (forall i, target :: !FirstBad(tool, call.args, i, target))
    && PlaceholdersFilled(py, w, tool, call.args) && !WrapRaises(py, w, tool, call.args) && !SecretMissing(tool, env)
  }

  lemma SettingsMean(py: Python, tool: Tool, call: Call, env: Environ, defaultRetries: int)
    ensures BaseUrl(tool, env).Ok? <==> !BaseMissing(tool, env) && !BaseRaises(tool)
    ensures BaseUrl(tool, env) == Err(ConfigError) <==> BaseMissing(tool, env)
    ensures TimeoutOk(py, tool) <==> !TimeoutRaises(py, tool)
    ensures RetriesFor(py, tool, defaultRetries).None? <==> RetriesRaise(py, tool)
    ensures AuthHeader(tool, call, env).None? <==> SecretMissing(tool, env)
  {
  }

  /** The position of the first argument that cannot be routed. */
  lemma {:induction false} FirstUnroutable(r: Routing, args: seq<Argument>) returns (i: nat)
    requires !Routable(r, args)
    ensures i < |args| && Routable(r, args[..i]) && (r.To(args[i].key) == Unknown || r.To(args[i].key) == Untyped)
    decreases |args|
  {
    hide Routing.To;
    var init, last := args[..|args| - 1], args[|args| - 1];
    assert args == init + [last];
    if Routable(r, init) {
      i := |args| - 1;
    } else {
      i := FirstUnroutable(r, init);
      assert init[..i] == args[..i];
    }
  }

  lemma RefusalMeans(py: Python, w: PathTemplate.WordClass, tool: Tool, args: seq<Argument>)
    requires RoutingOf(py, w, tool, args).Some?
    ensures var e := Refusal(RoutingOf(py, w, tool, args).value, args);
      && (e.None? <==> forall i, target :: !FirstBad(tool, args, i, target))
      && (e.Some? ==> exists i, target :: FirstBad(tool, args, i, target) && e.value == if target.Str? then UnknownTarget else RaisedMapping)
  {
    hide RoutingOf, Routing.To, HasEntry, KnownTarget, Refusal;
    var r := RoutingOf(py, w, tool, args).value;
    forall i: nat | i < |args|
      ensures r.To(args[i].key) == Unknown <==> exists target :: HasEntry(tool, args[i].key, target) && target.Str? && !KnownTarget(target)
      ensures r.To(args[i].key) == Untyped <==> exists target :: HasEntry(tool, args[i].key, target) && !target.Str?
      ensures args[i] in args
    {
      TargetMeans(py, w, tool, args, args[i].key);
    }
    NamesAreTexts();
    if !Routable(r, args) {
      var i := FirstUnroutable(r, args);
      RefusalAt(r, args, i);
      if r.To(args[i].key) == Unknown {
        var target :| HasEntry(tool, args[i].key, target) && target.Str? && !KnownTarget(target);
        EarlierKnown(py, w, tool, args, i);
        assert FirstBad(tool, args, i, target);
      } else {
        var target :| HasEntry(tool, args[i].key, target) && !target.Str?;
        EarlierKnown(py, w, tool, args, i);
        assert FirstBad(tool, args, i, target);
      }
    }
  }

  lemma NamesAreTexts()
    ensures forall target | KnownTarget(target) :: target.Str?
  {
  }

  lemma EarlierKnown(py: Python, w: PathTemplate.WordClass, tool: Tool, args: seq<Argument>, i: nat)
    requires i < |args| && RoutingOf(py, w, tool, args).Some? && Routable(RoutingOf(py, w, tool, args).value, args[..i])
    ensures forall j, other | 0 <= j < i && HasEntry(tool, args[j].key, other) :: KnownTarget(other)
  {
    hide RoutingOf, Routing.To, HasEntry, KnownTarget;
    forall j, other | 0 <= j < i && HasEntry(tool, args[j].key, other) ensures KnownTarget(other) {
      assert args[..i][j] == args[j] && args[j] in args[..i];
      TargetMeans(py, w, tool, args, args[j].key);
    }
  }

  lemma TargetMeans(py: Python, w: PathTemplate.WordClass, tool: Tool, args: seq<Argument>, key: string)
    requires args != [] && RoutingOf(py, w, tool, args).Some?
    ensures var to := RoutingOf(py, w, tool, args).value.To(key);
      && (to == Unknown <==> exists target :: HasEntry(tool, key, target) && target.Str? && !KnownTarget(target))
      && (to == Untyped <==> exists target :: HasEntry(tool, key, target) && !target.Str?)
  {
    hide PathTemplate.Names, TemplateOf, MethodOf, HasEntry, NoEntry, Or, KnownTarget;
    var m := Or(Get(tool.config, "param_map"), Obj(map[])).members;
    EntryIs(tool, m, key);
    NamedTargets(Get(m, key));
  }

  /** A request is made exactly when nothing is missing; otherwise the error tells the first cause. */
  lemma CausesMean(py: Python, w: PathTemplate.WordClass, tool: Tool, call: Call, env: Environ, defaultRetries: int)
    requires DistinctKeys(call.args)
    ensures Ready(py, w, tool, call, env, defaultRetries) <==> NothingMissing(py, w, tool, call, env)
    ensures !Ready(py, w, tool, call, env, defaultRetries) ==>
      ErrorMeant(py, w, tool, call, env, Obstacle(py, w, tool, call, env, defaultRetries))
  {
    hide BaseUrl, TimeoutOk, RetriesFor, AuthHeader, BaseMissing, BaseRaises, TimeoutRaises, RetriesRaise, SecretMissing,
      FirstBad, PlaceholdersFilled, Refusal, Routable, RenderedPath, Sent, RoutingOf, MapRaises, WrapRaises, IsPlaceholder, InPath, TemplateOf, Headers, ContentOf;
    SettingsMean(py, tool, call, env, defaultRetries);
    RoutesMean(py, w, tool, call.args);
    assert RoutingOf(py, w, tool, call.args).None? <==> MapRaises(tool, call.args) by { MapMeans(py, w, tool, call.args); }
    if RoutingOf(py, w, tool, call.args).Some? {
      RefusalMeans(py, w, tool, call.args);
      WrapMeans(py, w, tool, call.args);
      MissingMeans(py, w, tool, call.args);
    }
  }

  lemma MapMeans(py: Python, w: PathTemplate.WordClass, tool: Tool, args: seq<Argument>)
    ensures RoutingOf(py, w, tool, args).None? <==> MapRaises(tool, args)
  {
    hide TemplateOf, MethodOf, PathTemplate.Names;
  }

  lemma WrapMeans(py: Python, w: PathTemplate.WordClass, tool: Tool, args: seq<Argument>)
    requires RoutingOf(py, w, tool, args).Some?
    ensures ContentOf(Get(tool.config, "body_wrap"), Sent(RoutingOf(py, w, tool, args).value, args, Body)).None?
      <==> WrapRaises(py, w, tool, args)
  {
    hide RoutingOf, Sent, InBody, InPath, InQuery, MethodOf, Bucket;
    BucketsMean(py, w, tool, args);
  }

  lemma MissingMeans(py: Python, w: PathTemplate.WordClass, tool: Tool, args: seq<Argument>)
    requires RoutingOf(py, w, tool, args).Some? && DistinctKeys(args)
    ensures var path := RenderedPath(py, w, RoutingOf(py, w, tool, args).value, TemplateOf(py, tool), args);
      path.Err? ==>
        IsPlaceholder(py, w, tool, path.error)
        && !(InPath(py, w, tool, path.error) && exists a :: a in args && a.key == path.error)
  {
    hide RoutingOf, Sent, TemplateOf, PathTemplate.Names, PathTemplate.Render, IsPlaceholder, InPath, PathValues;
    var values := PathValues(py, Sent(RoutingOf(py, w, tool, args).value, args, Path));
    PathTemplate.RenderSucceeds(w, TemplateOf(py, tool), values);
    PathMeans(py, w, tool, args);
    var path := RenderedPath(py, w, RoutingOf(py, w, tool, args).value, TemplateOf(py, tool), args);
    if path.Err? { PlaceholderIs(py, w, tool, path.error); }
  }
}
