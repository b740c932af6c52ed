/** What the handler answers and records, told from the message and the tools the caller may see. */
module McpReplies {
  import opened Prelude
  import opened Json
  import opened ToolCache
  import opened Registry
  import opened McpHandler
  import McpBatch
  import Text

  /** The member of an object; Null when it is absent. */
  function Member(v: Value, key: string): Value {
    if v.Obj? && key in v.members then v.members[key] else Null
  }

  /** A message for this method. */
  predicate Asks(msg: Value, verb: string) {
    Member(msg, "jsonrpc") == Str("2.0") && Member(msg, "method") == Str(verb)
  }

  /** An argument object left out, or given as something Python takes for false, is the empty one. */
  predicate Gives(v: Value, given: Value) {
    if given == Null || given == Bool(false) || given == Int(0) || given == Str("") || given == Arr([]) then v == Obj(map[])
    else v == given
  }

  /** A call of the named tool with these arguments. */
  predicate Calls(msg: Value, name: string, args: Value) {
    && Asks(msg, "tools/call") && Member(msg, "params").Obj?
    && Member(Member(msg, "params"), "name") == Str(name) && name != ""
    && args.Obj? && Gives(args, Member(Member(msg, "params"), "arguments"))
  }

  function Answered(response: Response, rows: seq<Row>): Exchange {
    Exchange(Respond(response), rows)
  }

  /** What calling a visible tool leads to: the arguments of the message are validated against the
      tool's schema and handed to its dispatcher, and the row and the response tell what came of it. */
  ghost predicate CallsTool(env: Env, n: nat, id: Value, t: ToolView, args: Value, x: Exchange) {
    match env.validate(args, t.inputSchema)
    case Broken(text) => x == Answered(Error(id, -32603, "internal error: " + text, None), [])
    case Mismatch(message) =>
      x == Answered(
        Error(id, -32602, "invalid params: " + message, None),
        [Row(t.name, args, "error", Some(t.id), env.scan(args), None, Some("schema: " + message), Some(-32602), Some("schema_validation"))])
    case Fine =>
      if t.dispatcher !in env.dispatchers then
        x == Answered(
          Error(id, -32603, "unknown dispatcher: " + t.dispatcher, None),
          [Row(t.name, args, "error", Some(t.id), env.scan(args), None, Some("unknown dispatcher: " + t.dispatcher),
               Some(-32603), Some("unknown_dispatcher"))])
      else Dispatches(env, id, t, args, env.invoke(n, t, args), x)
  }

  ghost predicate Dispatches(env: Env, id: Value, t: ToolView, args: Value, result: Invocation, x: Exchange) {
    match result
    case Returned(content, isError) =>
      x == Answered(
        Success(id, Called(content, isError)),
        [Row(t.name, args, "ok", Some(t.id), env.scan(args), None, None, None, None)])
    case Refused(message, code, kind, upstream) =>
      x == Answered(
        Error(id, code, message, Some(ErrorData(kind, upstream))),
        [Row(t.name, args, "error", Some(t.id), env.scan(args), None, Some(kind + ": " + message), Some(code), Some(kind))])
    case Threw(text) =>
      x == Answered(
        Error(id, -32603, "internal error: " + text, None),
        [Row(t.name, args, "error", Some(t.id), env.scan(args), None, Some(text), Some(-32603), Some("internal_error"))])
  }

  /** A call of a tool the caller sees does what `CallsTool` says with the arguments of the message;
      a call of any other name is denied and recorded as denied. */
  lemma CallMeans(env: Env, n: nat, msg: Value, p: Principal, load: Load, name: string, args: Value)
    requires Calls(msg, name, args) && load.Ok? && UniqueNames(load.value)
    ensures var x, id := Handled(env, n, msg, p, load), Member(msg, "id");
      && (forall t | t in List(load.value, p) && t.name == name :: CallsTool(env, n, id, t, args, x))
      && ((forall t | t in List(load.value, p) :: t.name != name) ==>
            x == Answered(
              Error(id, -32001, "tool '" + name + "' not found", None),
              [Row(name, args, "denied", None, [], Some("not_found_or_no_role"), None, Some(-32001), Some("not_found_or_no_role"))]))
  {
    hide List, UniqueNames, Find, Text.StartsWith, CallFound, CallsTool;
    McpBatch.CallIsNoNotification();
    var id := Member(msg, "id");
    FindAgreesWithList(load.value, name, p);
    CallIsHandled(env, n, msg, p, load, name, args);
    forall t | t in List(load.value, p) && t.name == name
      ensures CallsTool(env, n, id, t, args, Handled(env, n, msg, p, load))
    {
      McpBatch.ListedOnce(load.value, t, Find(Index(load.value), name, p).value, p);
      FoundIsCalled(env, n, id, t, args);
    }
  }

  lemma CallIsHandled(env: Env, n: nat, msg: Value, p: Principal, load: Load, name: string, args: Value)
    requires Calls(msg, name, args) && load.Ok?
    ensures Handled(env, n, msg, p, load) == Call(env, n, Member(msg, "id"), Member(msg, "params"), p, load)
    ensures Field(Member(msg, "params"), "name") == Str(name) && FieldOrEmpty(Member(msg, "params"), "arguments") == args
  {
    hide Call, Text.StartsWith;
    McpBatch.CallIsNoNotification();
  }

  lemma FoundIsCalled(env: Env, n: nat, id: Value, t: ToolView, args: Value)
    ensures CallsTool(env, n, id, t, args, CallFound(env, n, id, t.name, args, t))
  {
  }

  /** A call that does not get as far as the lookup, or whose lookup fails, writes no row. */
  lemma BadCallMeans(env: Env, n: nat, msg: Value, p: Principal, load: Load)
    requires Asks(msg, "tools/call")
    ensures var x, id, params := Handled(env, n, msg, p, load), Member(msg, "id"), Member(msg, "params");
      var name, given := Member(params, "name"), Member(params, "arguments");
      && (Truthy(params) && !params.Obj? ==> x == Answered(Error(id, -32603, "internal error: " + env.noGet(params), None), []))
      && (!Truthy(params) || (params.Obj? && (!name.Str? || name.s == "")) ==>
            x == Answered(Error(id, -32602, "missing tool name", None), []))
      && (params.Obj? && name.Str? && name.s != "" && Truthy(given) && !given.Obj? ==>
            x == Answered(Error(id, -32602, "arguments must be object", None), []))
      && (params.Obj? && name.Str? && name.s != "" && (Truthy(given) ==> given.Obj?) && load.Err? ==>
            x == Answered(Error(id, -32603, "internal error: " + load.error, None), []))
  {
    hide Text.StartsWith, CallFound, Find;
    McpBatch.CallIsNoNotification();
  }

  /** The listing shows the visible tools, one entry each and in order. */
  lemma ListMeans(env: Env, n: nat, msg: Value, p: Principal, load: Load)
    requires Asks(msg, "tools/list")
    ensures var x, id := Handled(env, n, msg, p, load), Member(msg, "id");
      && (load.Err? ==> x == Answered(Error(id, -32603, "internal error: " + load.error, None), []))
      && (load.Ok? ==>
            && x.outcome.Respond? && x.rows == []
            && x.outcome.response.Success? && x.outcome.response.id == id && x.outcome.response.payload.Tools?
            && (var entries, listed := x.outcome.response.payload.tools, List(load.value, p);
                && |entries| == |listed|
                && forall i | 0 <= i < |listed| ::
                     entries[i].name == listed[i].name && entries[i].description == listed[i].description
                     && entries[i].inputSchema == listed[i].inputSchema))
  {
    hide Text.StartsWith, List, Call;
    McpBatch.CallIsNoNotification();
  }

  /** From the rows of the table: the entries of a listing are those of the granted rows, in order. */
  lemma ListedRows(env: Env, n: nat, msg: Value, p: Principal, views: seq<ToolView>, rows: seq<ToolRow>)
    requires Asks(msg, "tools/list") && Shows(views, rows)
    ensures var x := Handled(env, n, msg, p, Ok(views));
      && x.outcome.Respond? && x.outcome.response.Success? && x.outcome.response.payload.Tools?
      && exists at: seq<nat> :: EntriesAt(rows, p, x.outcome.response.payload.tools, at)
  {
    hide Handled, List, Describes, Granted;
    ListMeans(env, n, msg, p, Ok(views));
    ListedAreGranted(views, rows, p);
    var listed := List(views, p);
    var at :| ListsRowsAt(rows, p, listed, at);
    EntriesOfRows(rows, p, listed, Handled(env, n, msg, p, Ok(views)).outcome.response.payload.tools, at);
  }

  lemma EntriesOfRows(rows: seq<ToolRow>, p: Principal, listed: seq<ToolView>, entries: seq<Entry>, at: seq<nat>)
    requires ListsRowsAt(rows, p, listed, at) && |entries| == |listed|
    requires forall i | 0 <= i < |listed| ::
      entries[i].name == listed[i].name && entries[i].description == listed[i].description
      && entries[i].inputSchema == listed[i].inputSchema
    ensures EntriesAt(rows, p, entries, at)
  {
    hide Granted;
  }

  ghost predicate EntriesAt(rows: seq<ToolRow>, p: Principal, entries: seq<Entry>, at: seq<nat>) {
    && |at| == |entries|
    && (forall k | 0 <= k < |at| ::
          at[k] < |rows| && Granted(rows[at[k]], p)
          && entries[k] == Entry(rows[at[k]].name, rows[at[k]].description, rows[at[k]].inputSchema))
    && (forall k, l | 0 <= k < l < |at| :: at[k] < at[l])
    && (forall i: nat | i < |rows| && Granted(rows[i], p) :: i in at)
  }

  /** The other messages, none of which reads the registry or writes a row. */
  lemma OthersMean(env: Env, n: nat, msg: Value, p: Principal, load: Load)
    requires !Asks(msg, "tools/list") && !Asks(msg, "tools/call")
    ensures var x, id, verb := Handled(env, n, msg, p, load), Member(msg, "id"), Member(msg, "method");
      var version := Member(Member(msg, "params"), "protocolVersion");
      && (Member(msg, "jsonrpc") != Str("2.0") ==> x == Answered(Error(id, -32602, "invalid JSON-RPC envelope", None), []))
      && (Member(msg, "jsonrpc") == Str("2.0") ==>
            && (verb == Null ==> x == Answered(Error(id, -32602, "missing method", None), []))
            && (verb == Str("ping") ==> x == Answered(Success(id, Pong), []))
            && (verb == Str("initialized") || verb == Str("notifications/initialized") ==> x == Exchange(Silent, []))
            && (verb == Str("initialize") && (Truthy(Member(msg, "params")) ==> Member(msg, "params").Obj?) ==>
                  x == Answered(Success(id, Initialized(if version.Str? then version.s else "2024-11-05", env.serverName, env.serverVersion)), []))
            && (id == Null && verb.Str? && Text.StartsWith(verb.s, "notifications/") ==> x == Exchange(Silent, []))
            && (verb.Str? && !(id == Null && Text.StartsWith(verb.s, "notifications/"))
                && verb.s !in {"initialize", "initialized", "notifications/initialized", "ping"} ==>
                  x == Answered(Error(id, -32601, "method not found: " + verb.s, None), [])))
  {
    hide Call, Text.StartsWith;
    NoOtherNotification();
  }

  lemma NoOtherNotification()
    ensures !Text.StartsWith("ping", "notifications/") && !Text.StartsWith("initialize", "notifications/")
  {
  }
}
