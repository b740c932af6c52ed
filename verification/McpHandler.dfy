/** The JSON-RPC handler shared by the transports, its batches and its audit rows. */
module McpHandler {
  import opened Prelude
  import opened Json
  import opened Text
  import opened ToolCache
  import opened Registry

  const METHOD_NOT_FOUND := -32601
  const INVALID_PARAMS := -32602
  const INTERNAL_ERROR := -32603
  const TOOL_NOT_FOUND := -32001
  const NO_GRANT := "not_found_or_no_role"
  const SUPPORTED_VERSION := "2024-11-05"

  // ---------- What the handler calls ----------

  /** Validating arguments against a schema; `Broken` is any exception but a mismatch. */
  datatype Validity = Fine | Mismatch(message: string) | Broken(text: string)

  datatype Invocation =
    | Returned(content: Value, isError: bool)
    | Refused(message: string, code: int, kind: string, upstream: Option<int>)
    | Threw(text: string)

  /** `invoke` may answer differently for every message; `noGet` is the exception text for params
      that are no object. */
  datatype Env = Env(
    py: Python, serverName: string, serverVersion: string, noGet: Value -> string,
    validate: (Value, Value) -> Validity, scan: Value -> seq<string>,
    dispatchers: set<string>, invoke: (nat, ToolView, Value) -> Invocation)

  /** What refreshing the registry leaves: its tools, or the text of the exception. */
  type Load = Result<seq<ToolView>, string>

  // ---------- What it answers and records ----------

  datatype Entry = Entry(name: string, description: string, inputSchema: Value)

  datatype Payload =
    | Initialized(version: string, serverName: string, serverVersion: string)
    | Pong
    | Tools(tools: seq<Entry>)
    | Called(content: Value, isError: bool)

  datatype ErrorData = ErrorData(kind: string, upstreamStatus: Option<int>)

  datatype Response =
    | Success(id: Value, payload: Payload)
    | Error(id: Value, code: int, message: string, data: Option<ErrorData>)

  /** `Crash`: the exception leaves the handler. */
  datatype Outcome = Respond(response: Response) | Silent | Crash

  /** An audit row without its caller, trace id and times. */
  datatype Row = Row(
    toolName: string, arguments: Value, status: string, toolId: Option<int>, sensitive: seq<string>,
    denyReason: Option<string>, errorMessage: Option<string>, errorCode: Option<int>, errorKind: Option<string>)

  /** What one message leads to. */
  datatype Exchange = Exchange(outcome: Outcome, rows: seq<Row>)

  function Fail(id: Value, code: int, message: string): Exchange {
    Exchange(Respond(Error(id, code, message, None)), [])
  }

  function Crashed(id: Value, text: string): Exchange {
    Fail(id, INTERNAL_ERROR, "internal error: " + text)
  }

  // ---------- The messages ----------

  predicate Envelope(msg: Value) {
    msg.Obj? && Get(msg.members, "jsonrpc") == Str("2.0")
  }

  function Field(msg: Value, key: string): Value {
    if msg.Obj? then Get(msg.members, key) else Null
  }

  /** `msg.get(key) or {}`. */
  function FieldOrEmpty(msg: Value, key: string): Value {
    Or(Field(msg, key), Obj(map[]))
  }

  function RequestId(msg: Value): Value {
    Field(msg, "id")
  }

  predicate NamesNotification(verb: Value) {
    verb.Str? && StartsWith(verb.s, "notifications/")
  }

  predicate IsInitializedNotice(verb: Value) {
    verb == Str("notifications/initialized") || verb == Str("initialized")
  }

  /** The messages the handler does not answer. */
  predicate Omitted(msg: Value) {
    && Envelope(msg)
    && ((RequestId(msg) == Null && NamesNotification(Field(msg, "method")))
        || IsInitializedNotice(Field(msg, "method")))
  }

  /** The messages the handler cannot survive: no id and a method that is no text. */
  predicate Fatal(msg: Value) {
    Envelope(msg) && RequestId(msg) == Null && Field(msg, "method") != Null && !Field(msg, "method").Str?
  }

  // ---------- tools/call ----------

  function ErrorRow(name: string, args: Value, tool: ToolView, hit: seq<string>, message: string, code: int, kind: string): Row {
    Row(name, args, "error", Some(tool.id), hit, None, Some(message), Some(code), Some(kind))
  }

  function DeniedRow(name: string, args: Value): Row {
    Row(name, args, "denied", None, [], Some(NO_GRANT), None, Some(TOOL_NOT_FOUND), Some(NO_GRANT))
  }

  function Invoked(env: Env, n: nat, id: Value, name: string, args: Value, tool: ToolView): Exchange {
    var hit := env.scan(args);
    match env.invoke(n, tool, args)
    case Returned(content, isError) =>
      Exchange(Respond(Success(id, Called(content, isError))),
        [Row(name, args, "ok", Some(tool.id), hit, None, None, None, None)])
    case Refused(message, code, kind, upstream) =>
      Exchange(Respond(Error(id, code, message, Some(ErrorData(kind, upstream)))),
        [ErrorRow(name, args, tool, hit, kind + ": " + message, code, kind)])
    case Threw(text) =>
      Exchange(Respond(Error(id, INTERNAL_ERROR, "internal error: " + text, None)),
        [ErrorRow(name, args, tool, hit, text, INTERNAL_ERROR, "internal_error")])
  }

  function CallFound(env: Env, n: nat, id: Value, name: string, args: Value, tool: ToolView): Exchange {
    match env.validate(args, tool.inputSchema)
    case Broken(text) => Crashed(id, text)
    case Mismatch(message) =>
      Exchange(Respond(Error(id, INVALID_PARAMS, "invalid params: " + message, None)),
        [ErrorRow(name, args, tool, env.scan(args), "schema: " + message, INVALID_PARAMS, "schema_validation")])
    case Fine =>
      if tool.dispatcher !in env.dispatchers then
        var text := "unknown dispatcher: " + tool.dispatcher;
        Exchange(Respond(Error(id, INTERNAL_ERROR, text, None)),
          [ErrorRow(name, args, tool, env.scan(args), text, INTERNAL_ERROR, "unknown_dispatcher")])
      else Invoked(env, n, id, name, args, tool)
  }

  /** Past the checks of the name and the shape of the arguments. */
  predicate WellShapedCall(params: Value) {
    params.Obj? && Field(params, "name").Str? && Field(params, "name").s != "" && FieldOrEmpty(params, "arguments").Obj?
  }

  function Call(env: Env, n: nat, id: Value, params: Value, p: Principal, load: Load): Exchange {
    var name, args := Field(params, "name"), FieldOrEmpty(params, "arguments");
    if !params.Obj? then Crashed(id, env.noGet(params))
    else if !name.Str? || name.s == "" then Fail(id, INVALID_PARAMS, "missing tool name")
    else if !args.Obj? then Fail(id, INVALID_PARAMS, "arguments must be object")
    else match load
      case Err(text) => Crashed(id, text)
      case Ok(views) =>
        var found := Find(Index(views), name.s, p);
        if found.None? then
          Exchange(Respond(Error(id, TOOL_NOT_FOUND, "tool '" + name.s + "' not found", None)), [DeniedRow(name.s, args)])
        else CallFound(env, n, id, name.s, args, found.value)
  }

  function Entries(views: seq<ToolView>): seq<Entry> {
    seq(|views|, i requires 0 <= i < |views| => Entry(views[i].name, views[i].description, views[i].inputSchema))
  }

  function Dispatched(env: Env, n: nat, msg: Value, p: Principal, load: Load): Exchange {
    var verb, id, params := Field(msg, "method"), RequestId(msg), FieldOrEmpty(msg, "params");
    if verb == Str("initialize") then
      if !params.Obj? then Crashed(id, env.noGet(params))
      else
        var version := Field(params, "protocolVersion");
        Exchange(Respond(Success(id,
          Initialized(if version.Str? then version.s else SUPPORTED_VERSION, env.serverName, env.serverVersion))), [])
    else if IsInitializedNotice(verb) then Exchange(Silent, [])
    else if verb == Str("ping") then Exchange(Respond(Success(id, Pong)), [])
    else if verb == Str("tools/list") then
      (match load
       case Err(text) => Crashed(id, text)
       case Ok(views) => Exchange(Respond(Success(id, Tools(Entries(List(views, p))))), []))
    else if verb == Str("tools/call") then Call(env, n, id, params, p, load)
    else Fail(id, METHOD_NOT_FOUND, "method not found: " + ToText(env.py, verb))
  }

  /** `handle`. */
  function Handled(env: Env, n: nat, msg: Value, p: Principal, load: Load): Exchange {
    var verb, id := Field(msg, "method"), RequestId(msg);
    if !Envelope(msg) then Fail(id, INVALID_PARAMS, "invalid JSON-RPC envelope")
    else if verb == Null then Fail(id, INVALID_PARAMS, "missing method")
    else if id == Null && !verb.Str? then Exchange(Crash, [])
    else if id == Null && NamesNotification(verb) then Exchange(Silent, [])
    else Dispatched(env, n, msg, p, load)
  }

  // ---------- The handler object ----------

  class AuditLog {
    var rows: seq<Row>

    constructor ()
      ensures rows == []
    {
      rows := [];
    }

    method Log(row: Row)
      modifies this
      ensures rows == old(rows) + [row]
    {
      rows := rows + [row];
    }
  }

  class Handler {
    const env: Env
    const audit: AuditLog

    constructor (env: Env, audit: AuditLog)
      ensures this.env == env && this.audit == audit
    {
      this.env, this.audit := env, audit;
    }

    /** `_tools_call`; Err is an exception. */
    method ToolsCall(n: nat, id: Value, params: Value, p: Principal, load: Load) returns (r: Result<Response, string>)
      modifies audit
      ensures var x := Call(env, n, id, params, p, load);
        && x.outcome == Respond(if r.Ok? then r.value else Error(id, INTERNAL_ERROR, "internal error: " + r.error, None))
        && audit.rows == old(audit.rows) + x.rows
    {
      if !params.Obj? {
        return Err(env.noGet(params));
      }
      var named, args := Get(params.members, "name"), Or(Get(params.members, "arguments"), Obj(map[]));
      if !named.Str? || named.s == "" {
        return Ok(Error(id, INVALID_PARAMS, "missing tool name", None));
      }
      if !args.Obj? {
        return Ok(Error(id, INVALID_PARAMS, "arguments must be object", None));
      }
      if load.Err? {
        return Err(load.error);
      }
      var name := named.s;
      var found := Find(Index(load.value), name, p);
      if found.None? {
        audit.Log(DeniedRow(name, args));
        return Ok(Error(id, TOOL_NOT_FOUND, "tool '" + name + "' not found", None));
      }
      var tool := found.value;
      var validity := env.validate(args, tool.inputSchema);
      if validity.Broken? {
        return Err(validity.text);
      }
      if validity.Mismatch? {
        audit.Log(ErrorRow(name, args, tool, env.scan(args), "schema: " + validity.message, INVALID_PARAMS, "schema_validation"));
        return Ok(Error(id, INVALID_PARAMS, "invalid params: " + validity.message, None));
      }
      var hit := env.scan(args);
      if tool.dispatcher !in env.dispatchers {
        var text := "unknown dispatcher: " + tool.dispatcher;
        audit.Log(ErrorRow(name, args, tool, hit, text, INTERNAL_ERROR, "unknown_dispatcher"));
        return Ok(Error(id, INTERNAL_ERROR, text, None));
      }
      match env.invoke(n, tool, args) {
        case Refused(message, code, kind, upstream) =>
          audit.Log(ErrorRow(name, args, tool, hit, kind + ": " + message, code, kind));
          return Ok(Error(id, code, message, Some(ErrorData(kind, upstream))));
        case Threw(text) =>
          audit.Log(ErrorRow(name, args, tool, hit, text, INTERNAL_ERROR, "internal_error"));
          return Ok(Error(id, INTERNAL_ERROR, "internal error: " + text, None));
        case Returned(content, isError) =>
          audit.Log(Row(name, args, "ok", Some(tool.id), hit, None, None, None, None));
          return Ok(Success(id, Called(content, isError)));
      }
    }

    method Handle(n: nat, msg: Value, p: Principal, load: Load) returns (outcome: Outcome)
      modifies audit
      ensures var x := Handled(env, n, msg, p, load);
        outcome == x.outcome && audit.rows == old(audit.rows) + x.rows
    {
      hide Call, StartsWith;
      if !Envelope(msg) {
        return Respond(Error(RequestId(msg), INVALID_PARAMS, "invalid JSON-RPC envelope", None));
      }
      var verb, id := Get(msg.members, "method"), Get(msg.members, "id");
      var params := Or(Get(msg.members, "params"), Obj(map[]));
      if verb == Null {
        return Respond(Error(id, INVALID_PARAMS, "missing method", None));
      }
      if id == Null {
        if !verb.Str? {
          return Crash;
        }
        if StartsWith(verb.s, "notifications/") {
          return Silent;
        }
      }
      if verb == Str("initialize") {
        if !params.Obj? {
          return Respond(Error(id, INTERNAL_ERROR, "internal error: " + env.noGet(params), None));
        }
        var version := Get(params.members, "protocolVersion");
        var negotiated := if version.Str? then version.s else SUPPORTED_VERSION;
        return Respond(Success(id, Initialized(negotiated, env.serverName, env.serverVersion)));
      }
      if verb == Str("notifications/initialized") || verb == Str("initialized") {
        return Silent;
      }
      if verb == Str("ping") {
        return Respond(Success(id, Pong));
      }
      if verb == Str("tools/list") {
        if load.Err? {
          return Respond(Error(id, INTERNAL_ERROR, "internal error: " + load.error, None));
        }
        return Respond(Success(id, Tools(Entries(List(load.value, p)))));
      }
      if verb == Str("tools/call") {
        var r := ToolsCall(n, id, params, p, load);
        return Respond(if r.Ok? then r.value else Error(id, INTERNAL_ERROR, "internal error: " + r.error, None));
      }
      return Respond(Error(id, METHOD_NOT_FOUND, "method not found: " + ToText(env.py, verb), None));
    }
  }
}
