/** Posting one message or a batch, and what holds of whole sequences of messages. */
module McpBatch {
  import opened Prelude
  import opened Json
  import opened ToolCache
  import opened Registry
  import opened McpHandler

  /** Message i is handled with what the i-th refresh leaves in the registry. */
  function Exchanges(env: Env, p: Principal, loads: nat -> Load, messages: seq<Value>): seq<Exchange> {
    seq(|messages|, i requires 0 <= i < |messages| => Handled(env, i, messages[i], p, loads(i)))
  }

  function Responses(xs: seq<Exchange>): seq<Response> {
    if xs == [] then []
    else
      var last := xs[|xs| - 1].outcome;
      Responses(xs[..|xs| - 1]) + if last.Respond? then [last.response] else []
  }

  function Rows(xs: seq<Exchange>): seq<Row> {
    if xs == [] then [] else Rows(xs[..|xs| - 1]) + xs[|xs| - 1].rows
  }

  /** Messages up to the first the handler cannot survive. */
  function Survived(messages: seq<Value>): (n: nat)
    ensures n <= |messages|
    ensures n < |messages| ==> Fatal(messages[n])
    ensures forall i | 0 <= i < n :: !Fatal(messages[i])
  {
    if messages == [] || Fatal(messages[0]) then 0 else 1 + Survived(messages[1..])
  }

  /** The HTTP reply to a post. */
  datatype Reply = NoContent | One(response: Response) | Many(responses: seq<Response>) | ServerError

  function Posted(env: Env, p: Principal, loads: nat -> Load, body: Value): (Reply, seq<Row>) {
    match body
    case Arr(items) =>
      var xs := Exchanges(env, p, loads, items[..Survived(items)]);
      (if Survived(items) < |items| then ServerError
       else if Responses(xs) == [] then NoContent
       else Many(Responses(xs)),
       Rows(xs))
    case _ =>
      var x := Handled(env, 0, body, p, loads(0));
      (match x.outcome
       case Crash => ServerError
       case Silent => NoContent
       case Respond(response) => One(response),
       x.rows)
  }

  /** A message is answered unless it is one of the handler's notifications or fatal, and the
      answer has the message's id. */
  lemma AnswersAllButNotifications(env: Env, n: nat, msg: Value, p: Principal, load: Load)
    ensures Fatal(msg) ==> Handled(env, n, msg, p, load).rows == []
    ensures var x := Handled(env, n, msg, p, load).outcome;
      && (x.Crash? <==> Fatal(msg))
      && (x.Silent? <==> Omitted(msg))
      && (x.Respond? ==> x.response.id == RequestId(msg))
  {
    hide Call, Text.StartsWith;
    CallIsAnswered(env, n, RequestId(msg), FieldOrEmpty(msg, "params"), p, load);
  }

  lemma CallIsAnswered(env: Env, n: nat, id: Value, params: Value, p: Principal, load: Load)
    ensures var x := Call(env, n, id, params, p, load).outcome;
      x.Respond? && x.response.id == id
  {
  }

  lemma ExchangesStep(env: Env, p: Principal, loads: nat -> Load, items: seq<Value>, i: nat)
    requires i < |items|
    ensures var xs := Exchanges(env, p, loads, items[..i]);
      |xs| == i && Exchanges(env, p, loads, items[..i + 1]) == xs + [Handled(env, i, items[i], p, loads(i))]
  {
  }

  lemma OneMore(xs: seq<Exchange>, x: Exchange)
    ensures Responses(xs + [x]) == Responses(xs) + if x.outcome.Respond? then [x.outcome.response] else []
    ensures Rows(xs + [x]) == Rows(xs) + x.rows
  {
  }

  /** `mcp_post`: batch answers are collected in order. */
  method McpPost(handler: Handler, p: Principal, loads: nat -> Load, body: Value) returns (reply: Reply)
    modifies handler.audit
    ensures var (answer, rows) := Posted(handler.env, p, loads, body);
      reply == answer && handler.audit.rows == old(handler.audit.rows) + rows
  {
    hide Handled, Responses, Rows, Exchanges, Fatal, Omitted;
    if body.Arr? {
      var items, results := body.items, [];
      var i := 0;
      EmptyBatch(handler.env, p, loads);
      assert items[..0] == [];
      while i < |items|
        invariant 0 <= i <= |items|
        invariant forall k | 0 <= k < i :: !Fatal(items[k])
        invariant results == Responses(Exchanges(handler.env, p, loads, items[..i]))
        invariant handler.audit.rows
          == old(handler.audit.rows) + Rows(Exchanges(handler.env, p, loads, items[..i]))
      {
        var outcome := handler.Handle(i, items[i], p, loads(i));
        AnswersAllButNotifications(handler.env, i, items[i], p, loads(i));
        if outcome.Crash? {
          assert Survived(items) == i;
          return ServerError;
        }
        ExchangesStep(handler.env, p, loads, items, i);
        OneMore(Exchanges(handler.env, p, loads, items[..i]), Handled(handler.env, i, items[i], p, loads(i)));
        if outcome.Respond? {
          results := results + [outcome.response];
        }
        i := i + 1;
      }
      assert items[..i] == items && Survived(items) == |items|;
      if results == [] {
        return NoContent;
      }
      return Many(results);
    }
    var outcome := handler.Handle(0, body, p, loads(0));
    match outcome {
      case Crash => return ServerError;
      case Silent => return NoContent;
      case Respond(response) => return One(response);
    }
  }

  lemma EmptyBatch(env: Env, p: Principal, loads: nat -> Load)
    ensures Exchanges(env, p, loads, []) == [] && Responses([]) == [] && Rows([]) == []
  {
  }

  // ---------- Answers in request order ----------

  /** Ids of the messages that expect an answer, in order. */
  function ExpectedIds(messages: seq<Value>): seq<Value> {
    if messages == [] then []
    else
      var last := messages[|messages| - 1];
      ExpectedIds(messages[..|messages| - 1]) + if Omitted(last) then [] else [RequestId(last)]
  }

  function Ids(responses: seq<Response>): seq<Value> {
    seq(|responses|, i requires 0 <= i < |responses| => responses[i].id)
  }

  lemma {:induction false} ResponsesInOrder(env: Env, p: Principal, loads: nat -> Load, messages: seq<Value>)
    requires forall i | 0 <= i < |messages| :: !Fatal(messages[i])
    ensures Ids(Responses(Exchanges(env, p, loads, messages))) == ExpectedIds(messages)
  {
    hide Handled, Exchanges, Fatal, Omitted, RequestId, Responses;
    if messages == [] {
      EmptyBatch(env, p, loads);
    } else {
      var n := |messages| - 1;
      var xs, x := Exchanges(env, p, loads, messages[..n]), Handled(env, n, messages[n], p, loads(n));
      ResponsesInOrder(env, p, loads, messages[..n]);
      AnswersAllButNotifications(env, n, messages[n], p, loads(n));
      ExchangesStep(env, p, loads, messages, n);
      assert messages[..n + 1] == messages;
      OneMore(xs, x);
    }
  }

  /** The ids in a batch reply are those of the batch's messages that expect an answer, in their
      order, whatever the tools, the caller and the backends; without such messages there is no
      content; a fatal message loses the answers of the whole batch. */
  lemma BatchReply(env: Env, p: Principal, loads: nat -> Load, items: seq<Value>)
    ensures var reply := Posted(env, p, loads, Arr(items)).0;
      && (reply.ServerError? <==> exists i :: 0 <= i < |items| && Fatal(items[i]))
      && (reply.NoContent? ==> ExpectedIds(items) == [])
      && (reply.Many? ==> Ids(reply.responses) == ExpectedIds(items) != [])
      && !reply.One?
  {
    hide Exchanges, Fatal, ExpectedIds;
    if Survived(items) == |items| {
      assert items[..|items|] == items;
      ResponsesInOrder(env, p, loads, items);
    }
  }

  /** Section 4.1 of the JSON-RPC 2.0 specification: a request object without an id member is a
      notification and gets no answer; every other one is answered. */
  predicate IsNotification(msg: Value)
    requires msg.Obj?
  {
    "id" !in msg.members
  }

  /** The handler goes by the method's name as well, so it meets that rule exactly for messages
      whose name and id member go together. */
  lemma KeepsNotificationRule(msg: Value)
    requires Envelope(msg) && Field(msg, "method").Str?
    ensures (Omitted(msg) <==> IsNotification(msg))
      <==> var verb := Field(msg, "method").s;
           if "id" !in msg.members then Text.StartsWith(verb, "notifications/") || verb == "initialized"
           else !(verb == "initialized" || verb == "notifications/initialized"
                  || (msg.members["id"] == Null && Text.StartsWith(verb, "notifications/")))
  {
  }

  /** A ping without an id is answered all the same. */
  lemma IdlessPingIsAnswered(env: Env, p: Principal, load: Load)
    ensures var ping := Obj(map["jsonrpc" := Str("2.0"), "method" := Str("ping")]);
      IsNotification(ping) && Handled(env, 0, ping, p, load).outcome == Respond(Success(Null, Pong))
  {
  }

  // ---------- Listing and calling ----------

  lemma ListedOnce(views: seq<ToolView>, a: ToolView, b: ToolView, p: Principal)
    requires UniqueNames(views) && a in List(views, p) && b in List(views, p) && a.name == b.name
    ensures a == b
  {
    ListHolds(views, p);
    IndexFinds(views);
  }

  /** Against one catalogue, the listing offers a name exactly when calling it is not denied: a
      denied call names no listed tool, and a call of an unlisted tool is denied and changes
      nothing but the audit log. */
  lemma ListedIffNotDenied(env: Env, n: nat, k: nat, list: Value, call: Value, p: Principal, views: seq<ToolView>)
    requires Envelope(list) && Field(list, "method") == Str("tools/list")
    requires Envelope(call) && Field(call, "method") == Str("tools/call")
    requires WellShapedCall(FieldOrEmpty(call, "params")) && UniqueNames(views)
    ensures var listed := Handled(env, n, list, p, Ok(views)).outcome;
      var name, args := Field(FieldOrEmpty(call, "params"), "name").s, FieldOrEmpty(FieldOrEmpty(call, "params"), "arguments");
      && listed.Respond? && listed.response.Success? && listed.response.payload.Tools?
      && (forall e :: e in listed.response.payload.tools <==>
            exists t :: t in views && Visible(t, p) && e == Entry(t.name, t.description, t.inputSchema))
      && ((forall e | e in listed.response.payload.tools :: e.name != name)
          <==> Handled(env, k, call, p, Ok(views)).rows == [DeniedRow(name, args)])
  {
    hide Text.StartsWith, List, Find, UniqueNames, Visible;
    CallIsNoNotification();
    var name := Field(FieldOrEmpty(call, "params"), "name").s;
    ListHolds(views, p);
    EntriesHold(List(views, p));
    FindAgreesWithList(views, name, p);
    if forall t | t in List(views, p) :: t.name != name {
    } else {
      var t :| t in List(views, p) && t.name == name;
      assert Entry(t.name, t.description, t.inputSchema) in Entries(List(views, p));
    }
  }

  lemma EntriesHold(views: seq<ToolView>)
    ensures forall e :: e in Entries(views) <==>
      exists t :: t in views && e == Entry(t.name, t.description, t.inputSchema)
  {
    forall t | t in views ensures Entry(t.name, t.description, t.inputSchema) in Entries(views) {
      var i :| 0 <= i < |views| && views[i] == t;
      assert Entries(views)[i] == Entry(t.name, t.description, t.inputSchema);
    }
  }

  // ---------- Calls, responses and audit rows ----------

  function Params(msg: Value): Value {
    FieldOrEmpty(msg, "params")
  }

  /** A tools/call past the checks of its name and the shape of its arguments, whose registry
      lookup and schema check end normally (finding a mismatch is normal). */
  ghost predicate Audited(env: Env, msg: Value, p: Principal, load: Load) {
    && Envelope(msg) && Field(msg, "method") == Str("tools/call") && WellShapedCall(Params(msg))
    && load.Ok?
    && forall t | t in List(load.value, p) && t.name == Field(Params(msg), "name").s ::
         !env.validate(FieldOrEmpty(Params(msg), "arguments"), t.inputSchema).Broken?
  }

  /** The row tells what the response tells. */
  ghost predicate Records(msg: Value, p: Principal, load: Load, row: Row, outcome: Outcome) {
    && outcome.Respond? && load.Ok? && Params(msg).Obj?
    && Str(row.toolName) == Field(Params(msg), "name")
    && row.arguments == FieldOrEmpty(Params(msg), "arguments")
    && (row.status == "ok" <==> outcome.response.Success?)
    && (outcome.response.Error? ==> row.errorCode == Some(outcome.response.code))
    && (outcome.response.Success? ==> row.errorCode == None)
    && (row.toolId.None? <==> row.status == "denied")
    && (row.status == "denied" <==> forall t | t in List(load.value, p) :: t.name != row.toolName)
    && (row.toolId.Some? ==> exists t :: t in List(load.value, p) && t.name == row.toolName && t.id == row.toolId.value)
  }

  lemma OneRowPerCall(env: Env, n: nat, msg: Value, p: Principal, load: Load)
    requires load.Ok? ==> UniqueNames(load.value)
    ensures var x := Handled(env, n, msg, p, load);
      if Audited(env, msg, p, load) then |x.rows| == 1 && Records(msg, p, load, x.rows[0], x.outcome)
      else x.rows == []
  {
    hide List, UniqueNames, Find, Text.StartsWith;
    if Envelope(msg) && Field(msg, "method") == Str("tools/call") && WellShapedCall(Params(msg)) && load.Ok? {
      CallIsNoNotification();
      CallRows(env, n, msg, p, load);
    }
  }

  lemma CallIsNoNotification()
    ensures !Text.StartsWith("tools/call", "notifications/") && !Text.StartsWith("tools/list", "notifications/")
  {
  }

  lemma CallRows(env: Env, n: nat, msg: Value, p: Principal, load: Load)
    requires load.Ok? && UniqueNames(load.value) && WellShapedCall(Params(msg))
    requires Envelope(msg) && Field(msg, "method") == Str("tools/call")
    ensures var x := Call(env, n, RequestId(msg), Params(msg), p, load);
      if Audited(env, msg, p, load) then |x.rows| == 1 && Records(msg, p, load, x.rows[0], x.outcome)
      else x.rows == []
  {
    hide List, UniqueNames, Find;
    var name := Field(Params(msg), "name").s;
    FindAgreesWithList(load.value, name, p);
    var found := Find(Index(load.value), name, p);
    if found.Some? {
      forall t | t in List(load.value, p) && t.name == name ensures t == found.value {
        ListedOnce(load.value, t, found.value, p);
      }
    }
  }

  /** Positions of the audited messages. */
  ghost function AuditedAt(env: Env, p: Principal, loads: nat -> Load, messages: seq<Value>): (at: seq<nat>)
    ensures forall k | 0 <= k < |at| :: at[k] < |messages| && Audited(env, messages[at[k]], p, loads(at[k]))
    ensures forall k, l | 0 <= k < l < |at| :: at[k] < at[l]
    ensures forall i | 0 <= i < |messages| && Audited(env, messages[i], p, loads(i)) :: i in at
  {
    if messages == [] then []
    else
      var n := |messages| - 1;
      var before := AuditedAt(env, p, loads, messages[..n]);
      if Audited(env, messages[n], p, loads(n)) then before + [n] else before
  }

  /** Audited calls and audit rows correspond one to one and in order, and each row agrees with
      its call's response. */
  lemma {:induction false} RowsCorrespond(env: Env, p: Principal, loads: nat -> Load, messages: seq<Value>)
    requires forall i: nat :: loads(i).Ok? ==> UniqueNames(loads(i).value)
    ensures var xs, at := Exchanges(env, p, loads, messages), AuditedAt(env, p, loads, messages);
      && |Rows(xs)| == |at|
      && forall k | 0 <= k < |at| :: Records(messages[at[k]], p, loads(at[k]), Rows(xs)[k], xs[at[k]].outcome)
  {
    hide Handled, Exchanges, Audited, Records, UniqueNames, Rows;
    if messages == [] {
      EmptyBatch(env, p, loads);
    } else {
      var n := |messages| - 1;
      RowsCorrespond(env, p, loads, messages[..n]);
      OneRowPerCall(env, n, messages[n], p, loads(n));
      ExchangesStep(env, p, loads, messages, n);
      assert messages[..n + 1] == messages;
      OneMore(Exchanges(env, p, loads, messages[..n]), Handled(env, n, messages[n], p, loads(n)));
      var before := AuditedAt(env, p, loads, messages[..n]);
      forall k | 0 <= k < |before| ensures before[k] < n && messages[..n][before[k]] == messages[before[k]] {
      }
    }
  }
}
