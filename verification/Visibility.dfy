/** What a caller can learn of tools it may not see: whole sequences of messages against the cache
    that answers them. */
module Visibility {
  import opened Prelude
  import opened Json
  import opened ToolCache
  import opened Registry
  import opened McpHandler
  import opened McpBatch

  // ---------- What one message can show ----------

  /** A tool without a name can be listed but not called, so only its listing shows. */
  function Seen(t: ToolView): ToolView {
    if t.name == "" then ToolView(0, t.name, t.description, "", Null, t.inputSchema, {}, {}) else t
  }

  function SeenBy(views: seq<ToolView>, p: Principal): seq<ToolView> {
    var listed := List(views, p);
    seq(|listed|, i requires 0 <= i < |listed| => Seen(listed[i]))
  }

  /** The caller sees the same, or hears of the same failure. */
  predicate SameView(a: Load, b: Load, p: Principal) {
    match (a, b)
    case (Ok(v), Ok(w)) => SeenBy(v, p) == SeenBy(w, p)
    case (Err(s), Err(t)) => s == t
    case _ => false
  }

  ghost predicate Proper(a: Load) {
    a.Ok? ==> UniqueNames(a.value)
  }

  /** The messages that make the registry refresh. */
  predicate Consults(msg: Value) {
    && Envelope(msg)
    && (Field(msg, "method") == Str("tools/list")
        || (Field(msg, "method") == Str("tools/call") && WellShapedCall(FieldOrEmpty(msg, "params"))))
  }

  lemma OthersDoNotConsult(env: Env, n: nat, msg: Value, p: Principal, a: Load, b: Load)
    requires !Consults(msg)
    ensures Handled(env, n, msg, p, a) == Handled(env, n, msg, p, b)
  {
    hide CallFound, Text.StartsWith;
  }

  lemma SameFind(v: seq<ToolView>, w: seq<ToolView>, name: string, p: Principal)
    requires UniqueNames(v) && UniqueNames(w) && SeenBy(v, p) == SeenBy(w, p) && name != ""
    ensures Find(Index(v), name, p) == Find(Index(w), name, p)
  {
    hide Find, List, UniqueNames;
    FindAgreesWithList(v, name, p);
    FindAgreesWithList(w, name, p);
    if t :| t in List(v, p) && t.name == name {
      SeenInBoth(v, w, t, p);
      ListedOnce(w, t, Find(Index(w), name, p).value, p);
      ListedOnce(v, t, Find(Index(v), name, p).value, p);
    } else if t :| t in List(w, p) && t.name == name {
      SeenInBoth(w, v, t, p);
    }
  }

  lemma SeenInBoth(v: seq<ToolView>, w: seq<ToolView>, t: ToolView, p: Principal)
    requires SeenBy(v, p) == SeenBy(w, p) && t in List(v, p) && t.name != ""
    ensures t in List(w, p)
  {
    var i :| 0 <= i < |List(v, p)| && List(v, p)[i] == t;
    assert SeenBy(v, p)[i] == t == SeenBy(w, p)[i] == Seen(List(w, p)[i]);
  }

  lemma SameEntries(v: seq<ToolView>, w: seq<ToolView>, p: Principal)
    requires SeenBy(v, p) == SeenBy(w, p)
    ensures Entries(List(v, p)) == Entries(List(w, p))
  {
    hide List;
    var a, b := Entries(List(v, p)), Entries(List(w, p));
    assert |a| == |SeenBy(v, p)| == |SeenBy(w, p)| == |b|;
    forall i | 0 <= i < |a| ensures a[i] == b[i] {
      assert SeenBy(v, p)[i] == SeenBy(w, p)[i];
    }
  }

  lemma SameHandled(env: Env, n: nat, msg: Value, p: Principal, a: Load, b: Load)
    requires Proper(a) && Proper(b) && SameView(a, b, p)
    ensures Handled(env, n, msg, p, a) == Handled(env, n, msg, p, b)
  {
    hide List, UniqueNames, Find, Index, CallFound, SeenBy, Text.StartsWith;
    if !Consults(msg) {
      OthersDoNotConsult(env, n, msg, p, a, b);
    } else if a.Ok? {
      SameEntries(a.value, b.value, p);
      if Field(msg, "method") == Str("tools/call") {
        SameFind(a.value, b.value, Field(FieldOrEmpty(msg, "params"), "name").s, p);
      }
    }
  }

  // ---------- What a difference shows ----------

  const LIST := Obj(map["jsonrpc" := Str("2.0"), "method" := Str("tools/list")])

  function CallOf(name: string): Value {
    Obj(map["jsonrpc" := Str("2.0"), "method" := Str("tools/call"), "params" := Obj(map["name" := Str(name)])])
  }

  lemma ListIsHandled(env: Env, n: nat, p: Principal, a: Load)
    ensures Consults(LIST)
    ensures Handled(env, n, LIST, p, a) == match a
      case Err(text) => Crashed(Null, text)
      case Ok(views) => Exchange(Respond(Success(Null, Tools(Entries(List(views, p))))), [])
  {
    CallIsNoNotification();
    assert Field(LIST, "method") == Str("tools/list") && RequestId(LIST) == Null;
  }

  lemma CallIsHandled(env: Env, n: nat, name: string, p: Principal, views: seq<ToolView>, t: ToolView)
    requires UniqueNames(views) && t in List(views, p) && t.name == name != ""
    ensures Consults(CallOf(name))
    ensures Handled(env, n, CallOf(name), p, Ok(views)) == CallFound(env, n, Null, name, Obj(map[]), t)
  {
    hide List, UniqueNames, Find, CallFound, Text.StartsWith;
    CallIsNoNotification();
    var msg := CallOf(name);
    assert Field(msg, "method") == Str("tools/call") && RequestId(msg) == Null;
    assert FieldOrEmpty(msg, "params") == Obj(map["name" := Str(name)]);
    assert FieldOrEmpty(FieldOrEmpty(msg, "params"), "arguments") == Obj(map[]);
    FindAgreesWithList(views, name, p);
    ListedOnce(views, t, Find(Index(views), name, p).value, p);
  }

  /** Whatever differs in the view, some message and backend answer differently. */
  lemma DifferenceShows(base: Env, n: nat, p: Principal, a: Load, b: Load) returns (env: Env, msg: Value)
    requires Proper(a) && Proper(b) && !SameView(a, b, p)
    ensures Consults(msg) && Handled(env, n, msg, p, a) != Handled(env, n, msg, p, b)
  {
    hide List, UniqueNames, Handled, CallFound;
    env, msg := base, LIST;
    ListIsHandled(env, n, p, a);
    ListIsHandled(env, n, p, b);
    if a.Err? && b.Err? {
      var x, y := "internal error: " + a.error, "internal error: " + b.error;
      assert x[16..] == a.error && y[16..] == b.error;
    } else if a.Ok? && b.Ok? && Entries(List(a.value, p)) == Entries(List(b.value, p)) {
      var k := DifferentTool(a.value, b.value, p);
      var t, u := List(a.value, p)[k], List(b.value, p)[k];
      env := base.(validate := (_, _) => Fine, dispatchers := {t.dispatcher, u.dispatcher},
                   invoke := (_, tool, _) => Returned(Bool(tool == t), false));
      msg := CallOf(t.name);
      CallIsHandled(env, n, t.name, p, a.value, t);
      CallIsHandled(env, n, t.name, p, b.value, u);
      CallsDiffer(env, n, t.name, t, u);
    }
  }

  lemma CallsDiffer(env: Env, n: nat, name: string, t: ToolView, u: ToolView)
    requires env.validate(Obj(map[]), t.inputSchema) == env.validate(Obj(map[]), u.inputSchema) == Fine
    requires t.dispatcher in env.dispatchers && u.dispatcher in env.dispatchers
    requires env.invoke(n, t, Obj(map[])) == Returned(Bool(true), false)
    requires env.invoke(n, u, Obj(map[])) == Returned(Bool(false), false)
    ensures CallFound(env, n, Null, name, Obj(map[]), t) != CallFound(env, n, Null, name, Obj(map[]), u)
  {
  }

  lemma DifferentTool(v: seq<ToolView>, w: seq<ToolView>, p: Principal) returns (k: nat)
    requires Entries(List(v, p)) == Entries(List(w, p)) && SeenBy(v, p) != SeenBy(w, p)
    ensures k < |List(v, p)| && k < |List(w, p)|
    ensures List(v, p)[k] in List(v, p) && List(w, p)[k] in List(w, p)
    ensures List(v, p)[k] != List(w, p)[k] && List(v, p)[k].name == List(w, p)[k].name != ""
  {
    hide List;
    var a, b := SeenBy(v, p), SeenBy(w, p);
    var x, y := Entries(List(v, p)), Entries(List(w, p));
    assert |a| == |x| == |y| == |b|;
    k :| 0 <= k < |a| && a[k] != b[k];
    assert x[k] == y[k];
  }

  // ---------- A sequence of messages against the cache ----------

  /** What a load gives: the enabled tools, or an exception. */
  type Table = Result<seq<ToolRow>, string>

  /** A forced refresh. */
  datatype Forced = Forced(rows: Table, at: int)

  /** The registry's side of one message: a forced refresh that comes before it, if any, the clock
      when it is handled, what loading would give, and the clock after loading. */
  datatype Visit = Visit(forced: Option<Forced>, now: int, rows: Table, later: int)

  datatype History = History(ttl: int, start: Snapshot, visits: seq<Visit>)

  function Prepared(s: Snapshot, v: Visit): Snapshot {
    match v.forced
    case None => s
    case Some(f) => if f.rows.Ok? then Installed(f.rows.value, f.at) else Invalidated(s)
  }

  /** What `refresh_if_stale` leaves to answer from. */
  function Answer(ttl: int, s: Snapshot, v: Visit): Load {
    if Fresh(s, v.now, ttl) then Ok(s.tools)
    else match v.rows
      case Ok(rows) => Ok(Views(rows))
      case Err(text) => Err(text)
  }

  function Refreshed(ttl: int, s: Snapshot, v: Visit): Snapshot {
    if !Fresh(s, v.now, ttl) && v.rows.Ok? then Installed(v.rows.value, v.later) else s
  }

  /** The snapshot when message i is handled, after a forced refresh before it. */
  function SnapshotAt(r: History, messages: seq<Value>, i: nat): Snapshot
    requires i < |r.visits| == |messages|
  {
    var before :=
      if i == 0 then r.start
      else if Consults(messages[i - 1]) then Refreshed(r.ttl, SnapshotAt(r, messages, i - 1), r.visits[i - 1])
      else SnapshotAt(r, messages, i - 1);
    Prepared(before, r.visits[i])
  }

  function LoadAt(r: History, messages: seq<Value>, i: nat): Load
    requires i < |r.visits| == |messages|
  {
    Answer(r.ttl, SnapshotAt(r, messages, i), r.visits[i])
  }

  function Loads(r: History, messages: seq<Value>): nat -> Load
    requires |r.visits| == |messages|
  {
    (i: nat) => if i < |messages| then LoadAt(r, messages, i) else Ok([])
  }

  /** Tables that differ, if at all, in tools the caller may not see. */
  ghost predicate SameRows(a: Table, b: Table, p: Principal) {
    match (a, b)
    case (Ok(v), Ok(w)) =>
      UniqueNames(Views(v)) && UniqueNames(Views(w)) && SeenBy(Views(v), p) == SeenBy(Views(w), p)
    case (Err(s), Err(t)) => s == t
    case _ => false
  }

  ghost predicate SameVisit(a: Visit, b: Visit, p: Principal) {
    && a.now == b.now && a.later == b.later && SameRows(a.rows, b.rows, p)
    && (match (a.forced, b.forced)
        case (None, None) => true
        case (Some(f), Some(g)) => f.at == g.at && SameRows(f.rows, g.rows, p)
        case _ => false)
  }

  ghost predicate LookAlike(s: Snapshot, t: Snapshot, p: Principal) {
    UniqueNames(s.tools) && UniqueNames(t.tools) && SeenBy(s.tools, p) == SeenBy(t.tools, p)
  }

  /** Two registries whose tables differ at every moment only in tools the caller may not see:
      same clock, same failures, same forced refreshes. */
  ghost predicate Alike(a: History, b: History, p: Principal) {
    && a.ttl == b.ttl && |a.visits| == |b.visits| && LookAlike(a.start, b.start, p)
    && forall i | 0 <= i < |a.visits| :: SameVisit(a.visits[i], b.visits[i], p)
  }

  /** Both snapshots are fresh or both are not, or reloading one shows what the other still shows. */
  ghost predicate InAgreement(ttl: int, s: Snapshot, t: Snapshot, v: Visit, w: Visit, p: Principal) {
    || Fresh(s, v.now, ttl) == Fresh(t, w.now, ttl)
    || (Fresh(s, v.now, ttl) && w.rows.Ok? && SeenBy(Views(w.rows.value), p) == SeenBy(s.tools, p))
    || (Fresh(t, w.now, ttl) && v.rows.Ok? && SeenBy(Views(v.rows.value), p) == SeenBy(t.tools, p))
  }

  ghost predicate AgreeAt(a: History, b: History, messages: seq<Value>, p: Principal, i: nat)
    requires i < |a.visits| == |b.visits| == |messages|
  {
    InAgreement(a.ttl, SnapshotAt(a, messages, i), SnapshotAt(b, messages, i), a.visits[i], b.visits[i], p)
  }

  ghost predicate Agree(a: History, b: History, messages: seq<Value>, p: Principal)
    requires |a.visits| == |b.visits| == |messages|
  {
    forall i | 0 <= i < |messages| && Consults(messages[i]) :: AgreeAt(a, b, messages, p, i)
  }

  lemma PreparedAlike(s: Snapshot, t: Snapshot, v: Visit, w: Visit, p: Principal)
    requires LookAlike(s, t, p) && SameVisit(v, w, p)
    ensures LookAlike(Prepared(s, v), Prepared(t, w), p)
  {
    hide UniqueNames, SeenBy, Views, Index;
  }

  /** For snapshots that look alike: the answers look alike exactly when they agree, and then so
      do the snapshots afterwards. */
  lemma AnswersAlike(ttl: int, s: Snapshot, t: Snapshot, v: Visit, w: Visit, p: Principal)
    requires LookAlike(s, t, p) && SameVisit(v, w, p)
    ensures Proper(Answer(ttl, s, v)) && Proper(Answer(ttl, t, w))
    ensures SameView(Answer(ttl, s, v), Answer(ttl, t, w), p) <==> InAgreement(ttl, s, t, v, w, p)
    ensures InAgreement(ttl, s, t, v, w, p) ==> LookAlike(Refreshed(ttl, s, v), Refreshed(ttl, t, w), p)
  {
    hide UniqueNames, SeenBy, Views, Index;
  }

  lemma {:induction false} SnapshotsAlike(a: History, b: History, messages: seq<Value>, p: Principal, i: nat)
    requires Alike(a, b, p) && i < |a.visits| == |messages|
    requires forall j | 0 <= j < i && Consults(messages[j]) :: AgreeAt(a, b, messages, p, j)
    ensures LookAlike(SnapshotAt(a, messages, i), SnapshotAt(b, messages, i), p)
  {
    hide LookAlike, SameVisit, InAgreement, Consults, Prepared, Refreshed;
    if i == 0 {
      PreparedAlike(a.start, b.start, a.visits[0], b.visits[0], p);
    } else {
      SnapshotsAlike(a, b, messages, p, i - 1);
      var s, t := SnapshotAt(a, messages, i - 1), SnapshotAt(b, messages, i - 1);
      if Consults(messages[i - 1]) {
        assert AgreeAt(a, b, messages, p, i - 1);
        AnswersAlike(a.ttl, s, t, a.visits[i - 1], b.visits[i - 1], p);
        PreparedAlike(Refreshed(a.ttl, s, a.visits[i - 1]), Refreshed(a.ttl, t, b.visits[i - 1]), a.visits[i], b.visits[i], p);
      } else {
        PreparedAlike(s, t, a.visits[i], b.visits[i], p);
      }
    }
  }

  lemma SameExchanges(env: Env, p: Principal, a: nat -> Load, b: nat -> Load, messages: seq<Value>)
    requires forall i | 0 <= i < |messages| && Consults(messages[i]) ::
      Proper(a(i)) && Proper(b(i)) && SameView(a(i), b(i), p)
    ensures Exchanges(env, p, a, messages) == Exchanges(env, p, b, messages)
  {
    hide Handled, SameView, Proper, Consults;
    forall i | 0 <= i < |messages|
      ensures Handled(env, i, messages[i], p, a(i)) == Handled(env, i, messages[i], p, b(i))
    {
      if Consults(messages[i]) {
        SameHandled(env, i, messages[i], p, a(i), b(i));
      } else {
        OthersDoNotConsult(env, i, messages[i], p, a(i), b(i));
      }
    }
  }

  /** While the registries agree, catalogues that differ only in tools the caller may not see give
      the same responses and audit rows to every sequence of messages, and the same reply to it as
      a batch. */
  lemma OnlyVisibleToolsMatter(env: Env, p: Principal, a: History, b: History, messages: seq<Value>)
    requires Alike(a, b, p) && |a.visits| == |messages| && Agree(a, b, messages, p)
    ensures Exchanges(env, p, Loads(a, messages), messages) == Exchanges(env, p, Loads(b, messages), messages)
    ensures Posted(env, p, Loads(a, messages), Arr(messages)) == Posted(env, p, Loads(b, messages), Arr(messages))
  {
    hide Handled, SameView, Proper, Consults, LookAlike, SameVisit, InAgreement, SnapshotAt, Answer, Responses, Rows;
    forall i | 0 <= i < |messages| && Consults(messages[i])
      ensures Proper(LoadAt(a, messages, i)) && Proper(LoadAt(b, messages, i))
      ensures SameView(LoadAt(a, messages, i), LoadAt(b, messages, i), p)
    {
      SnapshotsAlike(a, b, messages, p, i);
      assert AgreeAt(a, b, messages, p, i);
      AnswersAlike(a.ttl, SnapshotAt(a, messages, i), SnapshotAt(b, messages, i), a.visits[i], b.visits[i], p);
    }
    SameExchanges(env, p, Loads(a, messages), Loads(b, messages), messages);
    SameExchanges(env, p, Loads(a, messages), Loads(b, messages), messages[..Survived(messages)]);
  }

  // ---------- Agreement is needed ----------

  /** Messages that consult the registry at the same places. */
  ghost predicate SamePattern(messages: seq<Value>, others: seq<Value>) {
    |messages| == |others| && forall i | 0 <= i < |messages| :: Consults(messages[i]) == Consults(others[i])
  }

  lemma {:induction false} PatternDecides(r: History, messages: seq<Value>, others: seq<Value>, i: nat)
    requires SamePattern(messages, others) && i < |r.visits| == |messages|
    ensures SnapshotAt(r, messages, i) == SnapshotAt(r, others, i)
  {
    hide Consults;
    if i > 0 { PatternDecides(r, messages, others, i - 1); }
  }

  lemma PatternKeepsAgreement(a: History, b: History, messages: seq<Value>, others: seq<Value>, p: Principal)
    requires SamePattern(messages, others) && |a.visits| == |b.visits| == |messages| && Agree(a, b, messages, p)
    ensures Agree(a, b, others, p)
  {
    hide Consults, SnapshotAt, InAgreement;
    forall i | 0 <= i < |others| && Consults(others[i]) ensures AgreeAt(a, b, others, p, i) {
      PatternDecides(a, messages, others, i);
      PatternDecides(b, messages, others, i);
      assert AgreeAt(a, b, messages, p, i);
    }
  }

  lemma FirstDisagreement(a: History, b: History, messages: seq<Value>, p: Principal, n: nat) returns (i: nat)
    requires n < |a.visits| == |b.visits| == |messages| && Consults(messages[n]) && !AgreeAt(a, b, messages, p, n)
    ensures i <= n && Consults(messages[i]) && !AgreeAt(a, b, messages, p, i)
    ensures forall j | 0 <= j < i && Consults(messages[j]) :: AgreeAt(a, b, messages, p, j)
  {
    hide Consults, AgreeAt;
    i := n;
    if j :| 0 <= j < n && Consults(messages[j]) && !AgreeAt(a, b, messages, p, j) {
      i := FirstDisagreement(a, b, messages, p, j);
    }
  }

  /** Where the registries disagree, some message there and some backend tell them apart. */
  lemma DisagreementShows(base: Env, p: Principal, a: History, b: History, messages: seq<Value>)
    returns (env: Env, others: seq<Value>)
    requires Alike(a, b, p) && |a.visits| == |messages| && !Agree(a, b, messages, p)
    ensures SamePattern(messages, others)
    ensures Exchanges(env, p, Loads(a, others), others) != Exchanges(env, p, Loads(b, others), others)
  {
    hide Handled, SameView, Proper, Consults, LookAlike, SameVisit, InAgreement, SnapshotAt, Answer, AgreeAt;
    var n :| 0 <= n < |messages| && Consults(messages[n]) && !AgreeAt(a, b, messages, p, n);
    var i := FirstDisagreement(a, b, messages, p, n);
    SnapshotsAlike(a, b, messages, p, i);
    ViewsDiffer(a, b, messages, p, i);
    var msg;
    env, msg := DifferenceShows(base, i, p, LoadAt(a, messages, i), LoadAt(b, messages, i));
    others := messages[i := msg];
    PatternDecides(a, messages, others, i);
    PatternDecides(b, messages, others, i);
    assert Exchanges(env, p, Loads(a, others), others)[i] == Handled(env, i, msg, p, LoadAt(a, others, i));
    assert Exchanges(env, p, Loads(b, others), others)[i] == Handled(env, i, msg, p, LoadAt(b, others, i));
  }

  lemma ViewsDiffer(a: History, b: History, messages: seq<Value>, p: Principal, i: nat)
    requires i < |a.visits| == |b.visits| == |messages| && a.ttl == b.ttl && SameVisit(a.visits[i], b.visits[i], p)
    requires LookAlike(SnapshotAt(a, messages, i), SnapshotAt(b, messages, i), p) && !AgreeAt(a, b, messages, p, i)
    ensures Proper(LoadAt(a, messages, i)) && Proper(LoadAt(b, messages, i))
    ensures !SameView(LoadAt(a, messages, i), LoadAt(b, messages, i), p)
  {
    hide SnapshotAt, SameVisit, LookAlike, SameView, InAgreement, Proper;
    AnswersAlike(a.ttl, SnapshotAt(a, messages, i), SnapshotAt(b, messages, i), a.visits[i], b.visits[i], p);
  }

  /** For tables that differ only in tools the caller may not see: nothing the caller can send
      tells them apart, for any backend, exactly when the registries agree wherever its messages
      consult them. */
  lemma HiddenIffAgree(base: Env, p: Principal, a: History, b: History, messages: seq<Value>)
    requires Alike(a, b, p) && |a.visits| == |messages|
    ensures Agree(a, b, messages, p) <==>
      forall env: Env, others: seq<Value> | SamePattern(messages, others) ::
        Exchanges(env, p, Loads(a, others), others) == Exchanges(env, p, Loads(b, others), others)
  {
    assert |a.visits| == |b.visits|;
    hide Exchanges, Loads, Alike, Agree;
    if Agree(a, b, messages, p) {
      forall env: Env, others: seq<Value> | SamePattern(messages, others)
        ensures |others| == |messages|
        ensures Exchanges(env, p, Loads(a, others), others) == Exchanges(env, p, Loads(b, others), others)
      {
        PatternKeepsAgreement(a, b, messages, others, p);
        OnlyVisibleToolsMatter(env, p, a, b, others);
      }
    } else {
      var env, others := DisagreementShows(base, p, a, b, messages);
    }
  }

  // ---------- When they agree ----------

  /** The table never changes, loading never raises, and the snapshot is of that table if it is
      not empty. */
  ghost predicate Unchanging(r: History, rows: seq<ToolRow>) {
    && r.start.tools in {[], Views(rows)}
    && forall i | 0 <= i < |r.visits| ::
         r.visits[i].rows == Ok(rows) && (r.visits[i].forced.Some? ==> r.visits[i].forced.value.rows == Ok(rows))
  }

  lemma {:induction false} UnchangingSnapshot(r: History, rows: seq<ToolRow>, messages: seq<Value>, i: nat)
    requires Unchanging(r, rows) && i < |r.visits| == |messages|
    ensures SnapshotAt(r, messages, i).tools in {[], Views(rows)}
  {
    hide Views, Index, Consults;
    if i > 0 { UnchangingSnapshot(r, rows, messages, i - 1); }
  }

  /** Over tables that do not change and loads that do not fail, registries always agree: no
      sequence of messages shows anything of the hidden tools. */
  lemma FixedTablesAgree(p: Principal, a: History, b: History, messages: seq<Value>, x: seq<ToolRow>, y: seq<ToolRow>)
    requires Alike(a, b, p) && |a.visits| == |messages| && Unchanging(a, x) && Unchanging(b, y)
    ensures Agree(a, b, messages, p)
  {
    hide Views, Index, Consults, SeenBy, UniqueNames, SnapshotAt;
    forall i | 0 <= i < |messages| ensures AgreeAt(a, b, messages, p, i) {
      UnchangingSnapshot(a, x, messages, i);
      UnchangingSnapshot(b, y, messages, i);
      assert SameVisit(a.visits[i], b.visits[i], p);
    }
  }

  ghost predicate EmptyTogether(x: Table, y: Table) {
    x.Ok? && y.Ok? ==> (x.value == [] <==> y.value == [])
  }

  ghost predicate SameAge(s: Snapshot, t: Snapshot) {
    s.loadedAt == t.loadedAt && (s.tools == [] <==> t.tools == [])
  }

  /** The two tables are empty at the same times. */
  ghost predicate InStep(a: History, b: History) {
    && |a.visits| == |b.visits| && SameAge(a.start, b.start)
    && forall i | 0 <= i < |a.visits| ::
         && EmptyTogether(a.visits[i].rows, b.visits[i].rows)
         && (a.visits[i].forced.Some? && b.visits[i].forced.Some? ==>
               EmptyTogether(a.visits[i].forced.value.rows, b.visits[i].forced.value.rows))
  }

  lemma {:induction false} StaysInStep(a: History, b: History, messages: seq<Value>, p: Principal, i: nat)
    requires Alike(a, b, p) && InStep(a, b) && i < |a.visits| == |messages|
    ensures SameAge(SnapshotAt(a, messages, i), SnapshotAt(b, messages, i))
  {
    hide Index, Consults, SeenBy, UniqueNames, LookAlike;
    assert SameVisit(a.visits[i], b.visits[i], p);
    if i > 0 {
      StaysInStep(a, b, messages, p, i - 1);
      assert SameVisit(a.visits[i - 1], b.visits[i - 1], p);
    }
  }

  /** Registries also agree, however tables change and loads fail, while the two tables are empty
      at the same times. */
  lemma InStepTablesAgree(p: Principal, a: History, b: History, messages: seq<Value>)
    requires Alike(a, b, p) && InStep(a, b) && |a.visits| == |messages|
    ensures Agree(a, b, messages, p)
  {
    hide Consults, SeenBy, UniqueNames, SnapshotAt, LookAlike;
    forall i | 0 <= i < |messages| ensures AgreeAt(a, b, messages, p, i) {
      StaysInStep(a, b, messages, p, i);
      assert SameVisit(a.visits[i], b.visits[i], p);
    }
  }

  // ---------- When they do not ----------

  const UNLOADED := Snapshot([], map[], 0)

  /** A table, and at the next message five seconds later what loading gives then. */
  function TwoVisits(first: seq<ToolRow>, second: Table): History {
    History(30, UNLOADED, [Visit(None, 100, Ok(first), 100), Visit(None, 105, second, 105)])
  }

  /** An empty snapshot is never fresh, so a table without tools is reloaded at every message, and
      one with a single hidden tool is not. */
  lemma TwoAnswers(hidden: ToolRow, second: Table)
    ensures var list, a := [LIST, LIST], TwoVisits([], second);
      && Consults(LIST)
      && LoadAt(a, list, 0) == Ok([])
      && LoadAt(a, list, 1) == (match second case Ok(rows) => Ok(Views(rows)) case Err(text) => Err(text))
    ensures var list, b := [LIST, LIST], TwoVisits([hidden], second);
      && LoadAt(b, list, 0) == Ok(Views([hidden])) && LoadAt(b, list, 1) == Ok(Views([hidden]))
  {
    hide Index;
    var list, a, b := [LIST, LIST], TwoVisits([], second), TwoVisits([hidden], second);
    assert list[0] == list[1] == LIST;
    assert Consults(LIST) by { assert Field(LIST, "method") == Str("tools/list"); }
    assert Views([]) == [] && |Views([hidden])| == 1;
    assert SnapshotAt(a, list, 0) == UNLOADED && SnapshotAt(b, list, 0) == UNLOADED;
    assert SnapshotAt(a, list, 1) == Installed([], 100) && SnapshotAt(b, list, 1) == Installed([hidden], 100);
  }

  lemma HiddenListsNothing(hidden: ToolRow, p: Principal)
    requires !Visible(FromModel(hidden), p)
    ensures List(Views([hidden]), p) == [] && List([], p) == [] && UniqueNames(Views([hidden])) && UniqueNames(Views([]))
    ensures SeenBy(Views([hidden]), p) == SeenBy(Views([]), p)
  {
    var views := Views([hidden]);
    assert views == [FromModel(hidden)] && views[1..] == [] && Views([]) == [];
    AnonymousSeesNothing(views, p);
    AnonymousSeesNothing([], p);
  }

  /** The first listing is the same; then loading fails, and only the caller of the registry
      without tools hears of it: the hidden tool shows. */
  lemma HiddenToolHidesFailure(env: Env, p: Principal, hidden: ToolRow, failure: string)
    requires !Visible(FromModel(hidden), p)
    ensures var list, a, b := [LIST, LIST], TwoVisits([], Err(failure)), TwoVisits([hidden], Err(failure));
      var none := Exchange(Respond(Success(Null, Tools([]))), []);
      && Alike(a, b, p)
      && Exchanges(env, p, Loads(a, list), list) == [none, Crashed(Null, failure)]
      && Exchanges(env, p, Loads(b, list), list) == [none, none]
  {
    hide Handled, Index, UniqueNames, List, SnapshotAt, Answer;
    HiddenListsNothing(hidden, p);
    TwoAnswers(hidden, Err(failure));
    var list, a, b := [LIST, LIST], TwoVisits([], Err(failure)), TwoVisits([hidden], Err(failure));
    assert list[0] == list[1] == LIST;
    assert Views([]) == [];
    assert Entries([]) == [];
    ListIsHandled(env, 0, p, Ok([]));
    ListIsHandled(env, 1, p, Err(failure));
    ListIsHandled(env, 0, p, Ok(Views([hidden])));
    ListIsHandled(env, 1, p, Ok(Views([hidden])));
    assert SameVisit(a.visits[0], b.visits[0], p) && SameVisit(a.visits[1], b.visits[1], p);
  }

  /** In the same way a tool added in between is listed at once by the one and not by the other. */
  lemma HiddenToolDelaysCommit(env: Env, p: Principal, hidden: ToolRow, rows: seq<ToolRow>)
    requires !Visible(FromModel(hidden), p) && UniqueNames(Views(rows))
    ensures var list, a, b := [LIST, LIST], TwoVisits([], Ok(rows)), TwoVisits([hidden], Ok(rows));
      var none := Exchange(Respond(Success(Null, Tools([]))), []);
      && Alike(a, b, p)
      && Exchanges(env, p, Loads(a, list), list)
         == [none, Exchange(Respond(Success(Null, Tools(Entries(List(Views(rows), p))))), [])]
      && Exchanges(env, p, Loads(b, list), list) == [none, none]
  {
    hide Handled, Index, UniqueNames, List, SnapshotAt, Answer;
    HiddenListsNothing(hidden, p);
    TwoAnswers(hidden, Ok(rows));
    var list, a, b := [LIST, LIST], TwoVisits([], Ok(rows)), TwoVisits([hidden], Ok(rows));
    assert list[0] == list[1] == LIST;
    assert Views([]) == [];
    assert Entries([]) == [];
    ListIsHandled(env, 0, p, Ok([]));
    ListIsHandled(env, 1, p, Ok(Views(rows)));
    ListIsHandled(env, 0, p, Ok(Views([hidden])));
    ListIsHandled(env, 1, p, Ok(Views([hidden])));
    assert SameVisit(a.visits[0], b.visits[0], p) && SameVisit(a.visits[1], b.visits[1], p);
  }
}
