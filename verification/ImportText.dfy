/** What running the printed script does to the database. */
module ImportText {
  import opened Prelude
  import opened Json
  import opened Quoting
  import opened SqlDatabase
  import opened SqlLexer
  import opened SqlReader
  import opened ImportSpec
  import opened ImportPlan
  import opened ImportRender
  import opened ImportScript
  import opened ImportReader

  // ---------- Upserts ----------

  lemma {:induction false} RowHolds(columns: seq<string>, values: seq<Sql>, i: nat)
    requires |columns| == |values| && NoRepeats(columns) && i < |columns|
    ensures columns[i] in RowOf(columns, values) && RowOf(columns, values)[columns[i]] == values[i]
  {
    var n := |columns| - 1;
    if i < n {
      RowHolds(columns[..n], values[..n], i);
      assert columns[..n][i] == columns[i] && values[..n][i] == values[i];
      assert columns[i] != columns[n];
    }
  }

  lemma {:induction false} UpdatedHolds(row: Cells, columns: seq<string>, excluded: Cells, c: string)
    ensures Cell(Updated(row, Sets(columns), excluded), c) == if c in columns then Cell(excluded, c) else Cell(row, c)
    decreases |columns|
  {
    if columns != [] {
      var n := |columns| - 1;
      assert Sets(columns)[..n] == Sets(columns[..n]);
      UpdatedHolds(row, columns[..n], excluded, c);
      assert columns == columns[..n] + [columns[n]];
    }
  }

  lemma ColumnNames()
    ensures |COLUMNS| == 12 && |UPDATED| == 11 && UPDATED == COLUMNS[1..]
    ensures COLUMNS[0] == "name" && COLUMNS[1] == "display_name" && COLUMNS[2] == "description"
    ensures COLUMNS[3] == "category" && COLUMNS[4] == "dispatcher" && COLUMNS[5] == "config"
    ensures COLUMNS[6] == "auth_mode" && COLUMNS[7] == "secret_env_name" && COLUMNS[8] == "auth_header"
    ensures COLUMNS[9] == "auth_prefix" && COLUMNS[10] == "input_schema" && COLUMNS[11] == "output_schema"
  {
  }

  lemma ColumnsDiffer()
    ensures NoRepeats(COLUMNS)
  {
    ColumnNames();
  }

  lemma ColumnsFit()
    ensures forall c | c in COLUMNS :: c == "name" || c in SETTABLE
    ensures forall c | c in UPDATED :: c in SETTABLE && c in COLUMNS
  {
    ColumnNames();
  }

  lemma Proposed(name: string, c: Columns)
    ensures var row := RowOf(COLUMNS, UpsertValues(name, c));
      && Cell(row, "name") == SqlText(name) && Cell(row, "display_name") == c.displayName
      && Cell(row, "description") == SqlText(c.description) && Cell(row, "category") == c.category
      && Cell(row, "dispatcher") == c.dispatcher && Cell(row, "config") == c.config
      && Cell(row, "auth_mode") == c.authMode && Cell(row, "secret_env_name") == c.secretEnvName
      && Cell(row, "auth_header") == c.authHeader && Cell(row, "auth_prefix") == c.authPrefix
      && Cell(row, "input_schema") == c.inputSchema && Cell(row, "output_schema") == c.outputSchema
  {
    hide RowOf, NoRepeats, COLUMNS;
    ColumnNames();
    ColumnsDiffer();
    var values := UpsertValues(name, c);
    forall i | 0 <= i < 12 ensures Cell(RowOf(COLUMNS, values), COLUMNS[i]) == values[i] {
      RowHolds(COLUMNS, values, i);
    }
  }

  lemma UpsertPerforms(db: Db, name: string, c: Columns)
    ensures RowPut(db, Said(Upsert(name, c))) == Some(Execute(db, Upsert(name, c)))
  {
    hide RowOf, Updated, NoRepeats, COLUMNS, UPDATED, UpsertValues, Sets;
    ColumnNames();
    ValuesFit(name, c);
    var q, row := Said(Upsert(name, c)), RowOf(COLUMNS, UpsertValues(name, c));
    UpsertFitsTools(name, c);
    Proposed(name, c);
    assert ColumnsOf(row) == Some(c);
    if name in db.tools {
      MergedRow(CellsOf(db.tools[name].columns), name, c);
    }
  }

  lemma UpsertFitsTools(name: string, c: Columns)
    ensures FitsTools(Said(Upsert(name, c)))
  {
    hide NoRepeats, COLUMNS, UPDATED, UpsertValues, Sets, SETTABLE;
    ColumnNames();
    ColumnsDiffer();
    ColumnsFit();
    ValuesFit(name, c);
    SetsFit();
  }

  /** Every listed column of an existing row takes the proposed value. */
  lemma MergedRow(before: Cells, name: string, c: Columns)
    ensures |COLUMNS| == |UpsertValues(name, c)|
    ensures ColumnsOf(Updated(before, Sets(UPDATED), RowOf(COLUMNS, UpsertValues(name, c)))) == Some(c)
  {
    hide RowOf, Updated, COLUMNS, UPDATED, UpsertValues, Sets, Cell;
    ColumnNames();
    ValuesFit(name, c);
    var row := RowOf(COLUMNS, UpsertValues(name, c));
    Proposed(name, c);
    forall x | x in UPDATED ensures Cell(Updated(before, Sets(UPDATED), row), x) == Cell(row, x) {
      UpdatedHolds(before, UPDATED, row, x);
    }
    UpdatedNames();
  }

  lemma ValuesFit(name: string, c: Columns)
    ensures |UpsertValues(name, c)| == 12
  {
  }

  lemma SetsFit()
    ensures forall s | s in Sets(UPDATED) :: s.0 in UPDATED && s.1 == s.0
  {
    hide UPDATED;
  }

  lemma UpdatedNames()
    ensures "display_name" in UPDATED && "description" in UPDATED && "category" in UPDATED && "dispatcher" in UPDATED
    ensures "config" in UPDATED && "auth_mode" in UPDATED && "secret_env_name" in UPDATED && "auth_header" in UPDATED
    ensures "auth_prefix" in UPDATED && "input_schema" in UPDATED && "output_schema" in UPDATED
  {
    ColumnNames();
    forall i | 1 <= i < 12 ensures COLUMNS[i] in UPDATED {
      assert UPDATED[i - 1] == COLUMNS[i];
    }
  }

  // ---------- Statements ----------

  lemma ClearPerforms(db: Db, names: seq<string>)
    ensures RowsDropped(db, Said(ClearGrants(names))) == Some(Execute(db, ClearGrants(names)))
  {
    var q, after := Said(ClearGrants(names)), Execute(db, ClearGrants(names));
    var ids := SelectedIds(db, q.query).value;
    assert ids == Ids(db, names);
    assert (set g | g in db.grants && (g.0 in ids) == q.negated) == after.grants;
  }

  lemma GrantPerforms(db: Db, name: string, roles: seq<string>)
    ensures RowsAdded(db, Said(AddGrants(name, roles))) == Some(Execute(db, AddGrants(name, roles)))
  {
    var q, after := Said(AddGrants(name, roles)), Execute(db, AddGrants(name, roles));
    var added := set n, e | n in db.tools && n == q.text && e in q.elements :: (db.tools[n].id, e);
    if name in db.tools {
      assert added == set r | r in roles :: (db.tools[name].id, r);
    } else {
      assert added == {} && db.grants + added == db.grants;
    }
    assert RowsAdded(db, q) == Some(Db(db.tools, db.grants + added, db.nextId));
  }

  /** What a printed statement says, read by its keywords, names and positions, is what was
      meant: the same rows and grants, in and outside a transaction. */
  lemma StatementDoes(py: Python, c: Session, s: Statement)
    requires Printer(py) && WellShaped(s)
    ensures var read := Read(py, FeedSegments(Intended(py, s)).Tokens());
      read.Some? && Proceed(c, read.value) == Some(Step(c, s))
  {
    hide Read, Printer, Intended, RowPut, RowsDropped, RowsAdded, Execute;
    StatementSays(py, s);
    var db := if c.work.Some? then c.work.value else c.committed;
    match s {
      case Upsert(name, columns) => UpsertPerforms(db, name, columns);
      case ClearGrants(names) => ClearPerforms(db, names);
      case AddGrants(name, roles) => GrantPerforms(db, name, roles);
      case _ =>
    }
  }

  lemma {:induction false} PlayIsRun(py: Python, c: Session, script: seq<Statement>)
    requires Printer(py) && forall s | s in script :: WellShaped(s)
    ensures Play(py, c, IntendedAll(py, script)) == Run(c, script)
    decreases |script|
  {
    hide Read, Printer, Intended, WellShaped, Step, Proceed;
    if script != [] {
      assert script[0] in script;
      StatementDoes(py, c, script[0]);
      assert IntendedAll(py, script)[1..] == IntendedAll(py, script[1..]);
      PlayIsRun(py, Step(c, script[0]), script[1..]);
    }
  }

  /** Running the printed text of an accepted spec is a correct import of its tools when every
      description survives dollar quoting. Otherwise an error comes before COMMIT, so nothing that
      was run shows. Hence, into a database that does not hold the import yet, the text imports
      if and only if every description survives. */
  lemma TextImports(py: Python, spec: Spec, db: Db)
    requires Renderable(py, spec) && Valid(db) && Printer(py)
    ensures var plans := Plans(py, spec);
      var text, safe := ScriptText(py, Script(plans)), forall i | 0 <= i < |plans| :: Survives(plans[i].columns.description);
      && (Statements(text).error.None? <==> safe)
      && (if safe then Imported(db, RunText(py, text, db), plans) else RunText(py, text, db) == db)
      && (!Imported(db, db, plans) ==> (Imported(db, RunText(py, text, db), plans) <==> safe))
  {
    hide Renderable, Plans, Statements, ScriptText, IntendedAll, Imported, Run, Play, Survives, WellShaped, Printer, Script, SafeCount;
    var plans := Plans(py, spec);
    var script := Script(plans);
    var n := SafeCount(script);
    ScriptIsReadBack(py, spec);
    ScriptIsWellShaped(py, spec);
    forall s | s in script[..n] ensures WellShaped(s) {
      assert s in script;
    }
    PlayIsRun(py, Session(db, None), script[..n]);
    PlansAreDistinct(py, spec);
    ScriptCommitsOrNothing(db, plans, n);
    ScriptSafety(plans);
  }

  // ---------- From the spec's fields to the rows ----------

  /** What Python takes for false. */
  predicate Falsy(v: Value) {
    v == Null || v == Bool(false) || v == Int(0) || v == Str("") || v == Arr([]) || v == Obj(map[])
  }

  predicate Has(t: map<string, Value>, key: string) {
    key in t && !Falsy(t[key])
  }

  /** The column value of a JSON value. */
  predicate Holds(cell: Sql, v: Value) {
    match v
    case Null => cell == SqlNull
    case Bool(b) => cell == SqlBool(b)
    case Int(n) => cell == SqlInt(n)
    case Str(s) => cell == SqlText(s)
    case Arr(_) => cell == SqlJson(v)
    case Obj(_) => cell == SqlJson(v)
  }

  /** The timeout is the tool's own, or else the spec's, or else 45, read as an integer. */
  predicate TimeoutIs(py: Python, spec: Spec, t: map<string, Value>, n: int) {
    if Has(t, "timeout_sec") then ToInt(py, t["timeout_sec"]) == Some(n)
    else if Has(spec, "timeout_sec") then ToInt(py, spec["timeout_sec"]) == Some(n)
    else n == 45
  }

  predicate ConfigIs(py: Python, spec: Spec, t: map<string, Value>, config: map<string, Value>) {
    && config.Keys == {"base_url_env", "method", "path", "timeout_sec", "retries"}
         + (if Has(t, "param_map") then {"param_map"} else {}) + (if Has(t, "body_wrap") then {"body_wrap"} else {})
    && config["base_url_env"] == Str("CLOUDCOST_API_BASE") && config["method"] == Str("GET")
    && "path" in t && config["path"] == t["path"] && config["retries"] == Int(0)
    && config["timeout_sec"].Int? && TimeoutIs(py, spec, t, config["timeout_sec"].n)
    && (Has(t, "param_map") ==> config["param_map"] == t["param_map"])
    && (Has(t, "body_wrap") ==> config["body_wrap"] == t["body_wrap"])
  }

  /** The description: the tool's own, or else one made from its path. */
  function Described(py: Python, t: map<string, Value>): Value
    requires "path" in t
  {
    if Has(t, "description") then t["description"] else Str("CloudCost route " + ToText(py, t["path"]))
  }

  /** A row as the spec's entry for it wants it, column by column. */
  predicate RowIs(py: Python, spec: Spec, t: map<string, Value>, cells: Cells) {
    && cells.Keys == SETTABLE && {"name", "path"} <= t.Keys
    && (if Has(t, "display_name") then Holds(cells["display_name"], t["display_name"]) else Holds(cells["display_name"], t["name"]))
    && Holds(cells["description"], Described(py, t))
    && cells["category"] == SqlText("cloud_cost") && cells["dispatcher"] == SqlText("http_adapter")
    && cells["auth_mode"] == SqlText("user_passthrough") && cells["secret_env_name"] == SqlNull
    && cells["auth_header"] == SqlText("Authorization") && cells["auth_prefix"] == SqlText("Bearer ")
    && cells["config"].SqlJson? && cells["config"].v.Obj? && ConfigIs(py, spec, t, cells["config"].v.members)
    && (if Has(t, "input_schema") then Holds(cells["input_schema"], t["input_schema"])
        else cells["input_schema"] == SqlJson(Obj(map["type" := Str("object")])))
    && Holds(cells["output_schema"], if "output_schema" in t then t["output_schema"] else Null)
  }

  lemma OrIs(t: map<string, Value>, key: string, d: Value)
    ensures Truthy(Get(t, key)) <==> Has(t, key)
    ensures Or(Get(t, key), d) == if Has(t, key) then t[key] else d
  {
  }

  lemma LiteralHolds(v: Value)
    ensures Holds(LiteralOf(v), v)
  {
  }

  lemma TextIsText(v: Value)
    requires v.Str?
    ensures Holds(SqlText(v.s), v)
  {
  }

  lemma ObjectIsJson(v: Value)
    requires v.Obj?
    ensures LiteralOf(v) == SqlJson(v)
  {
  }

  lemma ConfigIsMeant(py: Python, spec: Spec, t: map<string, Value>, methodName: string, timeout: int)
    requires methodName == "GET" && "path" in t && TimeoutIs(py, spec, t, timeout)
    ensures var config := ConfigOf(Str(BASE_URL_ENV), methodName, t["path"], timeout, t);
      config.Obj? && ConfigIs(py, spec, t, config.members)
  {
    OrIs(t, "param_map", Null);
    OrIs(t, "body_wrap", Null);
  }

  lemma TimeoutIsMeant(py: Python, spec: Spec, t: Value)
    requires t.Obj? && DefaultTimeout(py, spec).Some? && TimeoutOf(py, t, DefaultTimeout(py, spec).value).Some?
    ensures TimeoutIs(py, spec, t.members, TimeoutOf(py, t, DefaultTimeout(py, spec).value).value)
  {
    OrIs(t.members, "timeout_sec", Int(DefaultTimeout(py, spec).value));
    OrIs(spec, "timeout_sec", Int(45));
  }

  lemma CellsHold(c: Columns)
    ensures var cells := CellsOf(c);
      && cells.Keys == SETTABLE
      && cells["display_name"] == c.displayName && cells["description"] == SqlText(c.description)
      && cells["category"] == c.category && cells["dispatcher"] == c.dispatcher && cells["config"] == c.config
      && cells["auth_mode"] == c.authMode && cells["secret_env_name"] == c.secretEnvName
      && cells["auth_header"] == c.authHeader && cells["auth_prefix"] == c.authPrefix
      && cells["input_schema"] == c.inputSchema && cells["output_schema"] == c.outputSchema
  {
  }

  /** The columns whose values come from the tool's fields. */
  lemma FieldsAreMeant(py: Python, t: Value)
    requires HasRequired(t) && DescriptionOf(py, t).Str?
    ensures var m := t.members;
      && Holds(LiteralOf(Or(Get(m, "display_name"), m["name"])), if Has(m, "display_name") then m["display_name"] else m["name"])
      && Described(py, m) == DescriptionOf(py, t)
      && (var cell := LiteralOf(Or(Get(m, "input_schema"), DEFAULT_INPUT_SCHEMA));
          if Has(m, "input_schema") then Holds(cell, m["input_schema"]) else cell == SqlJson(DEFAULT_INPUT_SCHEMA))
      && Holds(LiteralOf(Get(m, "output_schema")), if "output_schema" in m then m["output_schema"] else Null)
  {
    hide LiteralOf, Holds, Truthy, Or, Has;
    var m := t.members;
    OrIs(m, "display_name", m["name"]);
    OrIs(m, "description", Str("CloudCost route " + ToText(py, m["path"])));
    OrIs(m, "input_schema", DEFAULT_INPUT_SCHEMA);
    LiteralHolds(Or(Get(m, "display_name"), m["name"]));
    LiteralHolds(Or(Get(m, "input_schema"), DEFAULT_INPUT_SCHEMA));
    LiteralHolds(Get(m, "output_schema"));
    ObjectIsJson(DEFAULT_INPUT_SCHEMA);
  }

  lemma PlanHasFields(py: Python, spec: Spec, t: Value, timeout: int)
    requires RolesOk(Get(spec, "roles")) && ToolOk(py, t) && Printable(py, t, timeout)
    ensures var p, m := PlanOf(py, spec, t, timeout), t.members;
      && p.Some? && p.value.name == NameOf(py, t)
      && (var c := p.value.columns;
          && c.displayName == LiteralOf(Or(Get(m, "display_name"), m["name"]))
          && c.description == DescriptionOf(py, t).s
          && c.category == SqlText("cloud_cost") && c.dispatcher == SqlText("http_adapter")
          && c.config == SqlJson(ConfigOf(Get(spec, "base_url_env"), py.upper(m["method"].s), m["path"], TimeoutOf(py, t, timeout).value, m))
          && c.authMode == SqlText("user_passthrough") && c.secretEnvName == SqlNull
          && c.authHeader == SqlText("Authorization") && c.authPrefix == SqlText("Bearer ")
          && c.inputSchema == LiteralOf(Or(Get(m, "input_schema"), DEFAULT_INPUT_SCHEMA))
          && c.outputSchema == LiteralOf(Get(m, "output_schema")))
  {
    hide ParamMapOk, PathAllowed, ConfigOf, TimeoutOf, DescriptionOf, LiteralOf, Or;
  }

  lemma PlannedRowIs(py: Python, spec: Spec, t: Value, timeout: int)
    requires RolesOk(Get(spec, "roles")) && ToolOk(py, t) && Get(spec, "base_url_env") == Str(BASE_URL_ENV)
    requires DefaultTimeout(py, spec) == Some(timeout) && Printable(py, t, timeout)
    ensures var p := PlanOf(py, spec, t, timeout);
      && p.Some? && t.members["name"] == Str(p.value.name) && RowIs(py, spec, t.members, CellsOf(p.value.columns))
      && Described(py, t.members) == Str(p.value.columns.description)
  {
    hide PlanOf, ParamMapOk, PathAllowed, ConfigOf, ConfigIs, TimeoutIs, TimeoutOf, DescriptionOf, LiteralOf, Holds, Or, Has, CellsOf, SETTABLE, Described;
    var m := t.members;
    PlanHasFields(py, spec, t, timeout);
    var c := PlanOf(py, spec, t, timeout).value.columns;
    NameIsText(py, m["name"]);
    FieldsAreMeant(py, t);
    TimeoutIsMeant(py, spec, t);
    ConfigIsMeant(py, spec, m, py.upper(m["method"].s), TimeoutOf(py, t, timeout).value);
    CellsHold(c);
    TextIsText(Described(py, m));
  }

  /** The role list that counts for a tool: its own, if it has one. */
  function RoleList(spec: Spec, t: map<string, Value>): Value {
    if "roles" in t then t["roles"] else Get(spec, "roles")
  }

  /** What an entry of the spec becomes in the table: its row, of the same id and with `enabled` and
      `version` as before when there was one, and the roles of its list and no others. */
  ghost predicate EntryImported(py: Python, spec: Spec, t: map<string, Value>, before: Db, after: Db) {
    && "name" in t && t["name"].Str?
    && (var name := t["name"].s;
        && name in after.tools
        && RowIs(py, spec, t, CellsOf(after.tools[name].columns))
        && (if name in before.tools
            then after.tools[name] == before.tools[name].(columns := after.tools[name].columns)
            else after.tools[name].enabled && after.tools[name].version == 1)
        && RoleList(spec, t).Arr?
        && (forall role :: HasRole(after, name, role) <==> Str(role) in RoleList(spec, t).items))
  }

  lemma PlanIsEntry(py: Python, spec: Spec, before: Db, after: Db, i: nat)
    requires Renderable(py, spec) && i < |Plans(py, spec)| && Imported(before, after, Plans(py, spec))
    ensures var t := Get(spec, "tools").items[i];
      && t.Obj? && EntryImported(py, spec, t.members, before, after)
      && Described(py, t.members) == Str(Plans(py, spec)[i].columns.description)
  {
    hide PlanOf, ToolOk, RowIs, CellsOf, Described, Printable, Valid, HasRole;
    var t, plans := Get(spec, "tools").items[i], Plans(py, spec);
    assert ToolOk(py, t);
    ToolHasFields(py, t);
    PlannedRowIs(py, spec, t, DefaultTimeout(py, spec).value);
    assert RowImported(before, after, plans[i]);
    forall role ensures HasRole(after, plans[i].name, role) <==> Str(role) in RoleList(spec, t.members).items {
      PlanRoles(py, spec, i, role);
    }
  }

  lemma ToolHasFields(py: Python, t: Value)
    requires ToolOk(py, t)
    ensures HasRequired(t) && ("roles" in t.members ==> t.members["roles"].Arr?)
  {
  }

  ghost predicate NamedIn(items: seq<Value>, name: string) {
    exists i :: 0 <= i < |items| && items[i].Obj? && Get(items[i].members, "name") == Str(name)
  }

  /** From the fields of the spec to the tables, by way of the text: when no description is lost,
      running the printed text makes every entry of the spec its row and its roles, and leaves every
      other row and its roles as they were. */
  lemma TextMeans(py: Python, spec: Spec, db: Db)
    requires Renderable(py, spec) && Valid(db) && Printer(py)
    ensures var items := Get(spec, "tools").items;
      var after := RunText(py, ScriptText(py, Script(Plans(py, spec))), db);
      && (forall i | 0 <= i < |items| :: items[i].Obj? && "path" in items[i].members && Described(py, items[i].members).Str?)
      && ((forall i | 0 <= i < |items| :: Survives(Described(py, items[i].members).s)) ==>
            && (forall i | 0 <= i < |items| :: EntryImported(py, spec, items[i].members, db, after))
            && (forall n | n in db.tools && !NamedIn(items, n) ::
                  n in after.tools && after.tools[n] == db.tools[n] && forall r :: HasRole(after, n, r) <==> HasRole(db, n, r))
            && (forall n | n in after.tools && n !in db.tools :: NamedIn(items, n)))
  {
    hide Plans, ToolsOk, ScriptText, Script, RunText, Survives, Described, RowImported, Valid, HasRole, EntryImported, Statements;
    var items, plans := Get(spec, "tools").items, Plans(py, spec);
    TextImports(py, spec, db);
    var after := RunText(py, ScriptText(py, Script(plans)), db);
    EntriesAreDescribed(py, spec);
    if forall i | 0 <= i < |items| :: Survives(Described(py, items[i].members).s) {
      assert Imported(db, after, plans);
      forall i | 0 <= i < |items| ensures EntryImported(py, spec, items[i].members, db, after) {
        PlanIsEntry(py, spec, db, after, i);
      }
      forall n | Named(plans, n) ensures NamedIn(items, n) {
        var i :| 0 <= i < |plans| && plans[i].name == n;
        EntryHasName(py, spec, i);
      }
    }
  }

  lemma EntryHasName(py: Python, spec: Spec, i: nat)
    requires Renderable(py, spec) && i < |Plans(py, spec)|
    ensures var t := Get(spec, "tools").items[i];
      t.Obj? && Get(t.members, "name") == Str(Plans(py, spec)[i].name)
  {
    hide PlanOf, ToolOk, RowIs, CellsOf, Described, Printable;
    var t := Get(spec, "tools").items[i];
    assert ToolOk(py, t);
    PlannedRowIs(py, spec, t, DefaultTimeout(py, spec).value);
    ToolHasFields(py, t);
  }

  lemma EntriesAreDescribed(py: Python, spec: Spec)
    requires Renderable(py, spec)
    ensures var items, plans := Get(spec, "tools").items, Plans(py, spec);
      forall i | 0 <= i < |items| ::
        items[i].Obj? && "path" in items[i].members && Described(py, items[i].members) == Str(plans[i].columns.description)
  {
    hide PlanOf, ToolOk, RowIs, CellsOf, Described, Printable;
    var items := Get(spec, "tools").items;
    forall i | 0 <= i < |items|
      ensures items[i].Obj? && "path" in items[i].members
        && Described(py, items[i].members) == Str(Plans(py, spec)[i].columns.description)
    {
      assert ToolOk(py, items[i]);
      ToolHasFields(py, items[i]);
      PlannedRowIs(py, spec, items[i], DefaultTimeout(py, spec).value);
    }
  }
}
