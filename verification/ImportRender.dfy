/** From an accepted spec to the SQL text of `render_sql`. */
module ImportRender {
  import opened Prelude
  import opened Json
  import opened Text
  import opened Quoting
  import opened SqlDatabase
  import opened SqlLexer
  import opened ImportSpec
  import opened ImportPlan

  // ---------- The rows an import writes ----------

  /** `_psql_literal` as a column value. */
  function LiteralOf(v: Value): Sql {
    match v
    case Null => SqlNull
    case Bool(b) => SqlBool(b)
    case Int(n) => SqlInt(n)
    case Str(s) => SqlText(s)
    case _ => SqlJson(v)
  }

  function WithParamMap(config: map<string, Value>, t: map<string, Value>): map<string, Value> {
    if Truthy(Get(t, "param_map")) then config["param_map" := t["param_map"]] else config
  }

  function WithBodyWrap(config: map<string, Value>, t: map<string, Value>): map<string, Value> {
    if Truthy(Get(t, "body_wrap")) then config["body_wrap" := t["body_wrap"]] else config
  }

  function ConfigOf(baseUrlEnv: Value, methodName: string, path: Value, timeout: int, t: map<string, Value>): Value {
    var config := map[
      "base_url_env" := baseUrlEnv,
      "method" := Str(methodName),
      "path" := path,
      "timeout_sec" := Int(timeout),
      "retries" := Int(0)];
    Obj(WithBodyWrap(WithParamMap(config, t), t))
  }

  const DEFAULT_INPUT_SCHEMA := Obj(map["type" := Str("object")])

  function TimeoutOf(py: Python, t: Value, defaultTimeout: int): Option<int>
    requires t.Obj?
  {
    ToInt(py, Or(Get(t.members, "timeout_sec"), Int(defaultTimeout)))
  }

  function DescriptionOf(py: Python, t: Value): Value
    requires HasRequired(t)
  {
    Or(Get(t.members, "description"), Str("CloudCost route " + ToText(py, t.members["path"])))
  }

  /** Printing the tool raises nothing. */
  predicate Printable(py: Python, t: Value, defaultTimeout: int)
    requires HasRequired(t)
  {
    t.members["method"].Str? && TimeoutOf(py, t, defaultTimeout).Some? && DescriptionOf(py, t).Str?
  }

  /** One tool's row and roles; None where Python raises something other than SpecError. */
  function PlanOf(py: Python, spec: Spec, t: Value, defaultTimeout: int): Option<ToolPlan>
    requires RolesOk(Get(spec, "roles")) && ToolOk(py, t)
  {
    var m := t.members;
    if !Printable(py, t, defaultTimeout) then None
    else
      Some(ToolPlan(
        NameOf(py, t),
        Columns(
          LiteralOf(Or(Get(m, "display_name"), m["name"])),
          DescriptionOf(py, t).s,
          SqlText("cloud_cost"),
          SqlText("http_adapter"),
          SqlJson(ConfigOf(Get(spec, "base_url_env"), py.upper(m["method"].s), m["path"], TimeoutOf(py, t, defaultTimeout).value, m)),
          SqlText("user_passthrough"),
          SqlNull,
          SqlText("Authorization"),
          SqlText("Bearer "),
          LiteralOf(Or(Get(m, "input_schema"), DEFAULT_INPUT_SCHEMA)),
          LiteralOf(Get(m, "output_schema"))),
        RolesOf(spec, t)))
  }

  predicate OwnRolesOk(t: Value) {
    t.Obj? && ("roles" in t.members ==> RolesOk(t.members["roles"]))
  }

  /** The tool's own roles, or the spec's. */
  function RolesOf(spec: Spec, t: Value): seq<string>
    requires RolesOk(Get(spec, "roles")) && OwnRolesOk(t)
  {
    if "roles" in t.members then Dedup(Strings(t.members["roles"].items))
    else Dedup(Dedup(Strings(Get(spec, "roles").items)))
  }

  function DefaultTimeout(py: Python, spec: Spec): Option<int> {
    ToInt(py, Or(Get(spec, "timeout_sec"), Int(45)))
  }

  /** Accepted specs on which nothing raises. */
  ghost predicate Renderable(py: Python, spec: Spec) {
    && Accepted(py, spec)
    && DefaultTimeout(py, spec).Some?
    && forall i | 0 <= i < |Get(spec, "tools").items| ::
         Printable(py, Get(spec, "tools").items[i], DefaultTimeout(py, spec).value)
  }

  ghost function Plans(py: Python, spec: Spec): (plans: seq<ToolPlan>)
    requires Renderable(py, spec)
    ensures |plans| == |Get(spec, "tools").items| > 0
  {
    var items := Get(spec, "tools").items;
    seq(|items|, i requires 0 <= i < |items| =>
      PlanOf(py, spec, items[i], DefaultTimeout(py, spec).value).value)
  }

  lemma PlansAreDistinct(py: Python, spec: Spec)
    requires Renderable(py, spec)
    ensures Distinct(Plans(py, spec))
  {
  }

  // ---------- Compiler correctness ----------

  /** Where a tool's roles come from. */
  function RoleSource(spec: Spec, t: Value): Value
    requires t.Obj?
  {
    if "roles" in t.members then t.members["roles"] else Get(spec, "roles")
  }

  lemma PlanRoles(py: Python, spec: Spec, i: nat, role: string)
    requires Renderable(py, spec) && i < |Plans(py, spec)|
    ensures var t := Get(spec, "tools").items[i];
      && HasRequired(t) && Plans(py, spec)[i].name == NameOf(py, t)
      && (role in Plans(py, spec)[i].roles <==> Str(role) in RoleSource(spec, t).items)
  {
    var t := Get(spec, "tools").items[i];
    assert ToolOk(py, t);
    RolesAreMeant(RoleSource(spec, t), role);
  }

  /** Running the statements of an accepted spec gives each of its tools exactly its own
      roles, or the default ones, keeps what the admin owns, touches nothing else, and is
      invisible until it commits. */
  lemma ImportIsCorrect(py: Python, spec: Spec, db: Db)
    requires Renderable(py, spec) && Valid(db)
    ensures var script, items := Script(Plans(py, spec)), Get(spec, "tools").items;
      var after := Run(Session(db, None), script).committed;
      && Imported(db, after, Plans(py, spec))
      && (forall i, role | 0 <= i < |items| ::
           HasRole(after, NameOf(py, items[i]), role) <==> Str(role) in RoleSource(spec, items[i]).items)
      && (forall k | 0 <= k < |script| :: Run(Session(db, None), script[..k]).committed == db)
  {
    hide PlanOf, Run, RowImported, Valid, Printable, PathAllowed, ParamMapOk, HasRole;
    var items, plans := Get(spec, "tools").items, Plans(py, spec);
    PlansAreDistinct(py, spec);
    var script := Script(plans);
    ScriptCommitsOrNothing(db, plans, |script|);
    assert script[..|script|] == script;
    var after := Run(Session(db, None), script).committed;
    forall i, role | 0 <= i < |items|
      ensures HasRole(after, NameOf(py, items[i]), role) <==> Str(role) in RoleSource(spec, items[i]).items
    {
      PlanRoles(py, spec, i, role);
      assert HasRole(after, plans[i].name, role) <==> role in plans[i].roles;
    }
    forall k | 0 <= k < |script| ensures Run(Session(db, None), script[..k]).committed == db {
      ScriptCommitsOrNothing(db, plans, k);
    }
  }

  lemma RolesAreMeant(roles: Value, role: string)
    requires RolesOk(roles)
    ensures role in Dedup(Strings(roles.items)) <==> Str(role) in roles.items
  {
    var names := Strings(roles.items);
    if role in names {
      var i :| 0 <= i < |names| && names[i] == role;
      assert roles.items[i] == Str(role);
    }
    if Str(role) in roles.items {
      var i :| 0 <= i < |roles.items| && roles.items[i] == Str(role);
      assert names[i] == role;
    }
  }

  /** Importing the same spec again changes no tool field and no (tool, role) pair. */
  lemma ImportIsIdempotent(py: Python, spec: Spec, db: Db)
    requires Renderable(py, spec) && Valid(db)
    ensures var script := Script(Plans(py, spec));
      var once := Run(Session(db, None), script).committed;
      var twice := Run(Session(once, None), script).committed;
      once.tools == twice.tools && once.grants == twice.grants
  {
    var plans := Plans(py, spec);
    var once := Run(Session(db, None), Script(plans)).committed;
    ImportIsCorrect(py, spec, db);
    ImportIsCorrect(py, spec, once);
    SecondImportChangesNothing(db, once, Run(Session(once, None), Script(plans)).committed, plans);
  }

  // ---------- The printed statements ----------

  const TOOLS := "chat_gw.tools"
  const GRANTS := "chat_gw.tool_role_grants"

  const FIRST_COLUMNS: seq<string> :=
    ["name", "display_name", "description", "category", "dispatcher", "config"]

  const LAST_COLUMNS: seq<string> :=
    ["auth_mode", "secret_env_name", "auth_header", "auth_prefix", "input_schema", "output_schema"]

  function Line(words: seq<string>): string {
    Join(words, " ")
  }

  function ColumnList(first: seq<string>, last: seq<string>): string {
    "\n    (" + Join(first, ", ") + (",\n     " + Join(last, ", "))
  }

  function InsertHead(first: seq<string>, last: seq<string>): string {
    Line(["INSERT", "INTO", TOOLS]) + ColumnList(first, last) + ")\nVALUES (\n    "
  }

  /** `c = EXCLUDED.c`: an existing row keeps every column not listed. */
  function Updates(columns: seq<string>): seq<string> {
    seq(|columns|, i requires 0 <= i < |columns| => "    " + Line([columns[i], "=", "EXCLUDED." + columns[i]]))
  }

  function InsertTail(columns: seq<string>): string {
    "\n)\n" + Line(["ON", "CONFLICT", "(name)", "DO", "UPDATE", "SET"]) + "\n" + Join(Updates(columns), ",\n")
  }

  const CLEAR_HEAD :=
    Line(["DELETE", "FROM", GRANTS]) + "\n"
    + Line(["WHERE", "tool_id", "IN"]) + " (" + Line(["SELECT", "id", "FROM", TOOLS, "WHERE", "name", "IN"]) + " ("

  const GRANT_HEAD :=
    Line(["INSERT", "INTO", GRANTS]) + " (" + Join(["tool_id", "role"], ", ") + ")\n"
    + "SELECT " + Join(["id", "r"], ", ") + " " + Line(["FROM", TOOLS]) + ", unnest(ARRAY["

  const GRANT_MIDDLE := "]) AS r\n" + Line(["WHERE", TOOLS + ".name", "="]) + " "

  const GRANT_TAIL := "\n" + Line(["ON", "CONFLICT", "DO", "NOTHING"])

  const COLUMN_SEPARATOR := ",\n    "

  function LiteralPieces(py: Python, v: Sql): seq<Piece> {
    match v
    case SqlNull => [Raw("NULL")]
    case SqlBool(b) => [Raw(if b then "TRUE" else "FALSE")]
    case SqlInt(n) => [Raw(Decimal(n))]
    case SqlText(s) => [Quoted(s)]
    case SqlJson(j) => [Quoted(py.dumps(j)), Raw("::jsonb")]
  }

  /** What comes before and after the description. */
  function UpsertBefore(py: Python, name: string, c: Columns): seq<Piece> {
    [Raw(InsertHead(FIRST_COLUMNS, LAST_COLUMNS))]
    + JoinPieces([[Quoted(name)], LiteralPieces(py, c.displayName)], COLUMN_SEPARATOR)
    + [Raw(COLUMN_SEPARATOR)]
  }

  function UpsertAfter(py: Python, c: Columns): seq<Piece> {
    [Raw(COLUMN_SEPARATOR)]
    + JoinPieces(Literals(py, ColumnsAfter(c)), COLUMN_SEPARATOR)
    + [Raw(InsertTail(FIRST_COLUMNS[1..] + LAST_COLUMNS))]
  }

  function ColumnsAfter(c: Columns): seq<Sql> {
    [c.category, c.dispatcher, c.config, c.authMode, c.secretEnvName, c.authHeader, c.authPrefix,
     c.inputSchema, c.outputSchema]
  }

  function Literals(py: Python, values: seq<Sql>): seq<seq<Piece>> {
    seq(|values|, i requires 0 <= i < |values| => LiteralPieces(py, values[i]))
  }

  function Quotes(names: seq<string>): seq<seq<Piece>> {
    seq(|names|, i requires 0 <= i < |names| => [Quoted(names[i])])
  }

  function StatementPieces(py: Python, s: Statement): seq<Piece> {
    match s
    case Begin => [Raw("BEGIN")]
    case Commit => [Raw("COMMIT")]
    case Upsert(name, columns) =>
      UpsertBefore(py, name, columns) + [Dollar(columns.description)] + UpsertAfter(py, columns)
    case ClearGrants(names) =>
      [Raw(CLEAR_HEAD)] + JoinPieces(Quotes(names), ", ") + [Raw("))")]
    case AddGrants(name, roles) =>
      [Raw(GRANT_HEAD)] + JoinPieces(Quotes(roles), ", ")
      + [Raw(GRANT_MIDDLE)] + [Quoted(name)] + [Raw(GRANT_TAIL)]
  }

  function PrintStatement(py: Python, s: Statement): string {
    PrintAll(StatementPieces(py, s)) + ";"
  }

  lemma PlainColumns()
    ensures forall c | c in FIRST_COLUMNS :: Plain(c)
    ensures forall c | c in LAST_COLUMNS :: Plain(c)
  {
  }

  lemma {:induction false} PlainJoin(parts: seq<string>, sep: string)
    requires Plain(sep) && forall t | t in parts :: Plain(t)
    ensures Plain(Join(parts, sep))
  {
    if parts != [] {
      assert parts[0] in parts;
      if |parts| > 1 {
        PlainJoin(parts[1..], sep);
        Plain3(parts[0], sep, Join(parts[1..], sep));
      }
    }
  }

  lemma Plain3(a: string, b: string, c: string)
    requires Plain(a) && Plain(b) && Plain(c)
    ensures Plain(a + b + c)
  {
    PlainConcat(a, b);
    PlainConcat(a + b, c);
  }

  lemma PlainLine(words: seq<string>)
    requires forall t | t in words :: Plain(t)
    ensures Plain(Line(words))
  {
    assert Plain(" ");
    PlainJoin(words, " ");
  }

  lemma PlainUpdates(columns: seq<string>)
    requires forall c | c in columns :: Plain(c)
    ensures forall t | t in Updates(columns) :: Plain(t)
  {
    hide Join;
    forall i | 0 <= i < |columns| ensures Plain(Updates(columns)[i]) {
      var c := columns[i];
      assert c in columns && Plain("    ") && Plain("=") && Plain("EXCLUDED.");
      PlainConcat("EXCLUDED.", c);
      PlainLine([c, "=", "EXCLUDED." + c]);
      PlainConcat("    ", Line([c, "=", "EXCLUDED." + c]));
    }
  }

  lemma PlainSmall()
    ensures Plain(", ") && Plain(",\n") && Plain(",\n     ") && Plain("))") && Plain("::jsonb")
    ensures Plain("NULL") && Plain("TRUE") && Plain("FALSE") && Plain("BEGIN") && Plain("COMMIT")
    ensures Plain(COLUMN_SEPARATOR) && !EndsInWord(COLUMN_SEPARATOR) && !EndsInWord(", ")
  {
  }

  lemma PlainTables()
    ensures Plain(TOOLS) && Plain(GRANTS)
  {
  }

  lemma PlainColumnList(first: seq<string>, last: seq<string>)
    requires forall c | c in first :: Plain(c)
    requires forall c | c in last :: Plain(c)
    ensures Plain(ColumnList(first, last))
  {
    PlainSmall();
    PlainJoin(first, ", ");
    PlainJoin(last, ", ");
    PlainConcat(",\n     ", Join(last, ", "));
    assert Plain("\n    (");
    Plain3("\n    (", Join(first, ", "), ",\n     " + Join(last, ", "));
  }

  lemma PlainInsertLine(table: string)
    requires Plain(table)
    ensures Plain(Line(["INSERT", "INTO", table]))
  {
    hide Join;
    assert Plain("INSERT") && Plain("INTO");
    PlainLine(["INSERT", "INTO", table]);
  }

  lemma PlainInsertHead(first: seq<string>, last: seq<string>)
    requires forall c | c in first :: Plain(c)
    requires forall c | c in last :: Plain(c)
    ensures InsertHead(first, last) != "" && Plain(InsertHead(first, last)) && !EndsInWord(InsertHead(first, last))
  {
    hide Line, ColumnList;
    PlainTables();
    PlainInsertLine(TOOLS);
    PlainColumnList(first, last);
    assert Plain(")\nVALUES (\n    ");
    Plain3(Line(["INSERT", "INTO", TOOLS]), ColumnList(first, last), ")\nVALUES (\n    ");
  }

  lemma PlainConflict()
    ensures Plain(Line(["ON", "CONFLICT", "(name)", "DO", "UPDATE", "SET"]))
  {
    hide Join;
    PlainLine(["ON", "CONFLICT", "(name)", "DO", "UPDATE", "SET"]);
  }

  lemma PlainInsertTail(columns: seq<string>)
    requires forall c | c in columns :: Plain(c)
    ensures Plain(InsertTail(columns))
  {
    hide Line;
    PlainSmall();
    PlainUpdates(columns);
    PlainJoin(Updates(columns), ",\n");
    PlainConflict();
    assert Plain("\n)\n") && Plain("\n");
    var line := Line(["ON", "CONFLICT", "(name)", "DO", "UPDATE", "SET"]);
    Plain3("\n)\n", line, "\n");
    PlainConcat("\n)\n" + line + "\n", Join(Updates(columns), ",\n"));
  }

  lemma PlainClearLines()
    ensures Plain(Line(["DELETE", "FROM", GRANTS])) && Plain(Line(["WHERE", "tool_id", "IN"]))
    ensures Plain(Line(["SELECT", "id", "FROM", TOOLS, "WHERE", "name", "IN"]))
  {
    hide Join, TOOLS, GRANTS;
    PlainTables();
    PlainLine(["DELETE", "FROM", GRANTS]);
    PlainLine(["WHERE", "tool_id", "IN"]);
    PlainLine(["SELECT", "id", "FROM", TOOLS, "WHERE", "name", "IN"]);
  }

  lemma PlainClearHead()
    ensures Plain(CLEAR_HEAD) && !EndsInWord(CLEAR_HEAD)
  {
    hide Line;
    PlainClearLines();
    assert Plain("\n") && Plain(" (");
    var a, b, c := Line(["DELETE", "FROM", GRANTS]), Line(["WHERE", "tool_id", "IN"]),
      Line(["SELECT", "id", "FROM", TOOLS, "WHERE", "name", "IN"]);
    Plain3(a, "\n", b);
    Plain3(a + "\n" + b, " (", c);
    PlainConcat(a + "\n" + b + " (" + c, " (");
  }

  lemma PlainGrantParts()
    ensures Plain(Line(["INSERT", "INTO", GRANTS])) && Plain(Line(["FROM", TOOLS]))
    ensures Plain(Join(["tool_id", "role"], ", ")) && Plain(Join(["id", "r"], ", "))
  {
    hide Join, TOOLS, GRANTS;
    PlainTables();
    PlainInsertLine(GRANTS);
    PlainLine(["FROM", TOOLS]);
    assert Plain(", ");
    PlainJoin(["tool_id", "role"], ", ");
    PlainJoin(["id", "r"], ", ");
  }

  lemma PlainGrantHead()
    ensures GRANT_HEAD != "" && Plain(GRANT_HEAD) && !EndsInWord(GRANT_HEAD)
  {
    hide Line, Join;
    PlainGrantParts();
    assert Plain(" (") && Plain(")\n") && Plain("SELECT ") && Plain(" ") && Plain(", unnest(ARRAY[");
    var a, b, c, d := Line(["INSERT", "INTO", GRANTS]), Join(["tool_id", "role"], ", "), Join(["id", "r"], ", "),
      Line(["FROM", TOOLS]);
    Plain3(a, " (", b);
    Plain3(a + " (" + b, ")\n", "SELECT ");
    Plain3(a + " (" + b + ")\n" + "SELECT ", c, " ");
    Plain3(a + " (" + b + ")\n" + "SELECT " + c + " ", d, ", unnest(ARRAY[");
  }

  lemma PlainGrantRest()
    ensures GRANT_MIDDLE != "" && Plain(GRANT_MIDDLE) && !EndsInWord(GRANT_MIDDLE)
    ensures GRANT_TAIL != "" && Plain(GRANT_TAIL)
  {
    hide Join, TOOLS;
    PlainTables();
    assert Plain(".name") && Plain("]) AS r\n") && Plain(" ") && Plain("\n");
    PlainConcat(TOOLS, ".name");
    PlainLine(["WHERE", TOOLS + ".name", "="]);
    Plain3("]) AS r\n", Line(["WHERE", TOOLS + ".name", "="]), " ");
    PlainLine(["ON", "CONFLICT", "DO", "NOTHING"]);
    PlainConcat("\n", Line(["ON", "CONFLICT", "DO", "NOTHING"]));
  }

  lemma PlainDecimal(n: int)
    ensures Plain(Decimal(n))
  {
    var t := Decimal(n);
    forall i | 0 <= i < |t| ensures PlainAt(t, i) {
      if n < 0 {
        assert t == "-" + Digits(-n);
        if i > 0 { assert t[i] == Digits(-n)[i - 1]; }
        assert Digits(-n)[0] in Digits(-n);
        if i > 0 { assert Digits(-n)[i - 1] in Digits(-n); }
      } else {
        assert t[i] in Digits(n);
      }
    }
  }

  lemma RawFits(t: string)
    requires t != "" && Plain(t)
    ensures Literal([Raw(t)])
  {
  }

  lemma ConstantFits(p: Piece)
    requires !p.Raw?
    ensures Literal([p])
  {
  }

  lemma LiteralFits(py: Python, v: Sql)
    ensures Literal(LiteralPieces(py, v))
    ensures AllSurvive(LiteralPieces(py, v))
  {
    PlainSmall();
    match v {
      case SqlNull => RawFits("NULL");
      case SqlBool(b) => RawFits(if b then "TRUE" else "FALSE");
      case SqlInt(n) => PlainDecimal(n); RawFits(Decimal(n));
      case SqlText(s) => ConstantFits(Quoted(s));
      case SqlJson(j) =>
        var q := Quoted(py.dumps(j));
        ConstantFits(q);
        RawFits("::jsonb");
        FitsConcat([q], [Raw("::jsonb")]);
        assert [q] + [Raw("::jsonb")] == LiteralPieces(py, v);
    }
  }

  // ---------- The printed statements are read back ----------

  lemma QuotesFit(names: seq<string>)
    requires names != []
    ensures Literal(JoinPieces(Quotes(names), ", "))
    ensures AllSurvive(JoinPieces(Quotes(names), ", "))
  {
    PlainSmall();
    forall ps | ps in Quotes(names) ensures Literal(ps) && AllSurvive(ps) {
      var i :| 0 <= i < |names| && ps == [Quoted(names[i])];
      ConstantFits(Quoted(names[i]));
    }
    JoinFits(Quotes(names), ", ");
    JoinSurvives(Quotes(names), ", ");
  }

  lemma {:induction false} JoinSurvives(items: seq<seq<Piece>>, sep: string)
    requires forall ps | ps in items :: AllSurvive(ps)
    ensures AllSurvive(JoinPieces(items, sep))
  {
    if items != [] {
      assert items[0] in items;
      JoinSurvives(items[1..], sep);
    }
  }

  lemma LiteralsFit(py: Python, values: seq<Sql>)
    requires values != []
    ensures Literal(JoinPieces(Literals(py, values), COLUMN_SEPARATOR))
    ensures AllSurvive(JoinPieces(Literals(py, values), COLUMN_SEPARATOR))
  {
    PlainSmall();
    forall ps | ps in Literals(py, values) ensures Literal(ps) && AllSurvive(ps) {
      var i :| 0 <= i < |values| && ps == LiteralPieces(py, values[i]);
      LiteralFits(py, values[i]);
    }
    JoinFits(Literals(py, values), COLUMN_SEPARATOR);
    JoinSurvives(Literals(py, values), COLUMN_SEPARATOR);
  }

  lemma UpsertBeforeFits(py: Python, name: string, c: Columns)
    ensures Literal(UpsertBefore(py, name, c)) && AllSurvive(UpsertBefore(py, name, c))
  {
    hide InsertHead, FIRST_COLUMNS, LAST_COLUMNS, Plain;
    PlainSmall();
    PlainColumns();
    PlainInsertHead(FIRST_COLUMNS, LAST_COLUMNS);
    LiteralsFit(py, [SqlText(name), c.displayName]);
    assert Literals(py, [SqlText(name), c.displayName]) == [[Quoted(name)], LiteralPieces(py, c.displayName)];
    EnclosedFits(InsertHead(FIRST_COLUMNS, LAST_COLUMNS),
      JoinPieces([[Quoted(name)], LiteralPieces(py, c.displayName)], COLUMN_SEPARATOR), COLUMN_SEPARATOR);
  }

  lemma UpsertAfterFits(py: Python, c: Columns)
    ensures Literal(UpsertAfter(py, c)) && AllSurvive(UpsertAfter(py, c))
  {
    PlainSmall();
    PlainColumns();
    PlainInsertTail(FIRST_COLUMNS[1..] + LAST_COLUMNS);
    LiteralsFit(py, ColumnsAfter(c));
    EnclosedFits(COLUMN_SEPARATOR, JoinPieces(Literals(py, ColumnsAfter(c)), COLUMN_SEPARATOR),
      InsertTail(FIRST_COLUMNS[1..] + LAST_COLUMNS));
  }

  lemma UpsertFits(py: Python, name: string, c: Columns)
    ensures Literal(StatementPieces(py, Upsert(name, c)))
    ensures Survives(c.description) ==> AllSurvive(StatementPieces(py, Upsert(name, c)))
  {
    var before, d, after := UpsertBefore(py, name, c), [Dollar(c.description)], UpsertAfter(py, c);
    UpsertBeforeFits(py, name, c);
    UpsertAfterFits(py, c);
    ConstantFits(Dollar(c.description));
    PlainSmall();
    FitsConcat(before, d);
    FitsConcat(before + d, after);
  }

  /** Statements an import can contain. */
  predicate WellShaped(s: Statement) {
    match s
    case ClearGrants(names) => names != []
    case AddGrants(_, roles) => roles != []
    case _ => true
  }

  /** Its description, if it has one, survives dollar quoting. */
  predicate Safe(s: Statement) {
    s.Upsert? ==> Survives(s.columns.description)
  }

  lemma GrantsFit(py: Python, name: string, roles: seq<string>)
    requires roles != []
    ensures Literal(StatementPieces(py, AddGrants(name, roles)))
    ensures AllSurvive(StatementPieces(py, AddGrants(name, roles)))
  {
    hide GRANT_HEAD, GRANT_MIDDLE, GRANT_TAIL, Plain, Quotes;
    PlainGrantHead();
    PlainGrantRest();
    QuotesFit(roles);
    var left := [Raw(GRANT_HEAD)] + JoinPieces(Quotes(roles), ", ") + [Raw(GRANT_MIDDLE)];
    EnclosedFits(GRANT_HEAD, JoinPieces(Quotes(roles), ", "), GRANT_MIDDLE);
    ConstantFits(Quoted(name));
    RawFits(GRANT_TAIL);
    FitsConcat(left, [Quoted(name)]);
    FitsConcat(left + [Quoted(name)], [Raw(GRANT_TAIL)]);
  }

  lemma StatementFits(py: Python, s: Statement)
    requires WellShaped(s)
    ensures Literal(StatementPieces(py, s))
    ensures Safe(s) ==> AllSurvive(StatementPieces(py, s))
    ensures StatementPieces(py, s)[0].Raw?
  {
    match s {
      case Begin => PlainSmall(); RawFits("BEGIN");
      case Commit => PlainSmall(); RawFits("COMMIT");
      case Upsert(name, c) => UpsertFits(py, name, c);
      case ClearGrants(names) =>
        PlainSmall();
        PlainClearHead();
        QuotesFit(names);
        EnclosedFits(CLEAR_HEAD, JoinPieces(Quotes(names), ", "), "))");
      case AddGrants(name, roles) => GrantsFit(py, name, roles);
    }
  }

  /** What a statement should be read back as. */
  function Intended(py: Python, s: Statement): seq<Segment> {
    EmitAll([], StatementPieces(py, s))
  }

  lemma HeadLetters()
    ensures InsertHead(FIRST_COLUMNS, LAST_COLUMNS) != "" && InsertHead(FIRST_COLUMNS, LAST_COLUMNS)[0] == 'I'
    ensures GRANT_HEAD != "" && GRANT_HEAD[0] == 'I' && CLEAR_HEAD != "" && CLEAR_HEAD[0] == 'D'
  {
    hide ColumnList, FIRST_COLUMNS, LAST_COLUMNS, TOOLS, GRANTS;
    assert "INSERT"[0] == 'I' && "DELETE"[0] == 'D';
  }

  lemma IntendedNonEmpty(py: Python, s: Statement)
    ensures Intended(py, s) != []
  {
    hide InsertHead, CLEAR_HEAD, GRANT_HEAD, EmitAll, JoinPieces;
    HeadLetters();
    EmitAllNonEmpty([], StatementPieces(py, s));
  }

  lemma LexSafeStatement(py: Python, s: Statement, rest: string)
    requires WellShaped(s) && Safe(s)
    ensures Lex(PrintStatement(py, s) + rest, []) == Prepend(Intended(py, s), Lex(rest, []))
  {
    hide StatementPieces, Lex;
    var ps := StatementPieces(py, s);
    StatementFits(py, s);
    assert PrintStatement(py, s) + rest == PrintAll(ps) + (";" + rest);
    LexPieces(ps, ";" + rest, []);
    IntendedNonEmpty(py, s);
    LexSemicolon(rest, Intended(py, s));
  }

  /** What stands around the description. */
  lemma UpsertMiddle(py: Python, name: string, c: Columns)
    ensures var before, after := UpsertBefore(py, name, c), UpsertAfter(py, c);
      before != [] && before[0].Raw? && !AfterWord(EmitAll([], before))
      && PrintAll(after) != "" && PrintAll(after)[0] == ','
  {
    hide InsertHead, InsertTail, ColumnsAfter;
    var before, after := UpsertBefore(py, name, c), UpsertAfter(py, c);
    PlainSmall();
    EmitEnd(before);
    assert Print(after[0])[0] == ',' && PrintAll(after) == Print(after[0]) + PrintAll(after[1..]);
  }

  lemma DollarFirst(text: string)
    ensures DollarQuoted(text) != "" && DollarQuoted(text)[0] == '$'
  {
  }

  /** The splitter reads neither a statement whose description does not survive nor any after it. */
  lemma LexUnsafeStatement(py: Python, s: Statement, rest: string)
    requires WellShaped(s) && !Safe(s)
    ensures Lex(PrintStatement(py, s) + rest, []) == Lexed([], Some(Unsupported))
  {
    hide Lex, UpsertBefore, UpsertAfter, Plain, Survives, DollarQuoted;
    var text, before, after := s.columns.description, UpsertBefore(py, s.name, s.columns), UpsertAfter(py, s.columns);
    var later := PrintAll(after) + (";" + rest);
    UpsertBeforeFits(py, s.name, s.columns);
    PlainSmall();
    assert PrintStatement(py, s) + rest == PrintAll(before + [Dollar(text)] + after) + (";" + rest);
    PrintAround(before, Dollar(text), after, ";" + rest);
    UpsertMiddle(py, s.name, s.columns);
    assert (Print(Dollar(text)) + later)[0] == '$' by { DollarFirst(text); }
    LexPieces(before, Print(Dollar(text)) + later, []);
    CutTextIsRefused(text, later, EmitAll([], before));
  }
}
