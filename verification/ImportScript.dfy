/** `render_sql`: the whole script as text, and what reading it back gives. */
module ImportScript {
  import opened Prelude
  import opened Json
  import opened Text
  import opened Quoting
  import opened SqlDatabase
  import opened SqlLexer
  import opened ImportSpec
  import opened ImportPlan
  import opened ImportRender

  const GENERATED := "-- Generated by " + "scripts/import_cloudcost_" + "tools.py \U{2014} DO NOT " + "HAND-EDIT."
  const SOURCE_SPEC := "-- Source spec: " + "migrations/seeds/" + "cloud_cost_spec.json"
  const AI_SAFE := "-- AI-safe: GET-only + path " + "blocklist; auth=user_" + "passthrough; retries=0."

  const COMMENTS: seq<string> := [GENERATED, SOURCE_SPEC, AI_SAFE]

  function PrintStatements(py: Python, script: seq<Statement>): seq<string> {
    seq(|script|, i requires 0 <= i < |script| => PrintStatement(py, script[i]))
  }

  function StatementsText(py: Python, script: seq<Statement>): string {
    Join(PrintStatements(py, script), "\n\n") + "\n"
  }

  function ScriptText(py: Python, script: seq<Statement>): string {
    Join(COMMENTS + PrintStatements(py, script), "\n\n") + "\n"
  }

  function IntendedAll(py: Python, script: seq<Statement>): seq<seq<Segment>> {
    seq(|script|, i requires 0 <= i < |script| => Intended(py, script[i]))
  }

  ghost predicate AllSafe(script: seq<Statement>) {
    forall s | s in script :: Safe(s)
  }

  // ---------- Reading the statements ----------

  lemma StatementsTextCons(py: Python, script: seq<Statement>)
    requires |script| > 1
    ensures StatementsText(py, script) == PrintStatement(py, script[0]) + ("\n\n" + StatementsText(py, script[1..]))
  {
    var parts := PrintStatements(py, script);
    assert parts[1..] == PrintStatements(py, script[1..]);
    Regroup3(parts[0], "\n\n", Join(parts[1..], "\n\n"), "\n");
  }

  lemma Regroup3(a: string, b: string, c: string, d: string)
    ensures (a + b + c) + d == a + (b + (c + d))
  {
  }

  lemma LexGap(rest: string)
    ensures Lex("\n\n" + rest, []) == Lex(rest, [])
  {
  }

  lemma LexEnd()
    ensures Lex("\n", []) == Lexed([], None)
  {
  }

  /** The statements before the first whose description does not survive. */
  function SafeCount(script: seq<Statement>): (n: nat)
    ensures n <= |script| && (n < |script| <==> !AllSafe(script))
  {
    if script == [] || !Safe(script[0]) then 0 else 1 + SafeCount(script[1..])
  }

  /** Of a printed sequence of statements those before the first unsafe one are read back, as
      intended; there is no error exactly when all are safe. */
  lemma {:induction false} LexStatements(py: Python, script: seq<Statement>)
    requires script != [] && forall s | s in script :: WellShaped(s)
    ensures var read := Statements(StatementsText(py, script));
      read.statements == IntendedAll(py, script[..SafeCount(script)]) && (read.error.None? <==> AllSafe(script))
  {
    hide Lex, Intended, PrintStatement;
    var s, later := script[0], script[1..];
    var n := SafeCount(script);
    assert s in script;
    if !Safe(s) {
      var rest := if later == [] then "\n" else "\n\n" + StatementsText(py, later);
      if later != [] { StatementsTextCons(py, script); }
      LexUnsafeStatement(py, s, rest);
    } else {
      assert IntendedAll(py, script[..n]) == [Intended(py, s)] + IntendedAll(py, later[..n - 1]);
      if later == [] {
        LexSafeStatement(py, s, "\n");
        LexEnd();
      } else {
        StatementsTextCons(py, script);
        LexSafeStatement(py, s, "\n\n" + StatementsText(py, later));
        LexGap(StatementsText(py, later));
        forall x | x in later ensures WellShaped(x) { assert x in script; }
        LexStatements(py, later);
      }
    }
  }

  // ---------- Reading the comments ----------

  predicate OneLine(t: string) {
    '\n' !in t
  }

  lemma GeneratedIsLine()
    ensures OneLine(GENERATED) && StartsWith(GENERATED, "--")
  {
    var a, b, c, d := "-- Generated by ", "scripts/import_cloudcost_", "tools.py \U{2014} DO NOT ", "HAND-EDIT.";
    assert GENERATED == a + b + c + d + "";
  }

  lemma AiSafeIsLine()
    ensures OneLine(AI_SAFE) && StartsWith(AI_SAFE, "--")
  {
  }

  lemma CommentsAreLines()
    ensures forall c | c in COMMENTS :: OneLine(c) && StartsWith(c, "--")
  {
    GeneratedIsLine();
    AiSafeIsLine();
  }

  lemma {:induction false} SkipsLine(line: string, rest: string)
    requires OneLine(line) && rest != "" && rest[0] == '\n'
    ensures SkipLine(line + rest) == rest
  {
    if line == "" {
      assert line + rest == rest;
    } else {
      assert line[0] in line;
      assert (line + rest)[1..] == line[1..] + rest;
      SkipsLine(line[1..], rest);
    }
  }

  lemma LexComment(line: string, rest: string)
    requires OneLine(line) && StartsWith(line, "--")
    ensures Lex(line + ("\n\n" + rest), []) == Lex(rest, [])
  {
    var s := line + ("\n\n" + rest);
    assert s[0] == line[0] == '-' && s[1] == line[1] == '-';
    SkipsLine(line, "\n\n" + rest);
    LexGap(rest);
  }

  lemma {:induction false} LexComments(comments: seq<string>, parts: seq<string>)
    requires parts != [] && forall c | c in comments :: OneLine(c) && StartsWith(c, "--")
    ensures Lex(Join(comments + parts, "\n\n") + "\n", []) == Lex(Join(parts, "\n\n") + "\n", [])
  {
    if comments == [] {
      assert comments + parts == parts;
    } else {
      assert comments[0] in comments;
      var all, later := comments + parts, comments[1..] + parts;
      assert all[0] == comments[0] && all[1..] == later;
      Regroup3(comments[0], "\n\n", Join(later, "\n\n"), "\n");
      LexComment(comments[0], Join(later, "\n\n") + "\n");
      LexComments(comments[1..], parts);
    }
  }

  /** The script of an accepted spec with n tools splits into the 2n + 3 statements that were
      meant, every constant decoding to the string passed in, when every description survives
      dollar quoting; otherwise those before the first that does not survive, and then an error. */
  lemma ScriptIsReadBack(py: Python, spec: Spec)
    requires Renderable(py, spec)
    ensures var plans := Plans(py, spec);
      var script, read := Script(plans), Statements(ScriptText(py, Script(plans)));
      && read.statements == IntendedAll(py, script[..SafeCount(script)])
      && (read.error.None? <==> forall i | 0 <= i < |plans| :: Survives(plans[i].columns.description))
      && (read.error.None? ==> read.statements == IntendedAll(py, script))
      && |IntendedAll(py, script)| == 2 * |plans| + 3
  {
    hide PlanOf, Intended, Safe, SafeCount, Survives, Lex, PrintStatement, Printable, Accepted, WellShaped, COMMENTS;
    var plans := Plans(py, spec);
    var script := Script(plans);
    CommentsAreLines();
    LexComments(COMMENTS, PrintStatements(py, script));
    ScriptIsWellShaped(py, spec);
    LexStatements(py, script);
    ScriptSafety(plans);
    assert script[..|script|] == script;
  }

  lemma ScriptSafety(plans: seq<ToolPlan>)
    ensures AllSafe(Script(plans)) <==> forall i | 0 <= i < |plans| :: Survives(plans[i].columns.description)
  {
    var script := Script(plans);
    forall i | 0 <= i < |plans| ensures script[i + 1] == Upsert(plans[i].name, plans[i].columns) {
    }
    if AllSafe(script) {
      forall i | 0 <= i < |plans| ensures Survives(plans[i].columns.description) {
        assert Safe(script[i + 1]);
      }
    }
  }

  lemma ScriptIsWellShaped(py: Python, spec: Spec)
    requires Renderable(py, spec)
    ensures forall s | s in Script(Plans(py, spec)) :: WellShaped(s)
  {
    var plans, items := Plans(py, spec), Get(spec, "tools").items;
    forall i | 0 <= i < |plans| ensures plans[i].roles != [] {
      assert ToolOk(py, items[i]);
      var source := RoleSource(spec, items[i]).items;
      assert Strings(source)[0] in Strings(source);
      PlanRoles(py, spec, i, source[0].s);
      assert source[0] in source;
    }
  }

  // ---------- The constants of a statement ----------

  function ConstantsIn(segments: seq<Segment>): seq<string> {
    if segments == [] then []
    else ConstantsIn(segments[..|segments| - 1])
         + (var last := segments[|segments| - 1]; if last.Constant? then [last.value] else [])
  }

  function TextsOf(ps: seq<Piece>): seq<string> {
    if ps == [] then []
    else (if ps[0].Raw? then [] else [ps[0].text]) + TextsOf(ps[1..])
  }

  lemma {:induction false} AddTextKeepsConstants(cur: seq<Segment>, t: string)
    ensures ConstantsIn(AddText(cur, t)) == ConstantsIn(cur)
    decreases |t|
  {
    if t != "" {
      var next := AddChar(cur, t[0]);
      if next != [] {
        assert cur != [] && cur[|cur| - 1].Code? ==> next[..|next| - 1] == cur[..|cur| - 1];
        assert !(cur != [] && cur[|cur| - 1].Code?) ==> next[..|next| - 1] == cur;
      }
      AddTextKeepsConstants(next, t[1..]);
    }
  }

  /** The constants read back are the texts quoted, in order. */
  lemma {:induction false} ConstantsAreTexts(cur: seq<Segment>, ps: seq<Piece>)
    ensures ConstantsIn(EmitAll(cur, ps)) == ConstantsIn(cur) + TextsOf(ps)
    decreases |ps|
  {
    if ps != [] {
      var next := Emit(cur, ps[0]);
      if ps[0].Raw? {
        AddTextKeepsConstants(cur, ps[0].text);
      } else {
        assert next[..|next| - 1] == cur;
      }
      ConstantsAreTexts(next, ps[1..]);
    }
  }

  function LiteralTexts(py: Python, v: Sql): seq<string> {
    match v
    case SqlText(s) => [s]
    case SqlJson(j) => [py.dumps(j)]
    case _ => []
  }

  function AllTexts(py: Python, values: seq<Sql>): seq<string> {
    if values == [] then [] else LiteralTexts(py, values[0]) + AllTexts(py, values[1..])
  }

  /** The texts a statement passes to the database. */
  function StatementTexts(py: Python, s: Statement): seq<string> {
    match s
    case Upsert(name, c) =>
      [name] + LiteralTexts(py, c.displayName) + [c.description] + AllTexts(py, ColumnsAfter(c))
    case ClearGrants(names) => names
    case AddGrants(name, roles) => roles + [name]
    case Begin => []
    case Commit => []
  }

  lemma {:induction false} TextsConcat(a: seq<Piece>, b: seq<Piece>)
    ensures TextsOf(a + b) == TextsOf(a) + TextsOf(b)
  {
    if a == [] {
      assert a + b == b;
    } else {
      assert (a + b)[0] == a[0] && (a + b)[1..] == a[1..] + b;
      TextsConcat(a[1..], b);
    }
  }

  lemma TextsEnclosed(head: string, ps: seq<Piece>, tail: string)
    ensures TextsOf([Raw(head)] + ps + [Raw(tail)]) == TextsOf(ps)
  {
    TextsConcat([Raw(head)] + ps, [Raw(tail)]);
    TextsConcat([Raw(head)], ps);
    RawHasNoText(head);
    RawHasNoText(tail);
  }

  lemma RawHasNoText(t: string)
    ensures TextsOf([Raw(t)]) == []
  {
  }

  lemma TextOfOne(p: Piece)
    requires !p.Raw?
    ensures TextsOf([p]) == [p.text]
  {
  }

  lemma {:induction false} TextsOfQuotes(names: seq<string>, sep: string)
    ensures TextsOf(JoinPieces(Quotes(names), sep)) == names
  {
    if names != [] {
      var later := JoinPieces(Quotes(names[1..]), sep);
      assert Quotes(names)[1..] == Quotes(names[1..]);
      TextsOfQuotes(names[1..], sep);
      TextOfOne(Quoted(names[0]));
      TextsConcat([Quoted(names[0])] + [Raw(sep)], later);
      TextsConcat([Quoted(names[0])], [Raw(sep)]);
      RawHasNoText(sep);
      assert names == [names[0]] + names[1..];
    }
  }

  lemma TextsOfLiteral(py: Python, v: Sql)
    ensures TextsOf(LiteralPieces(py, v)) == LiteralTexts(py, v)
  {
    if v.SqlJson? {
      TextsConcat([Quoted(py.dumps(v.v))], [Raw("::jsonb")]);
      TextOfOne(Quoted(py.dumps(v.v)));
      RawHasNoText("::jsonb");
      assert LiteralPieces(py, v) == [Quoted(py.dumps(v.v))] + [Raw("::jsonb")];
    }
  }

  lemma {:induction false} TextsOfLiterals(py: Python, values: seq<Sql>, sep: string)
    ensures TextsOf(JoinPieces(Literals(py, values), sep)) == AllTexts(py, values)
  {
    if values != [] {
      var first, later := LiteralPieces(py, values[0]), JoinPieces(Literals(py, values[1..]), sep);
      assert Literals(py, values)[1..] == Literals(py, values[1..]);
      TextsOfLiterals(py, values[1..], sep);
      TextsOfLiteral(py, values[0]);
      TextsConcat(first + [Raw(sep)], later);
      TextsConcat(first, [Raw(sep)]);
      RawHasNoText(sep);
    }
  }

  lemma TextsOfUpsert(py: Python, name: string, c: Columns)
    ensures TextsOf(StatementPieces(py, Upsert(name, c))) == StatementTexts(py, Upsert(name, c))
  {
    hide TextsOf, JoinPieces, AllTexts, LiteralTexts, ColumnsAfter;
    var before, after := UpsertBefore(py, name, c), UpsertAfter(py, c);
    var firsts := [SqlText(name), c.displayName];
    assert Literals(py, firsts) == [[Quoted(name)], LiteralPieces(py, c.displayName)];
    TextsOfLiterals(py, firsts, COLUMN_SEPARATOR);
    FirstTexts(py, name, c.displayName);
    TextsEnclosed(InsertHead(FIRST_COLUMNS, LAST_COLUMNS), JoinPieces(Literals(py, firsts), COLUMN_SEPARATOR), COLUMN_SEPARATOR);
    TextsOfLiterals(py, ColumnsAfter(c), COLUMN_SEPARATOR);
    TextsEnclosed(COLUMN_SEPARATOR, JoinPieces(Literals(py, ColumnsAfter(c)), COLUMN_SEPARATOR),
      InsertTail(FIRST_COLUMNS[1..] + LAST_COLUMNS));
    TextOfOne(Dollar(c.description));
    TextsConcat(before + [Dollar(c.description)], after);
    TextsConcat(before, [Dollar(c.description)]);
  }

  lemma FirstTexts(py: Python, name: string, v: Sql)
    ensures AllTexts(py, [SqlText(name), v]) == [name] + LiteralTexts(py, v)
  {
    var values := [SqlText(name), v];
    assert values[1..] == [v] && [v][1..] == [];
    assert AllTexts(py, [v]) == LiteralTexts(py, v) + [];
  }

  /** The constants read back from a statement are the texts it was made from, in order, whatever
      quotes, semicolons or newlines they hold. */
  lemma StatementConstants(py: Python, s: Statement, segments: seq<Segment>)
    requires segments == Intended(py, s)
    ensures ConstantsIn(segments) == StatementTexts(py, s)
  {
    hide TextsOf, JoinPieces;
    ConstantsAreTexts([], StatementPieces(py, s));
    assert [] + TextsOf(StatementPieces(py, s)) == TextsOf(StatementPieces(py, s));
    match s {
      case Begin => RawHasNoText("BEGIN");
      case Commit => RawHasNoText("COMMIT");
      case Upsert(name, c) => TextsOfUpsert(py, name, c);
      case ClearGrants(names) =>
        TextsOfQuotes(names, ", ");
        TextsEnclosed(CLEAR_HEAD, JoinPieces(Quotes(names), ", "), "))");
      case AddGrants(name, roles) =>
        TextsOfQuotes(roles, ", ");
        var left := [Raw(GRANT_HEAD)] + JoinPieces(Quotes(roles), ", ") + [Raw(GRANT_MIDDLE)];
        TextsEnclosed(GRANT_HEAD, JoinPieces(Quotes(roles), ", "), GRANT_MIDDLE);
        TextOfOne(Quoted(name));
        RawHasNoText(GRANT_TAIL);
        TextsConcat(left + [Quoted(name)], [Raw(GRANT_TAIL)]);
        TextsConcat(left, [Quoted(name)]);
    }
  }

  // ---------- The renderer ----------

  datatype RenderError = Rejected(error: SpecError) | Raised

  lemma StringsOfTexts(names: seq<string>)
    ensures Strings(seq(|names|, i requires 0 <= i < |names| => Str(names[i]))) == names
  {
  }

  /** The first loop of `render_sql`: every upsert in turn; None when one raises. */
  method RenderInserts(py: Python, spec: Spec, items: seq<Value>, timeout: int)
    returns (r: Option<(seq<ToolPlan>, seq<string>)>)
    requires RolesOk(Get(spec, "roles")) && forall t | t in items :: ToolOk(py, t)
    ensures r.Some? <==> forall i | 0 <= i < |items| :: PlanOf(py, spec, items[i], timeout).Some?
    ensures r.Some? ==>
      && |r.value.0| == |items|
      && (forall i | 0 <= i < |items| :: PlanOf(py, spec, items[i], timeout) == Some(r.value.0[i]))
      && r.value.1 == PrintStatements(py, Upserts(r.value.0))
  {
    hide PlanOf, PrintStatement, ToolOk;
    var plans: seq<ToolPlan> := [];
    var parts: seq<string> := [];
    var i := 0;
    while i < |items|
      invariant 0 <= i <= |items|
      invariant |plans| == i
      invariant forall j | 0 <= j < i :: PlanOf(py, spec, items[j], timeout) == Some(plans[j])
      invariant parts == PrintStatements(py, Upserts(plans))
    {
      assert items[i] in items;
      var plan := PlanOf(py, spec, items[i], timeout);
      if plan.None? {
        return None;
      }
      parts := parts + [PrintStatement(py, Upsert(plan.value.name, plan.value.columns))];
      plans := plans + [plan.value];
      i := i + 1;
    }
    return Some((plans, parts));
  }

  /** One round of the second loop: the tool's own roles or the default ones. */
  method RenderGrant(py: Python, spec: Spec, t: Value, name: string, defaults: seq<string>) returns (part: string)
    requires RolesOk(Get(spec, "roles")) && defaults == Dedup(Strings(Get(spec, "roles").items))
    requires OwnRolesOk(t)
    ensures part == PrintStatement(py, AddGrants(name, RolesOf(spec, t)))
  {
    hide PrintStatement;
    var defaultRoles := Arr(seq(|defaults|, i requires 0 <= i < |defaults| => Str(defaults[i])));
    StringsOfTexts(defaults);
    DefaultsAreRoles(spec);
    var roles := ValidateRoles(if "roles" in t.members then t.members["roles"] else defaultRoles);
    part := PrintStatement(py, AddGrants(name, roles.value));
  }

  /** The second loop: every tool's grants. */
  method RenderGrants(py: Python, spec: Spec, items: seq<Value>, plans: seq<ToolPlan>, defaults: seq<string>)
    returns (parts: seq<string>)
    requires RolesOk(Get(spec, "roles")) && defaults == Dedup(Strings(Get(spec, "roles").items))
    requires forall i | 0 <= i < |items| :: OwnRolesOk(items[i])
    requires |plans| == |items| && forall i | 0 <= i < |items| :: plans[i].roles == RolesOf(spec, items[i])
    ensures parts == PrintStatements(py, Grants(plans))
  {
    hide PrintStatement, RolesOf, OwnRolesOk;
    parts := [];
    var i := 0;
    while i < |items|
      invariant 0 <= i <= |items|
      invariant parts == PrintStatements(py, Grants(plans[..i]))
    {
      assert plans[i].roles == RolesOf(spec, items[i]);
      var part := RenderGrant(py, spec, items[i], plans[i].name, defaults);
      parts := parts + [part];
      assert plans[..i + 1] == plans[..i] + [plans[i]];
      i := i + 1;
    }
    assert plans[..i] == plans;
  }

  lemma DefaultsAreRoles(spec: Spec)
    requires RolesOk(Get(spec, "roles"))
    ensures var defaults := Dedup(Strings(Get(spec, "roles").items));
      defaults != [] && forall r | r in defaults :: r in ALLOWED_ROLES
  {
  }

  /** `render_sql`. */
  method RenderSql(py: Python, spec: Spec) returns (r: Result<string, RenderError>)
    ensures r.Ok? <==> Renderable(py, spec)
    ensures r.Ok? ==> r.value == ScriptText(py, Script(Plans(py, spec)))
    ensures r.Err? ==> (r.error.Rejected? <==> !Accepted(py, spec))
  {
    var checked := ValidateSpec(py, spec);
    if checked.Err? {
      return Err(Rejected(checked.error));
    }
    var timeout := DefaultTimeout(py, spec);
    if timeout.None? {
      return Err(Raised);
    }
    var items := Get(spec, "tools").items;
    var defaults := ValidateRoles(Get(spec, "roles"));
    var inserts := RenderInserts(py, spec, items, timeout.value);
    if inserts.None? {
      return Err(Raised);
    }
    var (plans, upserts) := inserts.value;
    assert plans == Plans(py, spec);
    forall i | 0 <= i < |items|
      ensures OwnRolesOk(items[i]) && plans[i].roles == RolesOf(spec, items[i])
    {
      assert PlanOf(py, spec, items[i], timeout.value) == Some(plans[i]);
    }
    var grants := RenderGrants(py, spec, items, plans, defaults.value);
    var parts := COMMENTS + ["BEGIN;"] + upserts + [PrintStatement(py, ClearGrants(Names(plans)))] + grants + ["COMMIT;"];
    PartsOfScript(py, plans);
    return Ok(Join(parts, "\n\n") + "\n");
  }

  lemma PartsOfScript(py: Python, plans: seq<ToolPlan>)
    ensures COMMENTS + PrintStatements(py, Script(plans))
      == COMMENTS + ["BEGIN;"] + PrintStatements(py, Upserts(plans))
         + [PrintStatement(py, ClearGrants(Names(plans)))] + PrintStatements(py, Grants(plans)) + ["COMMIT;"]
  {
    hide PrintStatement;
    var upserts, clear, grants := Upserts(plans), ClearGrants(Names(plans)), Grants(plans);
    PrintedWords(py);
    PrintedConcat(py, upserts, [clear]);
    PrintedConcat(py, upserts + [clear], grants);
    PrintedConcat(py, [Begin], Body(plans));
    PrintedConcat(py, [Begin] + Body(plans), [Commit]);
    var u, c, g := PrintStatements(py, upserts), [PrintStatement(py, clear)], PrintStatements(py, grants);
    assert PrintStatements(py, [clear]) == c;
    Regroup6(COMMENTS, ["BEGIN;"], u, c, g, ["COMMIT;"]);
  }

  lemma Regroup6(a: seq<string>, b: seq<string>, c: seq<string>, d: seq<string>, e: seq<string>, f: seq<string>)
    ensures a + (b + (c + d + e) + f) == a + b + c + d + e + f
  {
  }

  lemma PrintedWords(py: Python)
    ensures PrintStatements(py, [Begin]) == ["BEGIN;"] && PrintStatements(py, [Commit]) == ["COMMIT;"]
  {
    assert PrintAll([Raw("BEGIN")]) == "BEGIN" && PrintAll([Raw("COMMIT")]) == "COMMIT";
    assert PrintStatement(py, Begin) == "BEGIN;" && PrintStatement(py, Commit) == "COMMIT;";
  }

  lemma PrintedConcat(py: Python, a: seq<Statement>, b: seq<Statement>)
    ensures PrintStatements(py, a + b) == PrintStatements(py, a) + PrintStatements(py, b)
  {
    hide PrintStatement;
  }
}
