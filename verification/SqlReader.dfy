/** A reader for the part of SQL the importer prints, and what the statements it reads do. It goes
    by PostgreSQL's grammar alone: keywords, names, lists, and the position of each. Keywords are
    in upper case and names are not folded. */
module SqlReader {
  import opened Prelude
  import opened Json
  import opened SqlDatabase
  import opened SqlLexer

  // ---------- Tokens ----------

  /** A keyword, name or number; a character of its own; the value of a string constant. */
  datatype Token = Word(s: string) | Sym(c: char) | Const(value: string)

  predicate NameChar(c: char) {
    (WordChar(c) && c != '$') || c == '.'
  }

  /** The tokens read so far and the word being read. */
  datatype Scan = Scan(done: seq<Token>, word: string) {
    function Tokens(): seq<Token> {
      if word == "" then done else done + [Word(word)]
    }
  }

  const Start := Scan([], "")

  function Mark(c: char): seq<Token> {
    if Space(c) then [] else [Sym(c)]
  }

  function Feed(s: Scan, c: char): Scan {
    if NameChar(c) then Scan(s.done, s.word + [c]) else Scan(s.Tokens() + Mark(c), "")
  }

  function FeedText(s: Scan, t: string): Scan
    decreases |t|
  {
    if t == "" then s else FeedText(Feed(s, t[0]), t[1..])
  }

  function FeedConstant(s: Scan, value: string): Scan {
    Scan(s.Tokens() + [Const(value)], "")
  }

  function FeedSegments(segments: seq<Segment>): Scan {
    if segments == [] then Start
    else
      var before := FeedSegments(segments[..|segments| - 1]);
      match segments[|segments| - 1]
      case Code(t) => FeedText(before, t)
      case Constant(v) => FeedConstant(before, v)
  }

  // ---------- Lists ----------

  type Reading<T> = Option<(T, seq<Token>)>

  /** What remains after tokens that must come next. */
  function After(ts: seq<Token>, expected: seq<Token>): Option<seq<Token>> {
    if expected <= ts then Some(ts[|expected|..]) else None
  }

  /** One item, or several with commas between. */
  ghost function ReadList<T>(item: seq<Token> -> Reading<T>, ts: seq<Token>): Reading<seq<T>>
    decreases |ts|
  {
    var (x, rest) :- item(ts);
    if rest != [] && rest[0] == Sym(',') && |rest| <= |ts| then
      var (xs, end) :- ReadList(item, rest[1..]);
      Some(([x] + xs, end))
    else Some(([x], rest))
  }

  function ReadName(ts: seq<Token>): Reading<string> {
    if ts != [] && ts[0].Word? then Some((ts[0].s, ts[1..])) else None
  }

  function ReadText(ts: seq<Token>): Reading<string> {
    if ts != [] && ts[0].Const? then Some((ts[0].value, ts[1..])) else None
  }

  const EXCLUDED := "EXCLUDED."

  /** `column = EXCLUDED.column`. */
  function ReadSet(ts: seq<Token>): Reading<(string, string)> {
    if |ts| >= 3 && ts[0].Word? && ts[1] == Sym('=') && ts[2].Word? && EXCLUDED <= ts[2].s
    then Some(((ts[0].s, ts[2].s[|EXCLUDED|..]), ts[3..]))
    else None
  }

  predicate AllDigits(s: string) {
    s != "" && forall c | c in s :: '0' <= c <= '9'
  }

  function DigitsValue(s: string): int {
    if s == "" then 0 else 10 * DigitsValue(s[..|s| - 1]) + (s[|s| - 1] as int - '0' as int)
  }

  /** The value of a JSON text: the one it was printed from. */
  ghost function JsonOf(py: Python, text: string): Option<Value> {
    if exists v :: py.dumps(v) == text then
      var v :| py.dumps(v) == text;
      Some(v)
    else None
  }

  const JSON_CAST := [Sym(':'), Sym(':'), Word("jsonb")]

  ghost function ReadValue(py: Python, ts: seq<Token>): Reading<Sql> {
    if ts == [] then None
    else match ts[0]
      case Const(text) =>
        if JSON_CAST <= ts[1..] then
          var v :- JsonOf(py, text);
          Some((SqlJson(v), ts[4..]))
        else Some((SqlText(text), ts[1..]))
      case Word(w) =>
        if w == "NULL" then Some((SqlNull, ts[1..]))
        else if w == "TRUE" then Some((SqlBool(true), ts[1..]))
        else if w == "FALSE" then Some((SqlBool(false), ts[1..]))
        else if AllDigits(w) then Some((SqlInt(DigitsValue(w)), ts[1..]))
        else None
      case Sym(c) =>
        if c == '-' && |ts| >= 2 && ts[1].Word? && AllDigits(ts[1].s)
        then Some((SqlInt(-DigitsValue(ts[1].s)), ts[2..]))
        else None
  }

  ghost function ValueReader(py: Python): seq<Token> -> Reading<Sql> {
    ts => ReadValue(py, ts)
  }

  // ---------- Statements ----------

  /** `SELECT selected FROM table WHERE column [NOT] IN (texts)`. */
  datatype Subquery = Subquery(selected: string, table: string, column: string, negated: bool, texts: seq<string>)

  datatype Query =
    | BeginWork
    | CommitWork
    | InsertRow(table: string, columns: seq<string>, values: seq<Sql>, key: string, sets: seq<(string, string)>)
    | DeleteRows(table: string, column: string, negated: bool, query: Subquery)
    | InsertSelected(table: string, columns: seq<string>, selected: seq<string>, source: string,
        elements: seq<string>, element: string, column: string, text: string)

  ghost function Read(py: Python, ts: seq<Token>): Option<Query> {
    if ts == [Word("BEGIN")] then Some(BeginWork)
    else if ts == [Word("COMMIT")] then Some(CommitWork)
    else if [Word("INSERT"), Word("INTO")] <= ts then ReadInsert(py, ts[2..])
    else if [Word("DELETE"), Word("FROM")] <= ts then ReadDelete(ts[2..])
    else None
  }

  ghost function ReadInsert(py: Python, ts: seq<Token>): Option<Query> {
    var (table, a) :- ReadName(ts);
    var b :- After(a, [Sym('(')]);
    var (columns, c) :- ReadList(ReadName, b);
    var d :- After(c, [Sym(')')]);
    if [Word("VALUES"), Sym('(')] <= d then ReadRow(py, table, columns, d[2..])
    else if [Word("SELECT")] <= d then ReadSelected(table, columns, d[1..])
    else None
  }

  /** The rest of an upsert, after VALUES. */
  ghost function ReadRow(py: Python, table: string, columns: seq<string>, ts: seq<Token>): Option<Query> {
    var (values, a) :- ReadList(ValueReader(py), ts);
    var b :- After(a, [Sym(')'), Word("ON"), Word("CONFLICT"), Sym('(')]);
    var (key, c) :- ReadName(b);
    var d :- After(c, [Sym(')'), Word("DO"), Word("UPDATE"), Word("SET")]);
    var (sets, end) :- ReadList(ReadSet, d);
    if end == [] then Some(InsertRow(table, columns, values, key, sets)) else None
  }

  /** The rest of an insert from a query, after SELECT. */
  ghost function ReadSelected(table: string, columns: seq<string>, ts: seq<Token>): Option<Query> {
    var (selected, a) :- ReadList(ReadName, ts);
    var b :- After(a, [Word("FROM")]);
    var (source, c) :- ReadName(b);
    var d :- After(c, [Sym(','), Word("unnest"), Sym('('), Word("ARRAY"), Sym('[')]);
    var (elements, e) :- ReadList(ReadText, d);
    var f :- After(e, [Sym(']'), Sym(')'), Word("AS")]);
    var (element, g) :- ReadName(f);
    var h :- After(g, [Word("WHERE")]);
    var (column, i) :- ReadName(h);
    var j :- After(i, [Sym('=')]);
    var (text, end) :- ReadText(j);
    if end == [Word("ON"), Word("CONFLICT"), Word("DO"), Word("NOTHING")]
    then Some(InsertSelected(table, columns, selected, source, elements, element, column, text))
    else None
  }

  /** `[NOT] IN (`: whether NOT is there, and what follows. */
  function ReadIn(ts: seq<Token>): Reading<bool> {
    if [Word("IN"), Sym('(')] <= ts then Some((false, ts[2..]))
    else if [Word("NOT"), Word("IN"), Sym('(')] <= ts then Some((true, ts[3..]))
    else None
  }

  ghost function ReadDelete(ts: seq<Token>): Option<Query> {
    var (table, a) :- ReadName(ts);
    var b :- After(a, [Word("WHERE")]);
    var (column, c) :- ReadName(b);
    var (negated, d) :- ReadIn(c);
    var (query, end) :- ReadSubquery(d);
    if end == [Sym(')')] then Some(DeleteRows(table, column, negated, query)) else None
  }

  ghost function ReadSubquery(ts: seq<Token>): Reading<Subquery> {
    var a :- After(ts, [Word("SELECT")]);
    var (selected, b) :- ReadName(a);
    var c :- After(b, [Word("FROM")]);
    var (table, d) :- ReadName(c);
    var e :- After(d, [Word("WHERE")]);
    var (column, f) :- ReadName(e);
    var (negated, g) :- ReadIn(f);
    var (texts, h) :- ReadList(ReadText, g);
    var end :- After(h, [Sym(')')]);
    Some((Subquery(selected, table, column, negated, texts), end))
  }

  // ---------- What they do ----------

  const TOOLS_TABLE := "chat_gw.tools"
  const GRANTS_TABLE := "chat_gw.tool_role_grants"

  type Cells = map<string, Sql>

  /** The columns of a tool row by their names in the table. */
  function CellsOf(c: Columns): Cells {
    map[
      "display_name" := c.displayName,
      "description" := SqlText(c.description),
      "category" := c.category,
      "dispatcher" := c.dispatcher,
      "config" := c.config,
      "auth_mode" := c.authMode,
      "secret_env_name" := c.secretEnvName,
      "auth_header" := c.authHeader,
      "auth_prefix" := c.authPrefix,
      "input_schema" := c.inputSchema,
      "output_schema" := c.outputSchema]
  }

  const SETTABLE: set<string> := {
    "display_name", "description", "category", "dispatcher", "config", "auth_mode", "secret_env_name",
    "auth_header", "auth_prefix", "input_schema", "output_schema"}

  function Cell(cells: Cells, column: string): Sql {
    if column in cells then cells[column] else SqlNull
  }

  /** None when the description is no text. */
  function ColumnsOf(cells: Cells): Option<Columns> {
    match Cell(cells, "description")
    case SqlText(description) =>
      Some(Columns(
        Cell(cells, "display_name"), description, Cell(cells, "category"), Cell(cells, "dispatcher"),
        Cell(cells, "config"), Cell(cells, "auth_mode"), Cell(cells, "secret_env_name"),
        Cell(cells, "auth_header"), Cell(cells, "auth_prefix"), Cell(cells, "input_schema"),
        Cell(cells, "output_schema")))
    case _ => None
  }

  /** The i-th value goes to the i-th column. */
  function RowOf(columns: seq<string>, values: seq<Sql>): Cells
    requires |columns| == |values|
  {
    if columns == [] then map[]
    else
      var n := |columns| - 1;
      RowOf(columns[..n], values[..n])[columns[n] := values[n]]
  }

  /** `SET a = EXCLUDED.b, ...` on a row, given the row proposed for insertion. */
  function Updated(row: Cells, sets: seq<(string, string)>, excluded: Cells): Cells {
    if sets == [] then row
    else
      var n := |sets| - 1;
      Updated(row, sets[..n], excluded)[sets[n].0 := Cell(excluded, sets[n].1)]
  }

  ghost predicate NoRepeats(names: seq<string>) {
    forall i, j | 0 <= i < j < |names| :: names[i] != names[j]
  }

  /** The statement fits the table of tools: known columns, none twice, one value each. */
  ghost predicate FitsTools(q: Query)
    requires q.InsertRow?
  {
    && q.table == TOOLS_TABLE && q.key == "name" && |q.columns| == |q.values|
    && NoRepeats(q.columns) && (forall c | c in q.columns :: c == "name" || c in SETTABLE)
    && (forall s | s in q.sets :: s.0 in SETTABLE && s.1 in q.columns)
  }

  ghost function RowPut(db: Db, q: Query): Option<Db>
    requires q.InsertRow?
  {
    if !FitsTools(q) then None
    else
      var proposed := RowOf(q.columns, q.values);
      match Cell(proposed, "name")
      case SqlText(name) =>
        var columns :- ColumnsOf(
          if name in db.tools then Updated(CellsOf(db.tools[name].columns), q.sets, proposed) else proposed);
        var row := if name in db.tools then Row(db.tools[name].id, columns, db.tools[name].enabled, db.tools[name].version)
                   else Row(db.nextId, columns, true, 1);
        Some(Db(db.tools[name := row], db.grants, db.nextId + 1))
      case _ => None
  }

  /** The ids of the tools a subquery selects. */
  function SelectedIds(db: Db, query: Subquery): Option<set<nat>> {
    if query.selected == "id" && query.table == TOOLS_TABLE && query.column == "name"
    then Some(set n | n in db.tools && (n in query.texts) != query.negated :: db.tools[n].id)
    else None
  }

  function RowsDropped(db: Db, q: Query): Option<Db>
    requires q.DeleteRows?
  {
    var ids :- SelectedIds(db, q.query);
    if q.table == GRANTS_TABLE && q.column == "tool_id"
    then Some(Db(db.tools, (set g | g in db.grants && (g.0 in ids) == q.negated), db.nextId))
    else None
  }

  /** The grants an insert from a query adds: for every tool that meets the condition and every
      element, the tool's id under `tool_id` and the element under `role`. */
  function RowsAdded(db: Db, q: Query): Option<Db>
    requires q.InsertSelected?
  {
    if && q.table == GRANTS_TABLE && q.source == TOOLS_TABLE && q.column == TOOLS_TABLE + ".name"
       && ((q.columns == ["tool_id", "role"] && q.selected == ["id", q.element])
           || (q.columns == ["role", "tool_id"] && q.selected == [q.element, "id"]))
    then
      var added := set n, e | n in db.tools && n == q.text && e in q.elements :: (db.tools[n].id, e);
      Some(Db(db.tools, db.grants + added, db.nextId))
    else None
  }

  /** What a data statement does; None where the database refuses it. */
  ghost function Perform(db: Db, q: Query): Option<Db> {
    match q
    case InsertRow(_, _, _, _, _) => RowPut(db, q)
    case DeleteRows(_, _, _, _) => RowsDropped(db, q)
    case InsertSelected(_, _, _, _, _, _, _, _) => RowsAdded(db, q)
    case _ => None
  }

  /** One statement on a connection. BEGIN in a transaction and COMMIT outside one only warn. */
  ghost function Proceed(c: Session, q: Query): Option<Session> {
    match q
    case BeginWork => Some(if c.work.Some? then c else Session(c.committed, Some(c.committed)))
    case CommitWork => Some(if c.work.Some? then Session(c.work.value, None) else c)
    case _ =>
      var db :- Perform(if c.work.Some? then c.work.value else c.committed, q);
      Some(if c.work.Some? then Session(c.committed, Some(db)) else Session(db, None))
  }

  /** Statement by statement, up to the first that cannot be read or is refused. */
  ghost function Play(py: Python, c: Session, statements: seq<seq<Segment>>): Session
    decreases |statements|
  {
    if statements == [] then c
    else match Read(py, FeedSegments(statements[0]).Tokens())
      case None => c
      case Some(q) =>
        match Proceed(c, q)
        case None => c
        case Some(next) => Play(py, next, statements[1..])
  }

  /** Running a script: what is committed when it ends or stops. */
  ghost function RunText(py: Python, text: string, db: Db): Db {
    Play(py, Session(db, None), Statements(text).statements).committed
  }
}
