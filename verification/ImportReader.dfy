/** What the printed script does when it is read as SQL. */
module ImportReader {
  import opened Prelude
  import opened Json
  import opened Text
  import opened Quoting
  import opened SqlDatabase
  import opened SqlLexer
  import opened SqlReader
  import opened SqlSpelling
  import opened ImportSpec
  import opened ImportPlan
  import opened ImportRender
  import opened ImportScript
  import opened ImportPhrases

  /** Different JSON values print differently. */
  ghost predicate Printer(py: Python) {
    forall u, v :: py.dumps(u) == py.dumps(v) ==> u == v
  }

  // ---------- Values ----------

  function NumberTokens(n: int): seq<Token> {
    if n < 0 then [Sym('-'), Word(Digits(-n))] else [Word(Digits(n))]
  }

  function ValueTokens(py: Python, v: Sql): seq<Token> {
    match v
    case SqlNull => [Word("NULL")]
    case SqlBool(b) => [Word(if b then "TRUE" else "FALSE")]
    case SqlInt(n) => NumberTokens(n)
    case SqlText(s) => [Const(s)]
    case SqlJson(j) => [Const(py.dumps(j))] + JSON_CAST
  }

  function AllValueTokens(py: Python, values: seq<Sql>): seq<seq<Token>> {
    seq(|values|, i requires 0 <= i < |values| => ValueTokens(py, values[i]))
  }

  lemma DigitsAreName(n: nat)
    ensures IsName(Digits(n)) && AllDigits(Digits(n))
  {
  }

  lemma SpelledNumber(n: int)
    ensures Spelled([Raw(Decimal(n))]) == NumberTokens(n)
  {
    hide Spelled, Digits;
    if n < 0 {
      DigitsAreName(-n);
      TextConcat("-", Digits(-n));
      SpelledName(Digits(-n));
      SpelledMark('-');
    } else {
      DigitsAreName(n);
      SpelledName(Digits(n));
    }
  }

  lemma SpelledCast()
    ensures Spelled([Raw("::jsonb")]) == JSON_CAST
  {
    hide Spelled;
    SpelledMark(':');
    TextConcat(":", ":");
    SpelledName("jsonb");
    TextConcat(":" + ":", "jsonb");
    assert "::jsonb" == ":" + ":" + "jsonb";
  }

  lemma SpelledLiteral(py: Python, v: Sql)
    ensures Spelled(LiteralPieces(py, v)) == ValueTokens(py, v)
  {
    hide Spelled;
    match v {
      case SqlNull => SpelledName("NULL");
      case SqlBool(b) => SpelledName(if b then "TRUE" else "FALSE");
      case SqlInt(n) => SpelledNumber(n);
      case SqlText(s) => SpelledConstant(Quoted(s));
      case SqlJson(j) =>
        var q := Quoted(py.dumps(j));
        SpelledConstant(q);
        SpelledCast();
        SpelledConcat([q], [Raw("::jsonb")]);
        assert [q] + [Raw("::jsonb")] == LiteralPieces(py, v);
    }
  }

  lemma {:induction false} DigitsAreRead(n: nat)
    ensures DigitsValue(Digits(n)) == n
  {
    var s := Digits(n);
    assert s[|s| - 1] as int - '0' as int == n % 10;
    if n < 10 {
      assert s[..|s| - 1] == "";
    } else {
      assert s[..|s| - 1] == Digits(n / 10);
      DigitsAreRead(n / 10);
    }
  }

  lemma DigitsAreNoKeyword(n: nat)
    ensures Digits(n) != "NULL" && Digits(n) != "TRUE" && Digits(n) != "FALSE"
  {
    assert "NULL"[0] == 'N' && "TRUE"[0] == 'T' && "FALSE"[0] == 'F';
  }

  lemma NumberIsRead(py: Python, n: int, rest: seq<Token>)
    ensures ReadValue(py, NumberTokens(n) + rest) == Some((SqlInt(n), rest))
  {
    hide Digits, DigitsValue;
    var x := if n < 0 then -n else n;
    var ts := NumberTokens(n) + rest;
    DigitsAreName(x);
    DigitsAreRead(x);
    DigitsAreNoKeyword(x);
    if n < 0 { assert ts[2..] == rest; } else { assert ts[1..] == rest; }
  }

  /** One printed value is read back before whatever can follow it. */
  lemma ValueIsRead(py: Python, v: Sql)
    requires Printer(py)
    ensures Reads(ValueReader(py), v, ValueTokens(py, v))
  {
    hide Printer;
    forall rest | Stops(rest) ensures ReadValue(py, ValueTokens(py, v) + rest) == Some((v, rest)) {
      var ts := ValueTokens(py, v) + rest;
      match v {
        case SqlInt(n) => NumberIsRead(py, n, rest);
        case SqlJson(j) =>
          JsonIsRead(py, j);
          assert ts[1..] == JSON_CAST + rest && ts[4..] == rest;
        case _ => assert ts[1..] == rest;
      }
    }
  }

  lemma JsonIsRead(py: Python, j: Value)
    requires Printer(py)
    ensures JsonOf(py, py.dumps(j)) == Some(j)
  {
  }

  /** A printed list of column values is read back as those values. */
  lemma ValuesAreRead(py: Python, values: seq<Sql>, rest: seq<Token>)
    requires Printer(py) && values != [] && Stops(rest) && (rest != [] ==> rest[0] != Sym(','))
    ensures var printed := Spelled(JoinPieces(Literals(py, values), COLUMN_SEPARATOR));
      ReadList(ValueReader(py), printed + rest) == Some((values, rest))
  {
    hide Printer, Spelled, Joined, ReadList;
    SpelledValueList(py, values);
    forall i | 0 <= i < |values| ensures Reads(ValueReader(py), values[i], AllValueTokens(py, values)[i]) {
      ValueIsRead(py, values[i]);
    }
    ListIsRead(ValueReader(py), values, AllValueTokens(py, values), rest);
  }

  lemma SpelledValueList(py: Python, values: seq<Sql>)
    requires values != []
    ensures Spelled(JoinPieces(Literals(py, values), COLUMN_SEPARATOR)) == Commas(AllValueTokens(py, values))
  {
    hide Spelled;
    Separators();
    forall i | 0 <= i < |values| ensures Spelled(Literals(py, values)[i]) == AllValueTokens(py, values)[i] {
      SpelledLiteral(py, values[i]);
    }
    SpelledJoinPieces(Literals(py, values), COLUMN_SEPARATOR, AllValueTokens(py, values), [Sym(',')]);
  }

  // ---------- Upserts ----------

  const COLUMNS := FIRST_COLUMNS + LAST_COLUMNS
  const UPDATED := FIRST_COLUMNS[1..] + LAST_COLUMNS

  /** The values of an upsert, in the order of its columns. */
  function UpsertValues(name: string, c: Columns): seq<Sql> {
    [SqlText(name), c.displayName, SqlText(c.description)] + ColumnsAfter(c)
  }

  function Sets(columns: seq<string>): seq<(string, string)> {
    seq(|columns|, i requires 0 <= i < |columns| => (columns[i], columns[i]))
  }

  function ConflictTokens(): seq<Token> {
    [Sym(')'), Word("ON"), Word("CONFLICT"), Sym('('), Word("name"), Sym(')'), Word("DO"), Word("UPDATE"), Word("SET")]
  }

  lemma FirstValues(py: Python, name: string, v: Sql)
    ensures Spelled(JoinPieces([[Quoted(name)], LiteralPieces(py, v)], COLUMN_SEPARATOR))
      == Commas(AllValueTokens(py, [SqlText(name), v]))
  {
    hide Spelled, LiteralPieces, Joined, ValueTokens;
    SpelledValueList(py, [SqlText(name), v]);
    assert LiteralPieces(py, SqlText(name)) == [Quoted(name)] by { TextLiteral(py, name); }
    assert Literals(py, [SqlText(name), v]) == [[Quoted(name)], LiteralPieces(py, v)];
  }

  lemma TextLiteral(py: Python, s: string)
    ensures LiteralPieces(py, SqlText(s)) == [Quoted(s)]
    ensures ValueTokens(py, SqlText(s)) == [Const(s)]
  {
  }

  lemma HeadCloses()
    ensures Closed([Raw(InsertHead(FIRST_COLUMNS, LAST_COLUMNS))])
    ensures Breaks([Raw(InsertTail(UPDATED))])
    ensures Closed([Raw(COLUMN_SEPARATOR)]) && Breaks([Raw(COLUMN_SEPARATOR)])
  {
    hide ColumnList, Line, Join, Updates;
    Marks();
  }

  lemma SpelledUpsert(py: Python, name: string, c: Columns)
    ensures Spelled(StatementPieces(py, Upsert(name, c)))
      == Spelled([Raw(InsertHead(FIRST_COLUMNS, LAST_COLUMNS))]) + Commas(AllValueTokens(py, UpsertValues(name, c)))
         + Spelled([Raw(InsertTail(UPDATED))])
  {
    hide Spelled, LiteralPieces, Literals, JoinPieces, ColumnsAfter, InsertHead, InsertTail, Joined, ValueTokens, Closed, Breaks;
    var head, tail, sep := [Raw(InsertHead(FIRST_COLUMNS, LAST_COLUMNS))], [Raw(InsertTail(UPDATED))], [Raw(COLUMN_SEPARATOR)];
    var first := JoinPieces([[Quoted(name)], LiteralPieces(py, c.displayName)], COLUMN_SEPARATOR);
    var last := JoinPieces(Literals(py, ColumnsAfter(c)), COLUMN_SEPARATOR);
    var d := [Dollar(c.description)];
    HeadCloses();
    FirstValues(py, name, c.displayName);
    AfterValues(py, c);
    SpelledConstant(Dollar(c.description));
    Separators();
    SpelledConcat(head, first);
    SpelledConcat(head + first, sep);
    SeparatorCloses(head + first);
    SpelledConcat(head + first + sep, d);
    SpelledConcat(head + first + sep + d, sep);
    SeparatorCloses(head + first + sep + d);
    SpelledConcat(head + first + sep + d + sep, last);
    SpelledConcat(head + first + sep + d + sep + last, tail);
    assert StatementPieces(py, Upsert(name, c)) == head + first + sep + d + sep + last + tail;
    CommaValues(py, name, c);
    var h, f, l, t := Spelled(head), Spelled(first), Spelled(last), Spelled(tail);
    var x, comma := [Const(c.description)], [Sym(',')];
    assert h + f + comma + x + comma + l + t == h + (f + comma + x + comma + l) + t;
  }

  lemma SeparatorCloses(ps: seq<Piece>)
    ensures Closed(ps + [Raw(COLUMN_SEPARATOR)])
  {
    Marks();
  }

  lemma AfterValues(py: Python, c: Columns)
    ensures Spelled(JoinPieces(Literals(py, ColumnsAfter(c)), COLUMN_SEPARATOR)) == Commas(AllValueTokens(py, ColumnsAfter(c)))
  {
    hide Spelled, Literals, JoinPieces, Joined, ValueTokens;
    SpelledValueList(py, ColumnsAfter(c));
  }

  lemma CommaValues(py: Python, name: string, c: Columns)
    ensures Commas(AllValueTokens(py, UpsertValues(name, c)))
      == Commas(AllValueTokens(py, [SqlText(name), c.displayName])) + [Sym(',')] + [Const(c.description)] + [Sym(',')]
         + Commas(AllValueTokens(py, ColumnsAfter(c)))
  {
    hide ValueTokens, Joined;
    var a, b := [SqlText(name), c.displayName], [SqlText(c.description)];
    TextLiteral(py, c.description);
    assert Joined([[Const(c.description)]], [Sym(',')]) == [Const(c.description)] by { OneItem([Const(c.description)]); }
    assert AllValueTokens(py, b) == [[Const(c.description)]];
    JoinedConcat(AllValueTokens(py, a), AllValueTokens(py, b), [Sym(',')]);
    JoinedConcat(AllValueTokens(py, a + b), AllValueTokens(py, ColumnsAfter(c)), [Sym(',')]);
    assert AllValueTokens(py, a + b) == AllValueTokens(py, a) + AllValueTokens(py, b);
    assert a + b + ColumnsAfter(c) == UpsertValues(name, c);
    assert AllValueTokens(py, UpsertValues(name, c)) == AllValueTokens(py, a + b) + AllValueTokens(py, ColumnsAfter(c));
  }

  lemma OneItem(ts: seq<Token>)
    ensures Commas([ts]) == ts
  {
  }

  lemma AfterIs(a: seq<Token>, rest: seq<Token>)
    ensures a <= a + rest && (a + rest)[|a|..] == rest
  {
  }

  lemma SetsAreRead(columns: seq<string>)
    requires columns != []
    ensures ReadList(ReadSet, Commas(SetTokens(columns))) == Some((Sets(columns), []))
  {
    hide Joined, ReadList;
    forall i | 0 <= i < |columns| ensures Reads(ReadSet, Sets(columns)[i], SetTokens(columns)[i]) {
      var c := columns[i];
      forall r | Stops(r) ensures ReadSet([Word(c), Sym('='), Word("EXCLUDED." + c)] + r) == Some(((c, c), r)) {
        assert ("EXCLUDED." + c)[|EXCLUDED|..] == c;
      }
    }
    ListIsRead(ReadSet, Sets(columns), SetTokens(columns), []);
    assert Commas(SetTokens(columns)) + [] == Commas(SetTokens(columns));
  }

  lemma RowIsRead(py: Python, table: string, columns: seq<string>, values: seq<Sql>, updated: seq<string>)
    requires Printer(py) && values != [] && updated != []
    ensures ReadRow(py, table, columns, Commas(AllValueTokens(py, values)) + (ConflictTokens() + Commas(SetTokens(updated))))
      == Some(InsertRow(table, columns, values, "name", Sets(updated)))
  {
    hide Printer, Joined, ReadList, Spelled;
    var sets := Commas(SetTokens(updated));
    var rest := ConflictTokens() + sets;
    SpelledValueList(py, values);
    ValuesAreRead(py, values, rest);
    var open, close := [Sym(')'), Word("ON"), Word("CONFLICT"), Sym('(')], [Sym(')'), Word("DO"), Word("UPDATE"), Word("SET")];
    assert rest == open + ([Word("name")] + (close + sets));
    AfterIs(open, [Word("name")] + (close + sets));
    AfterIs(close, sets);
    assert ([Word("name")] + (close + sets))[1..] == close + sets;
    SetsAreRead(updated);
  }

  lemma UpsertIsRead(py: Python, name: string, c: Columns)
    requires Printer(py)
    ensures Read(py, Spelled(StatementPieces(py, Upsert(name, c))))
      == Some(InsertRow(TOOLS, COLUMNS, UpsertValues(name, c), "name", Sets(UPDATED)))
  {
    hide Printer, Spelled, Joined, ReadList, ReadRow, InsertHead, InsertTail, StatementPieces, FIRST_COLUMNS, LAST_COLUMNS, TOOLS, ValueTokens;
    ColumnsAreNames();
    UpdatedAreNames();
    SpelledUpsert(py, name, c);
    SpelledInsertHead(FIRST_COLUMNS, LAST_COLUMNS);
    SpelledInsertTail(UPDATED);
    var names, values := Commas(WordTokens(COLUMNS)), Commas(AllValueTokens(py, UpsertValues(name, c)));
    var tail := ConflictTokens() + Commas(SetTokens(UPDATED));
    var mark := [Sym(')'), Word("VALUES"), Sym('(')];
    var ts := Spelled(StatementPieces(py, Upsert(name, c)));
    assert ts == [Word("INSERT"), Word("INTO")] + ([Word(TOOLS), Sym('(')] + (names + (mark + (values + tail))));
    InsertIsRead(py, TOOLS, COLUMNS, mark + (values + tail));
    assert (mark + (values + tail))[1..] == [Word("VALUES"), Sym('(')] + (values + tail);
    RowIsRead(py, TOOLS, COLUMNS, UpsertValues(name, c), UPDATED);
  }

  lemma UpdatedAreNames()
    ensures FIRST_COLUMNS != [] && LAST_COLUMNS != [] && UPDATED != [] && COLUMNS != []
    ensures (forall c | c in FIRST_COLUMNS :: IsName(c)) ==> forall c | c in FIRST_COLUMNS[1..] :: IsName(c)
  {
    hide IsName;
  }

  /** The beginning of an insert, up to the bracket after its columns. */
  lemma InsertIsRead(py: Python, table: string, columns: seq<string>, rest: seq<Token>)
    requires columns != [] && rest != [] && rest[0] == Sym(')')
    ensures var ts := [Word("INSERT"), Word("INTO")] + ([Word(table), Sym('(')] + (Commas(WordTokens(columns)) + rest));
      Read(py, ts)
      == if [Word("VALUES"), Sym('(')] <= rest[1..] then ReadRow(py, table, columns, rest[3..])
         else if [Word("SELECT")] <= rest[1..] then ReadSelected(table, columns, rest[2..])
         else None
  {
    hide Joined, ReadList, ReadRow, ReadSelected, ReadDelete;
    var list := Commas(WordTokens(columns)) + rest;
    var body := [Word(table), Sym('(')] + list;
    AfterIs([Word("INSERT"), Word("INTO")], body);
    NamesAreRead(columns, rest);
    assert body[1..] == [Sym('(')] + list;
    AfterIs([Sym('(')], list);
    assert |rest| >= 3 ==> rest[1..][2..] == rest[3..];
    assert |rest| >= 2 ==> rest[1..][1..] == rest[2..];
  }

  // ---------- Grants ----------

  lemma SpelledQuotes(texts: seq<string>)
    requires texts != []
    ensures Spelled(JoinPieces(Quotes(texts), ", ")) == Commas(ConstTokens(texts))
  {
    hide Spelled;
    Separators();
    forall i | 0 <= i < |texts| ensures Spelled(Quotes(texts)[i]) == ConstTokens(texts)[i] {
      SpelledConstant(Quoted(texts[i]));
    }
    SpelledJoinPieces(Quotes(texts), ", ", ConstTokens(texts), [Sym(',')]);
  }

  lemma ClearCloses()
    ensures Closed([Raw(CLEAR_HEAD)]) && Breaks([Raw("))")])
    ensures Spelled([Raw("))")]) == [Sym(')'), Sym(')')]
  {
    hide Line, Spelled;
    Marks();
    SpelledMark(')');
    TextConcat(")", ")");
    assert ")" + ")" == "))";
  }

  function DeleteHead(): seq<Token> {
    [Word("DELETE"), Word("FROM"), Word(GRANTS), Word("WHERE"), Word("tool_id"), Word("IN"), Sym('(')]
  }

  function QueryHead(): seq<Token> {
    [Word("SELECT"), Word("id"), Word("FROM"), Word(TOOLS), Word("WHERE"), Word("name"), Word("IN"), Sym('(')]
  }

  lemma SpelledClear(py: Python, names: seq<string>)
    requires names != []
    ensures Spelled(StatementPieces(py, ClearGrants(names)))
      == DeleteHead() + (QueryHead() + (Commas(ConstTokens(names)) + [Sym(')'), Sym(')')]))
  {
    hide Spelled, Joined, CLEAR_HEAD, JoinPieces, GRANTS, TOOLS, Quotes;
    var head, list := [Raw(CLEAR_HEAD)], JoinPieces(Quotes(names), ", ");
    ClearCloses();
    SpelledClearHead();
    SpelledQuotes(names);
    SpelledConcat(head, list);
    SpelledConcat(head + list, [Raw("))")]);
    assert Spelled(head) == DeleteHead() + QueryHead();
    Regroup(DeleteHead(), QueryHead(), Commas(ConstTokens(names)), [Sym(')'), Sym(')')]);
  }

  lemma Regroup(a: seq<Token>, b: seq<Token>, c: seq<Token>, d: seq<Token>)
    ensures a + b + c + d == a + (b + (c + d))
  {
  }

  lemma ClearIsRead(py: Python, names: seq<string>)
    requires names != []
    ensures Read(py, Spelled(StatementPieces(py, ClearGrants(names))))
      == Some(DeleteRows(GRANTS, "tool_id", false, Subquery("id", TOOLS, "name", false, names)))
  {
    hide Spelled, Joined, ReadList, StatementPieces, GRANTS, TOOLS, ReadDelete, ReadSubquery, QueryHead;
    SpelledClear(py, names);
    var query := QueryHead() + (Commas(ConstTokens(names)) + [Sym(')'), Sym(')')]);
    QueryIsRead(names);
    DeleteIsRead(query, Subquery("id", TOOLS, "name", false, names));
    var ts := DeleteHead() + query;
    assert ts[..2] == [Word("DELETE"), Word("FROM")] && ts[0] == Word("DELETE");
    assert "DELETE"[0] == 'D' && "INSERT"[0] == 'I';
  }

  lemma DeleteIsRead(query: seq<Token>, q: Subquery)
    requires ReadSubquery(query) == Some((q, [Sym(')')]))
    ensures ReadDelete((DeleteHead() + query)[2..]) == Some(DeleteRows(GRANTS, "tool_id", false, q))
  {
    hide ReadSubquery, GRANTS;
    var ts := DeleteHead() + query;
    assert ts[2..][1..] == ts[3..] && ts[3..][1..] == ts[4..] && ts[4..][1..] == ts[5..] && ts[5..][2..] == query;
  }

  lemma QueryIsRead(names: seq<string>)
    requires names != []
    ensures ReadSubquery(QueryHead() + (Commas(ConstTokens(names)) + [Sym(')'), Sym(')')]))
      == Some((Subquery("id", TOOLS, "name", false, names), [Sym(')')]))
  {
    hide ReadList, Joined, TOOLS;
    var list := Commas(ConstTokens(names)) + [Sym(')'), Sym(')')];
    var ts := QueryHead() + list;
    assert ts[1..][1..] == ts[2..] && ts[2..][1..] == ts[3..] && ts[3..][1..] == ts[4..] && ts[4..][1..] == ts[5..];
    assert ts[5..][1..] == ts[6..] && ts[6..][2..] == list;
    TextsAreRead(names, [Sym(')'), Sym(')')]);
    assert [Sym(')'), Sym(')')][1..] == [Sym(')')];
  }

  lemma GrantCloses()
    ensures Closed([Raw(GRANT_HEAD)]) && Breaks([Raw(GRANT_MIDDLE)]) && Breaks([Raw(GRANT_TAIL)])
  {
    hide Line, Join;
    Marks();
  }

  function AliasTokens(): seq<Token> {
    [Sym(']'), Sym(')'), Word("AS"), Word("r"), Word("WHERE"), Word(TOOLS + ".name"), Sym('=')]
  }

  function UnnestTokens(): seq<Token> {
    [Sym(','), Word("unnest"), Sym('('), Word("ARRAY"), Sym('[')]
  }

  const NOTHING := [Word("ON"), Word("CONFLICT"), Word("DO"), Word("NOTHING")]

  lemma SpelledGrant(py: Python, name: string, roles: seq<string>)
    requires roles != []
    ensures Spelled(StatementPieces(py, AddGrants(name, roles)))
      == Spelled([Raw(GRANT_HEAD)]) + Commas(ConstTokens(roles)) + AliasTokens() + [Const(name)] + NOTHING
  {
    hide Spelled, Joined, GRANT_HEAD, GRANT_MIDDLE, GRANT_TAIL, JoinPieces, TOOLS, Quotes;
    var head, list, middle, tail := [Raw(GRANT_HEAD)], JoinPieces(Quotes(roles), ", "), [Raw(GRANT_MIDDLE)], [Raw(GRANT_TAIL)];
    GrantCloses();
    SpelledQuotes(roles);
    SpelledGrantMiddle();
    SpelledGrantTail();
    SpelledConstant(Quoted(name));
    SpelledConcat(head, list);
    SpelledConcat(head + list, middle);
    SpelledConcat(head + list + middle, [Quoted(name)]);
    SpelledConcat(head + list + middle + [Quoted(name)], tail);
  }

  lemma SelectedIsRead(table: string, columns: seq<string>, name: string, roles: seq<string>)
    requires roles != []
    ensures ReadSelected(table, columns, Commas(WordTokens(["id", "r"])) + ([Word("FROM")] + ([Word(TOOLS)] + (UnnestTokens()
        + (Commas(ConstTokens(roles)) + (AliasTokens() + ([Const(name)] + NOTHING)))))))
      == Some(InsertSelected(table, columns, ["id", "r"], TOOLS, roles, "r", TOOLS + ".name", name))
  {
    hide ReadList, Joined, TOOLS;
    var j := [Const(name)] + NOTHING;
    var e := AliasTokens() + j;
    var d := Commas(ConstTokens(roles)) + e;
    var c := UnnestTokens() + d;
    var b := [Word(TOOLS)] + c;
    var a := [Word("FROM")] + b;
    NamesAreRead(["id", "r"], a);
    AfterIs([Word("FROM")], b);
    assert b[1..] == c;
    AfterIs(UnnestTokens(), d);
    TextsAreRead(roles, e);
    AliasIsRead(j);
    assert j[1..] == NOTHING;
  }

  lemma AliasIsRead(j: seq<Token>)
    ensures var e := AliasTokens() + j;
      && After(e, [Sym(']'), Sym(')'), Word("AS")]) == Some(e[3..]) && ReadName(e[3..]) == Some(("r", e[4..]))
      && After(e[4..], [Word("WHERE")]) == Some(e[5..]) && ReadName(e[5..]) == Some((TOOLS + ".name", e[6..]))
      && After(e[6..], [Sym('=')]) == Some(j)
  {
    hide TOOLS;
    var e := AliasTokens() + j;
    assert e[3..][1..] == e[4..] && e[4..][1..] == e[5..] && e[5..][1..] == e[6..] && e[6..][1..] == j;
  }

  lemma GrantTokens(a: seq<Token>, b: seq<Token>, c: seq<Token>, d: seq<Token>, e: seq<Token>, f: seq<Token>, g: seq<Token>)
    ensures a + b + c + d + e + UnnestTokens() + f + AliasTokens() + g + NOTHING
      == a + (b + (c + (d + (e + (UnnestTokens() + (f + (AliasTokens() + (g + NOTHING))))))))
  {
    hide UnnestTokens, AliasTokens, NOTHING;
    var u, x, n := UnnestTokens(), AliasTokens(), NOTHING;
    var left := a + b + c + d;
    Regroup(a, b, c, d + (e + (u + (f + (x + (g + n))))));
    Regroup(left, e, u, f + (x + (g + n)));
    Regroup(left + e + u, f, x, g + n);
    assert left + e + u + f + x + (g + n) == left + e + u + f + x + g + n;
    assert a + b + c + (d + (e + (u + (f + (x + (g + n)))))) == left + (e + (u + (f + (x + (g + n)))));
  }

  lemma GrantIsRead(py: Python, name: string, roles: seq<string>)
    requires roles != []
    ensures Read(py, Spelled(StatementPieces(py, AddGrants(name, roles))))
      == Some(InsertSelected(GRANTS, ["tool_id", "role"], ["id", "r"], TOOLS, roles, "r", TOOLS + ".name", name))
  {
    hide Spelled, Joined, ReadList, Read, ReadSelected, GRANT_HEAD, StatementPieces, GRANTS, TOOLS;
    SpelledGrant(py, name, roles);
    SpelledGrantHead();
    var columns, selected := ["tool_id", "role"], Commas(WordTokens(["id", "r"]));
    var c := UnnestTokens() + (Commas(ConstTokens(roles)) + (AliasTokens() + ([Const(name)] + NOTHING)));
    var rest := selected + ([Word("FROM")] + ([Word(TOOLS)] + c));
    var a, b, mark := [Word("INSERT"), Word("INTO"), Word(GRANTS), Sym('(')], Commas(WordTokens(columns)), [Sym(')'), Word("SELECT")];
    GrantTokens(a, b, mark, selected, [Word("FROM"), Word(TOOLS)], Commas(ConstTokens(roles)), [Const(name)]);
    assert [Word("FROM")] + ([Word(TOOLS)] + c) == [Word("FROM"), Word(TOOLS)] + c;
    assert Spelled(StatementPieces(py, AddGrants(name, roles))) == a + (b + (mark + rest));
    assert a + (b + (mark + rest)) == [Word("INSERT"), Word("INTO")] + ([Word(GRANTS), Sym('(')] + (b + (mark + rest)));
    InsertIsRead(py, GRANTS, columns, mark + rest);
    assert (mark + rest)[1..] == [Word("SELECT")] + rest && (mark + rest)[2..] == rest;
    assert (mark + rest)[1..][0] == Word("SELECT") && "SELECT"[0] == 'S' && "VALUES"[0] == 'V';
    SelectedIsRead(GRANTS, columns, name, roles);
  }

  // ---------- Statements ----------

  /** What a statement says, in the reader's terms. */
  function Said(s: Statement): Query {
    match s
    case Begin => BeginWork
    case Commit => CommitWork
    case Upsert(name, c) => InsertRow(TOOLS, COLUMNS, UpsertValues(name, c), "name", Sets(UPDATED))
    case ClearGrants(names) => DeleteRows(GRANTS, "tool_id", false, Subquery("id", TOOLS, "name", false, names))
    case AddGrants(name, roles) =>
      InsertSelected(GRANTS, ["tool_id", "role"], ["id", "r"], TOOLS, roles, "r", TOOLS + ".name", name)
  }

  lemma WorkIsRead(py: Python)
    ensures Read(py, Spelled([Raw("BEGIN")])) == Some(BeginWork) && Read(py, Spelled([Raw("COMMIT")])) == Some(CommitWork)
  {
    hide Spelled, ReadInsert, ReadDelete;
    SpelledName("BEGIN");
    SpelledName("COMMIT");
  }

  lemma StatementSays(py: Python, s: Statement)
    requires Printer(py) && WellShaped(s)
    ensures Read(py, FeedSegments(Intended(py, s)).Tokens()) == Some(Said(s))
  {
    hide Spelled, Read, Printer, COLUMNS, UPDATED, TOOLS, GRANTS, FeedPieces, FeedSegments, EmitAll, StatementPieces;
    EmitFeeds([], StatementPieces(py, s));
    assert FeedSegments([]) == Start by { NoSegments(); }
    assert FeedPieces(Start, StatementPieces(py, s)).Tokens() == Spelled(StatementPieces(py, s)) by { SpelledIs(StatementPieces(py, s)); }
    match s {
      case Begin => WorkIsRead(py); WorkPieces(py);
      case Commit => WorkIsRead(py); WorkPieces(py);
      case Upsert(name, c) => UpsertIsRead(py, name, c);
      case ClearGrants(names) => ClearIsRead(py, names);
      case AddGrants(name, roles) => GrantIsRead(py, name, roles);
    }
  }

  lemma WorkPieces(py: Python)
    ensures StatementPieces(py, Begin) == [Raw("BEGIN")] && StatementPieces(py, Commit) == [Raw("COMMIT")]
  {
  }

  lemma NoSegments()
    ensures FeedSegments([]) == Start
  {
  }

  lemma SpelledIs(ps: seq<Piece>)
    ensures FeedPieces(Start, ps).Tokens() == Spelled(ps)
  {
    hide FeedPieces;
  }

  /** A statement's segments determine the statement, with all its columns. */
  lemma StatementIsRead(py: Python, s: Statement, t: Statement)
    requires Printer(py) && WellShaped(s) && WellShaped(t) && Intended(py, s) == Intended(py, t)
    ensures s == t
  {
    hide Intended, Printer, Read, COLUMNS, UPDATED, TOOLS, GRANTS;
    StatementSays(py, s);
    StatementSays(py, t);
    if s.Upsert? {
      var x, y := UpsertValues(s.name, s.columns), UpsertValues(t.name, t.columns);
      assert x[0] == y[0] && x[1] == y[1] && x[2] == y[2] && x[3] == y[3] && x[4] == y[4] && x[5] == y[5];
      assert x[6] == y[6] && x[7] == y[7] && x[8] == y[8] && x[9] == y[9] && x[10] == y[10] && x[11] == y[11];
    }
  }

  /** These are the statements read from the text, before its end or the first error. */
  ghost predicate ReadsAs(py: Python, text: string, script: seq<Statement>) {
    (forall s | s in script :: WellShaped(s)) && Statements(text).statements == IntendedAll(py, script)
  }

  /** A text is read in one way at most. */
  lemma ReadingIsUnique(py: Python, text: string, a: seq<Statement>, b: seq<Statement>)
    requires Printer(py) && ReadsAs(py, text, a) && ReadsAs(py, text, b)
    ensures a == b
  {
    hide Intended, Printer, WellShaped, Statements;
    var x, y := IntendedAll(py, a), IntendedAll(py, b);
    assert |a| == |x| == |y| == |b|;
    forall i | 0 <= i < |a| ensures a[i] == b[i] {
      assert a[i] in a && b[i] in b;
      assert x[i] == Intended(py, a[i]) && y[i] == Intended(py, b[i]);
      StatementIsRead(py, a[i], b[i]);
    }
  }
}
