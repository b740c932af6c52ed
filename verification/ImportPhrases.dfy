/** The program text of the importer's statements as tokens. */
module ImportPhrases {
  import opened Prelude
  import opened Text
  import opened SqlLexer
  import opened SqlReader
  import opened SqlSpelling
  import opened ImportRender

  // ---------- Words and marks ----------

  lemma InsertWords()
    ensures IsName("INSERT") && IsName("INTO") && IsName("VALUES") && IsName(TOOLS) && IsName(GRANTS)
    ensures IsName("SELECT") && IsName("FROM") && IsName("WHERE") && IsName("IN") && IsName("DELETE")
  {
  }

  lemma ConflictWords()
    ensures IsName("ON") && IsName("CONFLICT") && IsName("DO") && IsName("UPDATE") && IsName("SET")
    ensures IsName("NOTHING") && IsName("AS") && IsName("unnest") && IsName("ARRAY") && IsName("EXCLUDED.")
  {
  }

  lemma ColumnWords()
    ensures IsName("name") && IsName("tool_id") && IsName("role") && IsName("id") && IsName("r") && IsName(".name")
  {
  }

  lemma ColumnsAreNames()
    ensures forall c | c in FIRST_COLUMNS :: IsName(c)
    ensures forall c | c in LAST_COLUMNS :: IsName(c)
  {
  }

  lemma Marks()
    ensures !NameChar(' ') && !NameChar('\n') && !NameChar('(') && !NameChar(')') && !NameChar('[')
    ensures !NameChar(']') && !NameChar(',') && !NameChar('=') && !NameChar(':') && !NameChar('-')
  {
  }

  /** A mark with blanks after it, or around it. */
  lemma SpelledBlankMark(before: string, c: char, after: string)
    requires !NameChar(c) && !Space(c)
    requires (forall b | b in before :: Space(b)) && forall b | b in after :: Space(b)
    ensures Spelled([Raw(before + [c] + after)]) == [Sym(c)]
  {
    hide Spelled;
    SpelledMark(c);
    BlanksAfter([c], after);
    if before == "" {
      assert before + [c] + after == [c] + after;
    } else {
      BlanksBefore(before, [c] + after);
      assert before + [c] + after == before + ([c] + after);
    }
  }

  /** A name between marks. */
  lemma SpelledNameAfter(before: string, name: string, ts: seq<Token>)
    requires before != "" && !NameChar(before[|before| - 1]) && Spelled([Raw(before)]) == ts && IsName(name)
    ensures Spelled([Raw(before + name)]) == ts + [Word(name)]
  {
    hide Spelled;
    SpelledName(name);
    TextConcat(before, name);
  }

  lemma ThreeInLine(a: string, b: string, c: string)
    ensures Line([a, b, c]) == a + (" " + b + " ") + c
    ensures Line([a, b]) == a + " " + b
  {
    assert [a, b, c][1..] == [b, c] && [b, c][1..] == [c] && [a, b][1..] == [b];
    assert Join([b], " ") == b && Join([c], " ") == c;
    assert Join([b, c], " ") == b + " " + Join([b, c][1..], " ");
    assert Join([a, b, c], " ") == a + " " + Join([a, b, c][1..], " ");
  }

  // ---------- The upsert ----------

  lemma SpelledColumnList(first: seq<string>, last: seq<string>)
    requires first != [] && last != []
    requires (forall c | c in first :: IsName(c)) && forall c | c in last :: IsName(c)
    ensures Spelled([Raw(ColumnList(first, last))]) == [Sym('(')] + Commas(WordTokens(first + last))
  {
    hide Spelled, Join;
    Marks();
    Separators();
    SpelledNames(first, ", ");
    SpelledNames(last, ", ");
    SpelledBlankMark("\n    ", '(', "");
    assert "\n    " + "(" + "" == "\n    (";
    var a, b := Join(first, ", "), Join(last, ", ");
    TextConcat(",\n     ", b);
    TextConcat(a, ",\n     " + b);
    TextConcat("\n    (", a + (",\n     " + b));
    assert ColumnList(first, last) == "\n    (" + (a + (",\n     " + b));
    JoinedConcat(WordTokens(first), WordTokens(last), [Sym(',')]);
    assert WordTokens(first + last) == WordTokens(first) + WordTokens(last);
    assert Commas(WordTokens(first)) + ([Sym(',')] + Commas(WordTokens(last)))
      == Commas(WordTokens(first)) + [Sym(',')] + Commas(WordTokens(last));
  }

  lemma SpelledValues()
    ensures Spelled([Raw(")\nVALUES (\n    ")]) == [Sym(')'), Word("VALUES"), Sym('(')]
  {
    hide Spelled;
    Marks();
    SpelledBlankMark("", ')', "\n");
    assert "" + ")" + "\n" == ")\n";
    SpelledName("VALUES") by { InsertWords(); }
    SpelledBlankMark(" ", '(', "\n    ");
    assert " " + "(" + "\n    " == " (\n    ";
    TextConcat("VALUES", " (\n    ");
    TextConcat(")\n", "VALUES" + " (\n    ");
    assert ")\n" + ("VALUES" + " (\n    ") == ")\nVALUES (\n    ";
  }

  lemma SpelledInsertHead(first: seq<string>, last: seq<string>)
    requires first != [] && last != []
    requires (forall c | c in first :: IsName(c)) && forall c | c in last :: IsName(c)
    ensures Spelled([Raw(InsertHead(first, last))])
      == [Word("INSERT"), Word("INTO"), Word(TOOLS), Sym('(')] + Commas(WordTokens(first + last))
         + [Sym(')'), Word("VALUES"), Sym('(')]
  {
    hide Spelled, Join, Commas, ColumnList, TOOLS;
    Marks();
    SpelledColumnList(first, last);
    SpelledValues();
    SpelledLine(["INSERT", "INTO", TOOLS]) by { InsertWords(); }
    assert Words(["INSERT", "INTO", TOOLS]) == [Word("INSERT"), Word("INTO"), Word(TOOLS)];
    var line, list := Line(["INSERT", "INTO", TOOLS]), ColumnList(first, last);
    ColumnListBreaks(first, last);
    TextConcat(line, list);
    TextConcat(line + list, ")\nVALUES (\n    ");
  }

  lemma ColumnListBreaks(first: seq<string>, last: seq<string>)
    ensures ColumnList(first, last) != "" && ColumnList(first, last)[0] == '\n'
  {
  }

  function SetTokens(columns: seq<string>): seq<seq<Token>> {
    seq(|columns|, i requires 0 <= i < |columns| => [Word(columns[i]), Sym('='), Word("EXCLUDED." + columns[i])])
  }

  lemma SpelledUpdate(c: string)
    requires IsName(c)
    ensures Spelled([Raw("    " + Line([c, "=", "EXCLUDED." + c]))]) == [Word(c), Sym('='), Word("EXCLUDED." + c)]
  {
    hide Spelled;
    Marks();
    ConflictWords();
    var e := "EXCLUDED." + c;
    SpelledName(c);
    SpelledName(e);
    SpelledBlankMark(" ", '=', " ");
    assert " " + "=" + " " == " = ";
    TextConcat(" = ", e);
    TextConcat(c, " = " + e);
    BlanksBefore("    ", c + (" = " + e));
    ThreeInLine(c, "=", e);
    assert c + " = " + e == c + (" = " + e);
  }

  lemma SpelledKey()
    ensures Spelled([Raw("(name)")]) == [Sym('('), Word("name"), Sym(')')]
  {
    hide Spelled;
    Marks();
    SpelledMark('(');
    SpelledMark(')');
    SpelledName("name") by { ColumnWords(); }
    TextConcat("(", "name");
    TextConcat("(" + "name", ")");
    assert "(" + "name" + ")" == "(name)";
  }

  lemma SpelledConflict()
    ensures Spelled([Raw(Line(["ON", "CONFLICT", "(name)", "DO", "UPDATE", "SET"]))])
      == [Word("ON"), Word("CONFLICT"), Sym('('), Word("name"), Sym(')'), Word("DO"), Word("UPDATE"), Word("SET")]
  {
    hide Spelled, Join;
    var words := ["ON", "CONFLICT", "(name)", "DO", "UPDATE", "SET"];
    var items := [[Word("ON")], [Word("CONFLICT")], [Sym('('), Word("name"), Sym(')')], [Word("DO")], [Word("UPDATE")], [Word("SET")]];
    Separators();
    SpelledKey();
    ConflictWords();
    SpelledName("ON");
    SpelledName("CONFLICT");
    SpelledName("DO");
    SpelledName("UPDATE");
    SpelledName("SET");
    SpelledJoin(words, " ", items, []);
  }

  lemma SpelledInsertTail(columns: seq<string>)
    requires columns != [] && forall c | c in columns :: IsName(c)
    ensures Spelled([Raw(InsertTail(columns))])
      == [Sym(')'), Word("ON"), Word("CONFLICT"), Sym('('), Word("name"), Sym(')'), Word("DO"), Word("UPDATE"), Word("SET")]
         + Commas(SetTokens(columns))
  {
    hide Spelled, Join, Joined, Line;
    Marks();
    var line, sets := Line(["ON", "CONFLICT", "(name)", "DO", "UPDATE", "SET"]), Join(Updates(columns), ",\n");
    Separators();
    forall i | 0 <= i < |columns| ensures Spelled([Raw(Updates(columns)[i])]) == SetTokens(columns)[i] {
      assert columns[i] in columns;
      SpelledUpdate(columns[i]);
    }
    SpelledJoin(Updates(columns), ",\n", SetTokens(columns), [Sym(',')]);
    SpelledConflict();
    SpelledBlankMark("\n", ')', "\n");
    assert "\n" + ")" + "\n" == "\n)\n";
    BlanksBefore("\n", sets);
    TextConcat(line, "\n" + sets);
    TextConcat("\n)\n", line + ("\n" + sets));
    assert InsertTail(columns) == "\n)\n" + (line + ("\n" + sets));
    assert Spelled([Raw(InsertTail(columns))]) == [Sym(')')] + (Spelled([Raw(line)]) + Commas(SetTokens(columns)));
  }

  // ---------- Clearing grants ----------

  lemma SpelledOpen(before: string, ts: seq<Token>)
    requires Spelled([Raw(before)]) == ts
    ensures Spelled([Raw(before + " (")]) == ts + [Sym('(')]
  {
    hide Spelled;
    Marks();
    SpelledBlankMark(" ", '(', "");
    assert " " + "(" + "" == " (";
    TextConcat(before, " (");
  }

  lemma SpelledClearHead()
    ensures Spelled([Raw(CLEAR_HEAD)])
      == [Word("DELETE"), Word("FROM"), Word(GRANTS), Word("WHERE"), Word("tool_id"), Word("IN"), Sym('('),
          Word("SELECT"), Word("id"), Word("FROM"), Word(TOOLS), Word("WHERE"), Word("name"), Word("IN"), Sym('(')]
  {
    hide Spelled, Join, TOOLS, GRANTS, Line;
    Marks();
    ClearLines();
    var a, b, c := Line(["DELETE", "FROM", GRANTS]), Line(["WHERE", "tool_id", "IN"]),
      Line(["SELECT", "id", "FROM", TOOLS, "WHERE", "name", "IN"]);
    BlanksBefore("\n", b);
    TextConcat(a, "\n" + b);
    assert a + "\n" + b == a + ("\n" + b);
    SpelledOpen(a + "\n" + b, Spelled([Raw(a)]) + Spelled([Raw(b)]));
    TextConcat(a + "\n" + b + " (", c);
    SpelledOpen(a + "\n" + b + " (" + c, Spelled([Raw(a + "\n" + b + " (" + c)]));
  }

  lemma ClearLines()
    ensures Spelled([Raw(Line(["DELETE", "FROM", GRANTS]))]) == [Word("DELETE"), Word("FROM"), Word(GRANTS)]
    ensures Spelled([Raw(Line(["WHERE", "tool_id", "IN"]))]) == [Word("WHERE"), Word("tool_id"), Word("IN")]
    ensures Spelled([Raw(Line(["SELECT", "id", "FROM", TOOLS, "WHERE", "name", "IN"]))])
      == [Word("SELECT"), Word("id"), Word("FROM"), Word(TOOLS), Word("WHERE"), Word("name"), Word("IN")]
  {
    hide Spelled, Join, TOOLS, GRANTS, NameChars;
    InsertWords();
    ColumnWords();
    SpelledLine(["DELETE", "FROM", GRANTS]);
    SpelledLine(["WHERE", "tool_id", "IN"]);
    SpelledLine(["SELECT", "id", "FROM", TOOLS, "WHERE", "name", "IN"]);
  }

  // ---------- Granting ----------

  lemma GrantParts()
    ensures Spelled([Raw(Line(["INSERT", "INTO", GRANTS]))]) == [Word("INSERT"), Word("INTO"), Word(GRANTS)]
    ensures Spelled([Raw(Join(["tool_id", "role"], ", "))]) == Commas(WordTokens(["tool_id", "role"]))
    ensures Spelled([Raw(Join(["id", "r"], ", "))]) == Commas(WordTokens(["id", "r"]))
    ensures Spelled([Raw(Line(["FROM", TOOLS]))]) == [Word("FROM"), Word(TOOLS)]
  {
    hide Spelled, Join, TOOLS, GRANTS, NameChars, Commas;
    InsertWords();
    ColumnWords();
    Separators();
    SpelledLine(["INSERT", "INTO", GRANTS]);
    SpelledNames(["tool_id", "role"], ", ");
    SpelledNames(["id", "r"], ", ");
    SpelledLine(["FROM", TOOLS]);
  }

  lemma SpelledUnnest()
    ensures Spelled([Raw(", unnest(ARRAY[")]) == [Sym(','), Word("unnest"), Sym('('), Word("ARRAY"), Sym('[')]
  {
    hide Spelled;
    Marks();
    SpelledBlankMark("", ',', " ");
    assert "" + "," + " " == ", ";
    SpelledNameAfter(", ", "unnest", [Sym(',')]) by { ConflictWords(); }
    SpelledMark('(');
    TextConcat(", " + "unnest", "(");
    SpelledNameAfter(", " + "unnest" + "(", "ARRAY", [Sym(','), Word("unnest"), Sym('(')]) by { ConflictWords(); }
    SpelledMark('[');
    TextConcat(", " + "unnest" + "(" + "ARRAY", "[");
    assert ", " + "unnest" + "(" + "ARRAY" + "[" == ", unnest(ARRAY[";
  }

  lemma SpelledSelect()
    ensures Spelled([Raw(")\n" + "SELECT ")]) == [Sym(')'), Word("SELECT")]
  {
    hide Spelled;
    Marks();
    SpelledBlankMark("", ')', "\n");
    assert "" + ")" + "\n" == ")\n";
    SpelledNameAfter(")\n", "SELECT", [Sym(')')]) by { InsertWords(); }
    SpelledBlanks(" ");
    TextConcat(")\n" + "SELECT", " ");
    assert ")\n" + "SELECT" + " " == ")\n" + "SELECT ";
  }

  lemma SpelledGrantHead()
    ensures Spelled([Raw(GRANT_HEAD)])
      == [Word("INSERT"), Word("INTO"), Word(GRANTS), Sym('(')] + Commas(WordTokens(["tool_id", "role"]))
         + [Sym(')'), Word("SELECT")] + Commas(WordTokens(["id", "r"])) + [Word("FROM"), Word(TOOLS)]
         + [Sym(','), Word("unnest"), Sym('('), Word("ARRAY"), Sym('[')]
  {
    hide Spelled, Join, TOOLS, GRANTS, Commas, Line;
    Marks();
    GrantParts();
    SpelledUnnest();
    SpelledSelect();
    var a, b, c, d := Line(["INSERT", "INTO", GRANTS]), Join(["tool_id", "role"], ", "), Join(["id", "r"], ", "), Line(["FROM", TOOLS]);
    SpelledOpen(a, Spelled([Raw(a)]));
    TextConcat(a + " (", b);
    TextConcat(a + " (" + b, ")\n" + "SELECT ");
    var e := a + " (" + b + (")\n" + "SELECT ");
    BlanksBefore(" ", d);
    TextConcat(e, c);
    TextConcat(e + c, " " + d);
    TextConcat(e + c + (" " + d), ", unnest(ARRAY[");
    assert GRANT_HEAD == e + c + (" " + d) + ", unnest(ARRAY[";
  }

  lemma SpelledAlias()
    ensures Spelled([Raw("]) AS r\n")]) == [Sym(']'), Sym(')'), Word("AS"), Word("r")]
  {
    hide Spelled;
    Marks();
    SpelledMark(']');
    SpelledBlankMark("", ')', " ");
    assert "" + ")" + " " == ") ";
    TextConcat("]", ") ");
    SpelledNameAfter("]" + ") ", "AS", [Sym(']'), Sym(')')]) by { ConflictWords(); }
    SpelledName("r") by { ColumnWords(); }
    BlanksBefore(" ", "r");
    TextConcat("]" + ") " + "AS", " " + "r");
    SpelledBlanks("\n");
    TextConcat("]" + ") " + "AS" + (" " + "r"), "\n");
    assert "]" + ") " + "AS" + (" " + "r") + "\n" == "]) AS r\n";
  }

  lemma SpelledEquals()
    ensures Spelled([Raw(Line(["WHERE", TOOLS + ".name", "="]) + " ")]) == [Word("WHERE"), Word(TOOLS + ".name"), Sym('=')]
  {
    hide Spelled, TOOLS;
    Marks();
    InsertWords();
    ColumnWords();
    SpelledLine(["WHERE", TOOLS + ".name"]);
    SpelledBlankMark(" ", '=', " ");
    assert " " + "=" + " " == " = ";
    TextConcat(Line(["WHERE", TOOLS + ".name"]), " = ");
    var n := TOOLS + ".name";
    ThreeInLine("WHERE", n, "=");
    assert "WHERE" + (" " + n + " ") + "=" + " " == "WHERE" + " " + n + " = ";
  }

  lemma SpelledGrantMiddle()
    ensures Spelled([Raw(GRANT_MIDDLE)])
      == [Sym(']'), Sym(')'), Word("AS"), Word("r"), Word("WHERE"), Word(TOOLS + ".name"), Sym('=')]
  {
    hide Spelled, Line, TOOLS;
    Marks();
    SpelledAlias();
    SpelledEquals();
    var line := Line(["WHERE", TOOLS + ".name", "="]);
    TextConcat("]) AS r\n", line + " ");
    assert GRANT_MIDDLE == "]) AS r\n" + (line + " ");
  }

  lemma SpelledGrantTail()
    ensures Spelled([Raw(GRANT_TAIL)]) == [Word("ON"), Word("CONFLICT"), Word("DO"), Word("NOTHING")]
  {
    hide Spelled, Join;
    ConflictWords();
    SpelledLine(["ON", "CONFLICT", "DO", "NOTHING"]);
    BlanksBefore("\n", Line(["ON", "CONFLICT", "DO", "NOTHING"]));
  }
}
