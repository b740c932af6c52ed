/** A splitter for the part of PostgreSQL's lexical syntax the importer prints (section 4.1
    of the PostgreSQL documentation): line comments, `'...'` and `$tag$...$tag$` constants,
    `;` between statements. Input that uses anything else is refused. */
module SqlLexer {
  import opened Prelude
  import opened Text
  import opened Quoting

  /** Consecutive parts of one statement: program text, or the value of a string constant. */
  datatype Segment = Code(text: string) | Constant(value: string)

  datatype LexError = Unterminated | Unsupported

  /** The statements that are complete before the end or the first error. */
  datatype Lexed = Lexed(statements: seq<seq<Segment>>, error: Option<LexError>)

  predicate Space(c: char) {
    c == ' ' || c == '\n' || c == '\t' || c == '\r'
  }

  predicate WordChar(c: char) {
    'a' <= c <= 'z' || 'A' <= c <= 'Z' || '0' <= c <= '9' || c == '_' || c == '$' || c >= '\U{80}'
  }

  /** Appends one character of program text; blanks before a statement are dropped. */
  function AddChar(cur: seq<Segment>, c: char): seq<Segment> {
    if cur == [] && Space(c) then []
    else if cur != [] && cur[|cur| - 1].Code? then
      cur[..|cur| - 1] + [Code(cur[|cur| - 1].text + [c])]
    else cur + [Code([c])]
  }

  /** A quote directly after a word would belong to it (`E'...'`, `a$b`). */
  predicate AfterWord(cur: seq<Segment>) {
    cur != [] && var last := cur[|cur| - 1];
    last.Code? && last.text != "" && WordChar(last.text[|last.text| - 1])
  }

  /** The position of the `$` that ends an opening delimiter. */
  function TagEnd(s: string, j: nat): (r: Option<nat>)
    requires 1 <= j <= |s|
    ensures r.Some? ==> j <= r.value < |s|
    decreases |s| - j
  {
    if j == |s| then None
    else if s[j] == '$' then Some(j)
    else if WordChar(s[j]) && !(j == 1 && '0' <= s[j] <= '9') then TagEnd(s, j + 1)
    else None
  }

  function SkipLine(s: string): (r: string)
    ensures |r| <= |s| && (s != "" && s[0] != '\n' ==> |r| < |s|)
  {
    if s == "" || s[0] == '\n' then s else SkipLine(s[1..])
  }

  /** Characters that begin syntax this splitter refuses. */
  predicate Foreign(c: char) {
    c == '"' || c == '\\' || c == '/'
  }

  predicate Special(c: char) {
    c == '\'' || c == ';' || c == '$' || Foreign(c)
  }

  /** The statements of `s`, the first of which has already been read as far as `cur`. */
  function Lex(s: string, cur: seq<Segment>): Lexed
    decreases |s|
  {
    if s == "" then Lexed([], if cur == [] then None else Some(Unterminated))
    else if s[0] == '\'' then
      if AfterWord(cur) then Lexed([], Some(Unsupported)) else
      match ReadQuoted(s[1..]) {
        case None => Lexed([], Some(Unterminated))
        case Some((value, rest)) => Lex(rest, cur + [Constant(value)])
      }
    else if s[0] == '$' then
      if AfterWord(cur) then Lexed([], Some(Unsupported)) else
      match TagEnd(s, 1) {
        case None => Lexed([], Some(Unsupported))
        case Some(e) =>
          match ReadDollarBody(s[e + 1..], s[..e + 1]) {
            case None => Lexed([], Some(Unterminated))
            case Some((value, rest)) => Lex(rest, cur + [Constant(value)])
          }
      }
    else if s[0] == '-' && |s| > 1 && s[1] == '-' then Lex(SkipLine(s), cur)
    else if s[0] == ';' then
      if cur == [] then Lex(s[1..], []) else Prepend(cur, Lex(s[1..], []))
    else if Foreign(s[0]) then Lexed([], Some(Unsupported))
    else Lex(s[1..], AddChar(cur, s[0]))
  }

  function Prepend(first: seq<Segment>, later: Lexed): Lexed {
    Lexed([first] + later.statements, later.error)
  }

  /** The statements of a whole script. */
  function Statements(script: string): Lexed {
    Lex(script, [])
  }

  // ---------- What the printer emits ----------

  datatype Piece = Raw(text: string) | Quoted(text: string) | Dollar(text: string)

  function Print(p: Piece): string {
    match p
    case Raw(t) => t
    case Quoted(t) => "'" + Double(t) + "'"
    case Dollar(t) => DollarQuoted(t)
  }

  function PrintAll(ps: seq<Piece>): string {
    if ps == [] then "" else Print(ps[0]) + PrintAll(ps[1..])
  }

  function AddText(cur: seq<Segment>, t: string): seq<Segment>
    decreases |t|
  {
    if t == "" then cur else AddText(AddChar(cur, t[0]), t[1..])
  }

  /** What the splitter should make of one piece, and of several. */
  function Emit(cur: seq<Segment>, p: Piece): seq<Segment> {
    match p
    case Raw(t) => AddText(cur, t)
    case Quoted(t) => cur + [Constant(t)]
    case Dollar(t) => cur + [Constant(t)]
  }

  function EmitAll(cur: seq<Segment>, ps: seq<Piece>): seq<Segment>
    decreases |ps|
  {
    if ps == [] then cur else EmitAll(Emit(cur, ps[0]), ps[1..])
  }

  /** Program text without quotes, comments or statement ends. */
  predicate Plain(t: string) {
    forall i | 0 <= i < |t| :: PlainAt(t, i)
  }

  predicate PlainAt(t: string, i: nat)
    requires i < |t|
  {
    && !Special(t[i])
    && (t[i] == '-' ==> i + 1 < |t| && t[i + 1] != '-')
  }

  predicate EndsInWord(t: string) {
    t != "" && WordChar(t[|t| - 1])
  }

  /** Pieces that stay apart when printed side by side. */
  predicate Fits(ps: seq<Piece>) {
    forall i | 0 <= i < |ps| :: FitsAt(ps, i)
  }

  predicate FitsAt(ps: seq<Piece>, i: nat)
    requires i < |ps|
  {
    if ps[i].Raw? then ps[i].text != "" && Plain(ps[i].text)
    else
      && (i > 0 ==> ps[i - 1].Raw? && !EndsInWord(ps[i - 1].text))
      && (i + 1 < |ps| ==> ps[i + 1].Raw?)
  }

  predicate AllSurvive(ps: seq<Piece>) {
    forall p | p in ps :: p.Dollar? ==> Survives(p.text)
  }

  lemma PlainConcat(a: string, b: string)
    requires Plain(a) && Plain(b)
    ensures Plain(a + b)
  {
    forall i | 0 <= i < |a + b| ensures PlainAt(a + b, i) {
      if i < |a| { assert PlainAt(a, i); } else { assert PlainAt(b, i - |a|); }
    }
  }

  lemma {:induction false} AddTextEnd(cur: seq<Segment>, t: string)
    requires t != "" && !WordChar(t[|t| - 1])
    ensures !AfterWord(AddText(cur, t))
    decreases |t|
  {
    if |t| == 1 {
      assert t[1..] == "";
    } else {
      AddTextEnd(AddChar(cur, t[0]), t[1..]);
    }
  }

  lemma {:induction false} LexSemicolon(rest: string, cur: seq<Segment>)
    requires cur != []
    ensures Lex(";" + rest, cur) == Prepend(cur, Lex(rest, []))
  {
  }

  lemma {:induction false} LexRaw(t: string, rest: string, cur: seq<Segment>)
    requires Plain(t)
    ensures Lex(t + rest, cur) == Lex(rest, AddText(cur, t))
    decreases |t|
  {
    if t == "" {
      assert t + rest == rest;
    } else {
      var s := t + rest;
      assert PlainAt(t, 0);
      assert s[0] == t[0] && (t[0] == '-' ==> s[1] == t[1]);
      assert s[1..] == t[1..] + rest;
      forall i | 0 <= i < |t[1..]| ensures PlainAt(t[1..], i) { assert PlainAt(t, i + 1); }
      LexRaw(t[1..], rest, AddChar(cur, t[0]));
    }
  }

  lemma LexQuoted(t: string, rest: string, cur: seq<Segment>)
    requires !AfterWord(cur)
    requires rest == "" || rest[0] != '\''
    ensures Lex(Print(Quoted(t)) + rest, cur) == Lex(rest, cur + [Constant(t)])
  {
    hide ReadDollarBody, TagEnd, SkipLine, DollarQuoted, ReadQuoted;
    var s := Print(Quoted(t)) + rest;
    assert s[1..] == Double(t) + "'" + rest;
    QuotedRoundTrip(t, rest);
  }

  lemma {:induction false} TagEndXs(s: string, j: nat, e: nat)
    requires 1 <= j <= e < |s| && s[e] == '$'
    requires forall k | j <= k < e :: s[k] == 'x'
    ensures TagEnd(s, j) == Some(e)
    decreases e - j
  {
    if j < e { TagEndXs(s, j + 1, e); }
  }

  /** What the splitter makes of a dollar-quoted text: all of it, or a cut version. */
  lemma LexDollar(t: string, rest: string, cur: seq<Segment>)
    requires !AfterWord(cur)
    ensures var d := Delimiter(Tag(t));
      Lex(Print(Dollar(t)) + rest, cur)
      == if Survives(t) then Lex(rest, cur + [Constant(t)])
         else Lex(d[1..] + rest, cur + [Constant(t[..|t| + 1 - |d|])])
  {
    var d := Delimiter(Tag(t));
    var s := Print(Dollar(t)) + rest;
    DelimiterShape(FirstFree(t, 0));
    assert s == d + (t + d + rest);
    TagEndXs(s, 1, |d| - 1);
    assert s[..|d|] == d && s[|d|..] == t + d + rest;
    DollarRoundTrip(t, rest);
  }

  /** Pieces that fit and survive are split back into exactly what they were meant to be. */
  lemma {:induction false} LexPieces(ps: seq<Piece>, rest: string, cur: seq<Segment>)
    requires Fits(ps) && AllSurvive(ps)
    requires ps != [] && !ps[0].Raw? ==> !AfterWord(cur)
    requires rest == "" || rest[0] != '\''
    ensures Lex(PrintAll(ps) + rest, cur) == Lex(rest, EmitAll(cur, ps))
  {
    if ps == [] {
      assert PrintAll(ps) + rest == rest;
    } else {
      var p, later := ps[0], PrintAll(ps[1..]) + rest;
      assert PrintAll(ps) + rest == Print(p) + later;
      FitsTail(ps);
      assert FitsAt(ps, 0) && p in ps;
      if p.Raw? {
        LexRaw(p.text, later, cur);
        if |ps| > 1 && !ps[1].Raw? {
          assert FitsAt(ps, 1);
          AddTextEnd(cur, p.text);
        }
      } else {
        StartOf(ps[1..], rest);
        if p.Quoted? { LexQuoted(p.text, later, cur); } else { LexDollar(p.text, later, cur); }
      }
      LexPieces(ps[1..], rest, Emit(cur, p));
    }
  }

  lemma FitsTail(ps: seq<Piece>)
    requires Fits(ps) && ps != []
    ensures Fits(ps[1..])
  {
    forall i | 0 <= i < |ps[1..]| ensures FitsAt(ps[1..], i) { assert FitsAt(ps, i + 1); }
  }

  lemma StartOf(ps: seq<Piece>, rest: string)
    requires ps != [] ==> ps[0].Raw? && FitsAt(ps, 0)
    requires rest == "" || rest[0] != '\''
    ensures var s := PrintAll(ps) + rest; s == "" || s[0] != '\''
  {
    if ps != [] {
      assert PlainAt(ps[0].text, 0);
      assert PrintAll(ps)[0] == ps[0].text[0];
    }
  }

  lemma FitsConcat(a: seq<Piece>, b: seq<Piece>)
    requires Fits(a) && Fits(b)
    requires a != [] && b != [] ==> Joins(a[|a| - 1], b[0])
    ensures Fits(a + b)
  {
    forall i | 0 <= i < |a + b| ensures FitsAt(a + b, i) {
      if i < |a| { assert FitsAt(a, i); } else { assert FitsAt(b, i - |a|); }
    }
  }

  predicate Joins(p: Piece, q: Piece) {
    && (p.Raw? || q.Raw?)
    && (p.Raw? && !q.Raw? ==> !EndsInWord(p.text))
  }

  // ---------- Joined lists ----------

  function JoinPieces(items: seq<seq<Piece>>, sep: string): seq<Piece> {
    if items == [] then []
    else if |items| == 1 then items[0]
    else items[0] + [Raw(sep)] + JoinPieces(items[1..], sep)
  }

  /** A literal: pieces that fit, the last or first of which may be a constant. */
  predicate Literal(ps: seq<Piece>) {
    ps != [] && Fits(ps)
  }

  lemma {:induction false} JoinFits(items: seq<seq<Piece>>, sep: string)
    requires items != [] && forall ps | ps in items :: Literal(ps)
    requires sep != "" && Plain(sep) && !EndsInWord(sep)
    ensures Literal(JoinPieces(items, sep))
  {
    assert items[0] in items;
    if |items| > 1 {
      forall ps | ps in items[1..] ensures Literal(ps) { assert ps in items; }
      JoinFits(items[1..], sep);
      assert FitsAt([Raw(sep)], 0);
      FitsConcat(items[0], [Raw(sep)]);
      FitsConcat(items[0] + [Raw(sep)], JoinPieces(items[1..], sep));
    }
  }

  lemma EnclosedFits(head: string, ps: seq<Piece>, tail: string)
    requires head != "" && Plain(head) && !EndsInWord(head)
    requires tail != "" && Plain(tail)
    requires Literal(ps)
    ensures Literal([Raw(head)] + ps + [Raw(tail)])
  {
    assert FitsAt([Raw(head)], 0) && FitsAt([Raw(tail)], 0);
    FitsConcat([Raw(head)], ps);
    FitsConcat([Raw(head)] + ps, [Raw(tail)]);
  }

  // ---------- Pieces side by side ----------

  lemma {:induction false} EmitAllConcat(cur: seq<Segment>, a: seq<Piece>, b: seq<Piece>)
    ensures EmitAll(cur, a + b) == EmitAll(EmitAll(cur, a), b)
    decreases |a|
  {
    if a == [] {
      assert a + b == b;
    } else {
      assert (a + b)[0] == a[0] && (a + b)[1..] == a[1..] + b;
      EmitAllConcat(Emit(cur, a[0]), a[1..], b);
    }
  }

  lemma {:induction false} PrintAllConcat(a: seq<Piece>, b: seq<Piece>)
    ensures PrintAll(a + b) == PrintAll(a) + PrintAll(b)
  {
    if a == [] {
      assert a + b == b;
    } else {
      assert (a + b)[0] == a[0] && (a + b)[1..] == a[1..] + b;
      PrintAllConcat(a[1..], b);
    }
  }

  lemma {:induction false} AddTextNonEmpty(cur: seq<Segment>, t: string)
    requires cur != [] || (t != "" && !Space(t[0]))
    ensures AddText(cur, t) != []
    decreases |t|
  {
    if t != "" { AddTextNonEmpty(AddChar(cur, t[0]), t[1..]); }
  }

  lemma {:induction false} EmitAllNonEmpty(cur: seq<Segment>, ps: seq<Piece>)
    requires cur != [] || (ps != [] && ps[0].Raw? && ps[0].text != "" && !Space(ps[0].text[0]))
    ensures EmitAll(cur, ps) != []
    decreases |ps|
  {
    if ps != [] {
      if ps[0].Raw? { AddTextNonEmpty(cur, ps[0].text); }
      EmitAllNonEmpty(Emit(cur, ps[0]), ps[1..]);
    }
  }

  // ---------- Cut constants ----------

  lemma PrintAround(pre: seq<Piece>, p: Piece, post: seq<Piece>, rest: string)
    ensures PrintAll(pre + [p] + post) + rest == PrintAll(pre) + (Print(p) + (PrintAll(post) + rest))
  {
    var mid := [p] + post;
    assert pre + [p] + post == pre + mid;
    PrintAllConcat(pre, mid);
    assert mid[0] == p && mid[1..] == post;
    Regroup(PrintAll(pre), Print(p), PrintAll(post), rest);
  }

  lemma Regroup(a: string, b: string, c: string, d: string)
    ensures (a + (b + c)) + d == a + (b + (c + d))
  {
  }

  lemma {:induction false} XsCons(n: nat)
    requires n > 0
    ensures Xs(n) == "x" + Xs(n - 1)
  {
    if n > 1 { XsCons(n - 1); }
  }

  /** What is left of a closing delimiter is refused before any text that cannot continue a tag. */
  lemma {:induction false} StrayDollar(n: nat, later: string, cur: seq<Segment>)
    requires later != "" && !WordChar(later[0])
    ensures Lex(Xs(n) + "$" + later, cur) == Lexed([], Some(Unsupported))
  {
    var s := Xs(n) + "$" + later;
    if n == 0 {
      assert s[0] == '$' && s[1] == later[0];
    } else {
      XsCons(n);
      assert s[1..] == Xs(n - 1) + "$" + later;
      StrayDollar(n - 1, later, AddChar(cur, 'x'));
    }
  }

  /** After a text that does not survive the splitter reads no further statement, unless what
      follows could continue a tag. */
  lemma CutTextIsRefused(text: string, later: string, cur: seq<Segment>)
    requires !Survives(text) && !AfterWord(cur) && later != "" && !WordChar(later[0])
    ensures Lex(Print(Dollar(text)) + later, cur) == Lexed([], Some(Unsupported))
  {
    var n := FirstFree(text, 0);
    var d := Delimiter(Candidate(n));
    LexDollar(text, later, cur);
    assert d[1..] == Candidate(n) + "$";
    StrayDollar(if n == 0 then 0 else n + 1, later, cur + [Constant(text[..|text| + 1 - |d|])]);
  }

  lemma EmitEnd(pre: seq<Piece>)
    requires pre != [] && pre[|pre| - 1].Raw?
    requires pre[|pre| - 1].text != "" && !EndsInWord(pre[|pre| - 1].text)
    ensures !AfterWord(EmitAll([], pre))
  {
    var init, last := pre[..|pre| - 1], pre[|pre| - 1];
    assert pre == init + [last];
    EmitAllConcat([], init, [last]);
    var cur := EmitAll([], init);
    assert EmitAll(cur, [last]) == EmitAll(Emit(cur, last), []);
    AddTextEnd(cur, last.text);
  }
}
