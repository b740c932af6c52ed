/** The tokens of printed text: names, marks and constants, joined lists included. */
module SqlSpelling {
  import opened Prelude
  import opened Text
  import opened SqlLexer
  import opened SqlReader

  // ---------- Feeding pieces ----------

  function FeedPiece(s: Scan, p: Piece): Scan {
    if p.Raw? then FeedText(s, p.text) else FeedConstant(s, p.text)
  }

  function FeedPieces(s: Scan, ps: seq<Piece>): Scan
    decreases |ps|
  {
    if ps == [] then s else FeedPieces(FeedPiece(s, ps[0]), ps[1..])
  }

  /** The tokens of pieces printed side by side. */
  function Spelled(ps: seq<Piece>): seq<Token> {
    FeedPieces(Start, ps).Tokens()
  }

  lemma {:induction false} FeedTextConcat(s: Scan, a: string, b: string)
    ensures FeedText(s, a + b) == FeedText(FeedText(s, a), b)
    decreases |a|
  {
    hide Feed;
    if a == "" {
      assert a + b == b;
    } else {
      assert (a + b)[1..] == a[1..] + b;
      FeedTextConcat(Feed(s, a[0]), a[1..], b);
    }
  }

  lemma {:induction false} FeedPiecesConcat(s: Scan, a: seq<Piece>, b: seq<Piece>)
    ensures FeedPieces(s, a + b) == FeedPieces(FeedPieces(s, a), b)
    decreases |a|
  {
    hide FeedPiece;
    if a == [] {
      assert a + b == b;
    } else {
      assert (a + b)[1..] == a[1..] + b;
      FeedPiecesConcat(FeedPiece(s, a[0]), a[1..], b);
    }
  }

  lemma AddCharFeeds(cur: seq<Segment>, c: char)
    ensures FeedSegments(AddChar(cur, c)) == Feed(FeedSegments(cur), c)
  {
    hide Feed;
    if cur == [] && Space(c) {
      BlankAtStart(c);
    } else if cur != [] && cur[|cur| - 1].Code? {
      var init, t := cur[..|cur| - 1], cur[|cur| - 1].text;
      var next := init + [Code(t + [c])];
      assert next[..|next| - 1] == init;
      FeedTextConcat(FeedSegments(init), t, [c]);
      OneChar(FeedText(FeedSegments(init), t), c);
    } else {
      var next := cur + [Code([c])];
      assert next[..|next| - 1] == cur;
      OneChar(FeedSegments(cur), c);
    }
  }

  lemma BlankAtStart(c: char)
    requires Space(c)
    ensures Feed(Start, c) == Start
  {
  }

  lemma OneChar(s: Scan, c: char)
    ensures FeedText(s, [c]) == Feed(s, c)
  {
    assert [c][1..] == "";
  }

  lemma {:induction false} AddTextFeeds(cur: seq<Segment>, t: string)
    ensures FeedSegments(AddText(cur, t)) == FeedText(FeedSegments(cur), t)
    decreases |t|
  {
    hide Feed, AddChar, FeedSegments;
    if t != "" {
      AddCharFeeds(cur, t[0]);
      AddTextFeeds(AddChar(cur, t[0]), t[1..]);
    }
  }

  /** The splitter keeps the tokens: those of a statement's segments are those of its pieces. */
  lemma {:induction false} EmitFeeds(cur: seq<Segment>, ps: seq<Piece>)
    ensures FeedSegments(EmitAll(cur, ps)) == FeedPieces(FeedSegments(cur), ps)
    decreases |ps|
  {
    hide FeedText, AddText;
    if ps != [] {
      var p, next := ps[0], Emit(cur, ps[0]);
      if p.Raw? {
        AddTextFeeds(cur, p.text);
      } else {
        assert next[..|next| - 1] == cur;
      }
      EmitFeeds(next, ps[1..]);
    }
  }

  // ---------- Pieces side by side ----------

  function Shifted(pre: seq<Token>, s: Scan): Scan {
    Scan(pre + s.done, s.word)
  }

  lemma FeedShifts(pre: seq<Token>, s: Scan, c: char)
    ensures Feed(Shifted(pre, s), c) == Shifted(pre, Feed(s, c))
  {
    assert pre + s.done + [Word(s.word)] + Mark(c) == pre + (s.done + [Word(s.word)] + Mark(c));
    assert pre + s.done + Mark(c) == pre + (s.done + Mark(c));
  }

  lemma {:induction false} TextShifts(pre: seq<Token>, s: Scan, t: string)
    ensures FeedText(Shifted(pre, s), t) == Shifted(pre, FeedText(s, t))
    decreases |t|
  {
    hide Feed, Shifted;
    if t != "" {
      FeedShifts(pre, s, t[0]);
      TextShifts(pre, Feed(s, t[0]), t[1..]);
    }
  }

  lemma ConstantShifts(pre: seq<Token>, s: Scan, value: string)
    ensures FeedConstant(Shifted(pre, s), value) == Shifted(pre, FeedConstant(s, value))
  {
    assert pre + s.done + [Word(s.word)] + [Const(value)] == pre + (s.done + [Word(s.word)] + [Const(value)]);
    assert pre + s.done + [Const(value)] == pre + (s.done + [Const(value)]);
  }

  lemma {:induction false} PiecesShift(pre: seq<Token>, s: Scan, ps: seq<Piece>)
    ensures FeedPieces(Shifted(pre, s), ps) == Shifted(pre, FeedPieces(s, ps))
    decreases |ps|
  {
    hide FeedText, FeedConstant, Shifted;
    if ps != [] {
      if ps[0].Raw? { TextShifts(pre, s, ps[0].text); } else { ConstantShifts(pre, s, ps[0].text); }
      PiecesShift(pre, FeedPiece(s, ps[0]), ps[1..]);
    }
  }

  /** A word before these pieces cannot go on in them. */
  predicate Breaks(ps: seq<Piece>) {
    ps != [] && (ps[0].Raw? ==> ps[0].text != "" && !NameChar(ps[0].text[0]))
  }

  /** No word is open after these pieces. */
  predicate Closed(ps: seq<Piece>) {
    ps != [] && var p := ps[|ps| - 1];
    p.Raw? ==> p.text != "" && !NameChar(p.text[|p.text| - 1])
  }

  lemma {:induction false} TextCloses(s: Scan, t: string)
    requires t != "" && !NameChar(t[|t| - 1])
    ensures FeedText(s, t).word == ""
    decreases |t|
  {
    if |t| == 1 { assert t[1..] == ""; } else { TextCloses(Feed(s, t[0]), t[1..]); }
  }

  lemma {:induction false} PiecesClose(s: Scan, ps: seq<Piece>)
    requires Closed(ps)
    ensures FeedPieces(s, ps).word == ""
    decreases |ps|
  {
    hide FeedText;
    if |ps| == 1 {
      assert ps[1..] == [];
      if ps[0].Raw? { TextCloses(s, ps[0].text); }
    } else {
      PiecesClose(FeedPiece(s, ps[0]), ps[1..]);
    }
  }

  lemma PiecesBreak(s: Scan, ps: seq<Piece>)
    requires Breaks(ps)
    ensures FeedPieces(s, ps) == FeedPieces(Scan(s.Tokens(), ""), ps)
  {
    if ps[0].Raw? { TextBreaks(s, ps[0].text); }
  }

  lemma TextBreaks(s: Scan, t: string)
    requires t != "" && !NameChar(t[0])
    ensures FeedText(s, t) == FeedText(Scan(s.Tokens(), ""), t)
  {
    assert Feed(s, t[0]) == Feed(Scan(s.Tokens(), ""), t[0]);
  }

  /** The tokens of pieces that keep apart are those of each part. */
  lemma SpelledConcat(a: seq<Piece>, b: seq<Piece>)
    requires Closed(a) || Breaks(b)
    ensures Spelled(a + b) == Spelled(a) + Spelled(b)
  {
    hide FeedPieces, Closed, Breaks;
    var r := FeedPieces(Start, a);
    FeedPiecesConcat(Start, a, b);
    if Closed(a) { PiecesClose(Start, a); } else { PiecesBreak(r, b); }
    PiecesShift(r.Tokens(), Start, b);
    assert r.Tokens() + [] == r.Tokens();
    assert FeedPieces(r, b) == Shifted(r.Tokens(), FeedPieces(Start, b));
    ShiftedTokens(r.Tokens(), FeedPieces(Start, b));
  }

  lemma ShiftedTokens(pre: seq<Token>, s: Scan)
    ensures Shifted(pre, s).Tokens() == pre + s.Tokens()
  {
  }

  lemma OnePiece(s: Scan, p: Piece)
    ensures FeedPieces(s, [p]) == FeedPiece(s, p)
  {
    hide FeedPiece;
    var ps := [p];
    assert ps != [] && ps[0] == p && ps[1..] == [];
    assert FeedPieces(FeedPiece(s, p), []) == FeedPiece(s, p);
  }

  lemma SpelledConstant(p: Piece)
    requires !p.Raw?
    ensures Spelled([p]) == [Const(p.text)]
  {
    OnePiece(Start, p);
  }

  /** Program text in two parts that keep apart. */
  lemma TextConcat(a: string, b: string)
    requires (a != "" && !NameChar(a[|a| - 1])) || (b != "" && !NameChar(b[0]))
    ensures Spelled([Raw(a + b)]) == Spelled([Raw(a)]) + Spelled([Raw(b)])
  {
    hide FeedText;
    FeedTextConcat(Start, a, b);
    OnePiece(Start, Raw(a + b));
    OnePiece(Start, Raw(a));
    OnePiece(FeedText(Start, a), Raw(b));
    FeedPiecesConcat(Start, [Raw(a)], [Raw(b)]);
    SpelledConcat([Raw(a)], [Raw(b)]);
  }

  // ---------- Names and phrases ----------

  predicate NameChars(w: string) {
    forall c | c in w :: NameChar(c)
  }

  predicate IsName(w: string) {
    w != "" && NameChars(w)
  }

  lemma {:induction false} FeedName(s: Scan, w: string)
    requires NameChars(w)
    ensures FeedText(s, w) == Scan(s.done, s.word + w)
    decreases |w|
  {
    if w == "" {
      assert s.word + w == s.word;
    } else {
      assert w[0] in w;
      FeedName(Feed(s, w[0]), w[1..]);
      assert s.word + [w[0]] + w[1..] == s.word + w;
    }
  }

  lemma SpelledName(w: string)
    requires IsName(w)
    ensures Spelled([Raw(w)]) == [Word(w)]
  {
    hide FeedText;
    FeedName(Start, w);
    OnePiece(Start, Raw(w));
    assert "" + w == w;
  }

  lemma SpelledMark(c: char)
    requires !NameChar(c)
    ensures Spelled([Raw([c])]) == Mark(c)
  {
    OnePiece(Start, Raw([c]));
    OneChar(Start, c);
  }

  lemma {:induction false} FeedBlanks(s: Scan, t: string)
    requires s.word == "" && forall c | c in t :: Space(c)
    ensures FeedText(s, t) == s
    decreases |t|
  {
    if t != "" {
      assert t[0] in t;
      assert s.done + Mark(t[0]) == s.done;
      FeedBlanks(s, t[1..]);
    }
  }

  lemma SpelledBlanks(t: string)
    requires forall c | c in t :: Space(c)
    ensures Spelled([Raw(t)]) == []
  {
    hide FeedText;
    FeedBlanks(Start, t);
    OnePiece(Start, Raw(t));
  }

  lemma BlanksAfter(t: string, blanks: string)
    requires t != "" && !NameChar(t[|t| - 1]) && forall c | c in blanks :: Space(c)
    ensures Spelled([Raw(t + blanks)]) == Spelled([Raw(t)])
  {
    hide Spelled;
    SpelledBlanks(blanks);
    TextConcat(t, blanks);
  }

  lemma BlanksBefore(blanks: string, t: string)
    requires blanks != "" && forall c | c in blanks :: Space(c)
    ensures Spelled([Raw(blanks + t)]) == Spelled([Raw(t)])
  {
    hide Spelled;
    SpelledBlanks(blanks);
    assert blanks[|blanks| - 1] in blanks;
    TextConcat(blanks, t);
  }

  // ---------- Lists ----------

  /** Items with a mark between each two. */
  function Joined(items: seq<seq<Token>>, mark: seq<Token>): seq<Token> {
    if items == [] then []
    else if |items| == 1 then items[0]
    else items[0] + mark + Joined(items[1..], mark)
  }

  function Commas(items: seq<seq<Token>>): seq<Token> {
    Joined(items, [Sym(',')])
  }

  /** A separator keeps what stands around it apart, and is spelled as the mark. */
  predicate Separates(sep: string, mark: seq<Token>) {
    sep != "" && !NameChar(sep[0]) && !NameChar(sep[|sep| - 1]) && Spelled([Raw(sep)]) == mark
  }

  lemma {:induction false} SpelledJoin(parts: seq<string>, sep: string, items: seq<seq<Token>>, mark: seq<Token>)
    requires Separates(sep, mark) && |parts| == |items| > 0
    requires forall i | 0 <= i < |parts| :: Spelled([Raw(parts[i])]) == items[i]
    ensures Spelled([Raw(Join(parts, sep))]) == Joined(items, mark)
    decreases |parts|
  {
    hide Spelled;
    if |parts| > 1 {
      var later := Join(parts[1..], sep);
      SpelledJoin(parts[1..], sep, items[1..], mark);
      assert parts[0] + sep + later == parts[0] + (sep + later);
      TextConcat(parts[0], sep + later);
      TextConcat(sep, later);
      assert items[0] + (mark + Joined(items[1..], mark)) == items[0] + mark + Joined(items[1..], mark);
    }
  }

  lemma {:induction false} SpelledJoinPieces(parts: seq<seq<Piece>>, sep: string, items: seq<seq<Token>>, mark: seq<Token>)
    requires Separates(sep, mark) && |parts| == |items| > 0
    requires forall i | 0 <= i < |parts| :: Spelled(parts[i]) == items[i]
    ensures Spelled(JoinPieces(parts, sep)) == Joined(items, mark)
    decreases |parts|
  {
    hide Spelled;
    if |parts| > 1 {
      var later := JoinPieces(parts[1..], sep);
      SpelledJoinPieces(parts[1..], sep, items[1..], mark);
      assert parts[0] + [Raw(sep)] + later == parts[0] + ([Raw(sep)] + later);
      SpelledConcat(parts[0], [Raw(sep)] + later);
      SpelledConcat([Raw(sep)], later);
      assert items[0] + (mark + Joined(items[1..], mark)) == items[0] + mark + Joined(items[1..], mark);
    }
  }

  lemma {:induction false} JoinedConcat(a: seq<seq<Token>>, b: seq<seq<Token>>, mark: seq<Token>)
    requires a != [] && b != []
    ensures Joined(a + b, mark) == Joined(a, mark) + mark + Joined(b, mark)
    decreases |a|
  {
    assert (a + b)[0] == a[0] && (a + b)[1..] == a[1..] + b;
    if |a| > 1 {
      JoinedConcat(a[1..], b, mark);
      assert a[0] + mark + (Joined(a[1..], mark) + mark + Joined(b, mark))
        == a[0] + mark + Joined(a[1..], mark) + mark + Joined(b, mark);
    } else {
      assert a[1..] + b == b;
    }
  }

  function WordTokens(names: seq<string>): seq<seq<Token>> {
    seq(|names|, i requires 0 <= i < |names| => [Word(names[i])])
  }

  function ConstTokens(texts: seq<string>): seq<seq<Token>> {
    seq(|texts|, i requires 0 <= i < |texts| => [Const(texts[i])])
  }

  function Words(names: seq<string>): seq<Token> {
    seq(|names|, i requires 0 <= i < |names| => Word(names[i]))
  }

  lemma {:induction false} JoinedWords(names: seq<string>)
    ensures Joined(WordTokens(names), []) == Words(names)
    decreases |names|
  {
    if |names| > 1 {
      JoinedWords(names[1..]);
      assert WordTokens(names)[1..] == WordTokens(names[1..]);
      assert Words(names) == [Word(names[0])] + [] + Words(names[1..]);
    }
  }

  lemma Separators()
    ensures Separates(" ", []) && Separates(", ", [Sym(',')]) && Separates(",\n", [Sym(',')])
    ensures Separates(",\n    ", [Sym(',')]) && Separates(",\n     ", [Sym(',')])
  {
    hide Spelled;
    SpelledMark(' ');
    SpelledMark(',');
    assert "," + " " == ", " && "," + "\n" == ",\n" && "," + "\n    " == ",\n    " && "," + "\n     " == ",\n     ";
    BlanksAfter(",", " ");
    BlanksAfter(",", "\n");
    BlanksAfter(",", "\n    ");
    BlanksAfter(",", "\n     ");
  }

  /** Names with blanks between. */
  lemma SpelledLine(names: seq<string>)
    requires names != [] && forall n | n in names :: IsName(n)
    ensures Spelled([Raw(Join(names, " "))]) == Words(names)
  {
    hide Spelled;
    Separators();
    NamesAreSpelled(names);
    SpelledJoin(names, " ", WordTokens(names), []);
    JoinedWords(names);
  }

  /** Names with commas between. */
  lemma SpelledNames(names: seq<string>, sep: string)
    requires names != [] && (forall n | n in names :: IsName(n)) && Separates(sep, [Sym(',')])
    ensures Spelled([Raw(Join(names, sep))]) == Commas(WordTokens(names))
  {
    hide Spelled;
    NamesAreSpelled(names);
    SpelledJoin(names, sep, WordTokens(names), [Sym(',')]);
  }

  lemma NamesAreSpelled(names: seq<string>)
    requires forall n | n in names :: IsName(n)
    ensures forall i | 0 <= i < |names| :: Spelled([Raw(names[i])]) == WordTokens(names)[i]
  {
    hide Spelled;
    forall i | 0 <= i < |names| ensures Spelled([Raw(names[i])]) == WordTokens(names)[i] {
      assert names[i] in names;
      SpelledName(names[i]);
    }
  }

  // ---------- Lists are read back ----------

  /** Where a list item ends: at the end, a comma, or a closing bracket. */
  predicate Stops(rest: seq<Token>) {
    rest == [] || rest[0] == Sym(',') || rest[0] == Sym(')') || rest[0] == Sym(']') || rest[0] == Word("FROM")
  }

  ghost predicate Reads<T(!new)>(item: seq<Token> -> Reading<T>, x: T, ts: seq<Token>) {
    forall rest | Stops(rest) :: item(ts + rest) == Some((x, rest))
  }

  /** A printed list is read back, item by item. */
  lemma {:induction false} ListIsRead<T(!new)>(item: seq<Token> -> Reading<T>, xs: seq<T>, items: seq<seq<Token>>, rest: seq<Token>)
    requires |xs| == |items| > 0 && forall i | 0 <= i < |xs| :: Reads(item, xs[i], items[i])
    requires Stops(rest) && (rest != [] ==> rest[0] != Sym(','))
    ensures ReadList(item, Commas(items) + rest) == Some((xs, rest))
    decreases |xs|
  {
    assert Reads(item, xs[0], items[0]);
    if |xs| == 1 {
      assert item(items[0] + rest) == Some((xs[0], rest));
      assert xs == [xs[0]];
    } else {
      var later := Commas(items[1..]) + rest;
      var all, tail := Commas(items) + rest, [Sym(',')] + later;
      assert all == items[0] + tail;
      assert item(all) == Some((xs[0], tail));
      assert tail[1..] == later;
      ListIsRead(item, xs[1..], items[1..], rest);
      assert [xs[0]] + xs[1..] == xs;
    }
  }

  lemma NamesAreRead(names: seq<string>, rest: seq<Token>)
    requires names != [] && Stops(rest) && (rest != [] ==> rest[0] != Sym(','))
    ensures ReadList(ReadName, Commas(WordTokens(names)) + rest) == Some((names, rest))
  {
    forall i | 0 <= i < |names| ensures Reads(ReadName, names[i], WordTokens(names)[i]) {
      forall r | Stops(r) ensures ReadName([Word(names[i])] + r) == Some((names[i], r)) {}
    }
    ListIsRead(ReadName, names, WordTokens(names), rest);
  }

  lemma TextsAreRead(texts: seq<string>, rest: seq<Token>)
    requires texts != [] && Stops(rest) && (rest != [] ==> rest[0] != Sym(','))
    ensures ReadList(ReadText, Commas(ConstTokens(texts)) + rest) == Some((texts, rest))
  {
    forall i | 0 <= i < |texts| ensures Reads(ReadText, texts[i], ConstTokens(texts)[i]) {
      forall r | Stops(r) ensures ReadText([Const(texts[i])] + r) == Some((texts[i], r)) {}
    }
    ListIsRead(ReadText, texts, ConstTokens(texts), rest);
  }
}
