/** When a path template keeps all its renderings off the blocklist. The importer checks the
    template; the request goes to a rendering. */
module BlockedPaths {
  import opened Prelude
  import opened Json
  import opened Text
  import opened Percent
  import opened PathTemplate
  import opened PathArguments
  import opened ImportSpec

  // ---------- Lower case ----------

  predicate Ascii(s: string) {
    forall c | c in s :: c < '\U{80}'
  }

  function LowerLetter(c: char): char {
    if 'A' <= c <= 'Z' then c + ' ' else c
  }

  function UpperLetter(c: char): char {
    if 'a' <= c <= 'z' then c - ' ' else c
  }

  type CharLower = char -> string

  function Lowered(low: CharLower, s: string): string {
    if s == "" then "" else low(s[0]) + Lowered(low, s[1..])
  }

  ghost predicate LowersAscii(low: CharLower) {
    forall c | c < '\U{80}' :: low(c) == [LowerLetter(c)]
  }

  /** `lower` goes character by character, with ASCII letters as expected, as far as ASCII texts
      can be found in its result. (Where Python looks at neighbours, the result is not ASCII.) */
  ghost predicate LowersLike(py: Python, low: CharLower) {
    && LowersAscii(low)
    && (forall s, e | Ascii(e) :: Contains(py.lower(s), e) <==> Contains(Lowered(low, s), e))
    && (forall s, e | Ascii(e) :: StartsWith(py.lower(s), e) <==> StartsWith(Lowered(low, s), e))
  }

  lemma {:induction false} LoweredConcat(low: CharLower, a: string, b: string)
    ensures Lowered(low, a + b) == Lowered(low, a) + Lowered(low, b)
  {
    if a == "" {
      assert a + b == b;
    } else {
      assert (a + b)[0] == a[0] && (a + b)[1..] == a[1..] + b;
      LoweredConcat(low, a[1..], b);
    }
  }

  /** A character an argument can contribute, once lowered. */
  predicate Fillable(c: char) {
    Unreserved(c) && LowerLetter(c) == c
  }

  predicate Filling(s: string) {
    forall c | c in s :: Fillable(c) || c == '%'
  }

  lemma {:induction false} EncodedIsFilling(low: CharLower, s: string)
    requires LowersAscii(low)
    requires forall c | c in s :: Unreserved(c) || c == '%'
    ensures Filling(Lowered(low, s)) && |Lowered(low, s)| == |s|
  {
    if s != "" {
      assert s[0] in s;
      EncodedIsFilling(low, s[1..]);
    }
  }

  // ---------- Templates as tokens ----------

  /** A lowered literal character, or a placeholder. */
  datatype Token = Letter(c: char) | Hole(name: string)

  function Letters(s: string): seq<Token> {
    seq(|s|, i requires 0 <= i < |s| => Letter(s[i]))
  }

  function PartTokens(low: CharLower, parts: seq<Part>): seq<Token> {
    if parts == [] then []
    else [Hole(parts[0].name)] + (Letters(Lowered(low, parts[0].after)) + PartTokens(low, parts[1..]))
  }

  function Tokens(low: CharLower, before: string, parts: seq<Part>): seq<Token> {
    Letters(Lowered(low, before)) + PartTokens(low, parts)
  }

  function Argument(values: map<string, string>, name: string): string {
    if name in values then values[name] else ""
  }

  /** The lowered text of one token. */
  function Shown(low: CharLower, t: Token, values: map<string, string>): string {
    match t
    case Letter(c) => [c]
    case Hole(name) => Lowered(low, Quote(Argument(values, name)))
  }

  function Expand(low: CharLower, tokens: seq<Token>, values: map<string, string>): string {
    if tokens == [] then "" else Shown(low, tokens[0], values) + Expand(low, tokens[1..], values)
  }

  lemma {:induction false} ExpandConcat(low: CharLower, a: seq<Token>, b: seq<Token>, values: map<string, string>)
    ensures Expand(low, a + b, values) == Expand(low, a, values) + Expand(low, b, values)
  {
    if a == [] {
      assert a + b == b;
    } else {
      assert (a + b)[0] == a[0] && (a + b)[1..] == a[1..] + b;
      ExpandConcat(low, a[1..], b, values);
    }
  }

  lemma {:induction false} ExpandLetters(low: CharLower, s: string, values: map<string, string>)
    ensures Expand(low, Letters(s), values) == s
  {
    if s != "" {
      assert Letters(s)[1..] == Letters(s[1..]);
      ExpandLetters(low, s[1..], values);
    }
  }

  lemma {:induction false} PartsExpand(low: CharLower, parts: seq<Part>, values: map<string, string>)
    requires Covers(values, parts)
    ensures Lowered(low, PathText(parts, values)) == Expand(low, PartTokens(low, parts), values)
  {
    if parts != [] {
      hide Quote;
      PathCons(parts, values);
      var x, y, rest := Quote(values[parts[0].name]), parts[0].after, PathText(parts[1..], values);
      PartsExpand(low, parts[1..], values);
      LoweredConcat(low, x, y + rest);
      LoweredConcat(low, y, rest);
      var more := Letters(Lowered(low, y)) + PartTokens(low, parts[1..]);
      ExpandConcat(low, Letters(Lowered(low, y)), PartTokens(low, parts[1..]), values);
      ExpandLetters(low, Lowered(low, y), values);
      var all := PartTokens(low, parts);
      assert all[0] == Hole(parts[0].name) && all[1..] == more;
    }
  }

  /** The lowered path of a template is the expansion of its tokens. */
  lemma PathExpands(low: CharLower, before: string, parts: seq<Part>, values: map<string, string>)
    requires Covers(values, parts)
    ensures Lowered(low, before + PathText(parts, values)) == Expand(low, Tokens(low, before, parts), values)
  {
    LoweredConcat(low, before, PathText(parts, values));
    PartsExpand(low, parts, values);
    ExpandConcat(low, Letters(Lowered(low, before)), PartTokens(low, parts), values);
    ExpandLetters(low, Lowered(low, before), values);
  }

  // ---------- Matching a blocked text against a template ----------

  /** The text matches the tokens from their start, where a placeholder stands for any run of
      characters an argument can contribute. */
  predicate Matches(e: string, tokens: seq<Token>)
    decreases |tokens|, |e|
  {
    if e == "" then true
    else if tokens == [] then false
    else match tokens[0]
      case Letter(c) => e[0] == c && Matches(e[1..], tokens[1..])
      case Hole(_) => Matches(e, tokens[1..]) || (Fillable(e[0]) && Matches(e[1..], tokens))
  }

  /** The same, with some placeholder standing for at least one character. */
  predicate Consumes(e: string, tokens: seq<Token>)
    decreases |tokens|
  {
    if e == "" || tokens == [] then false
    else match tokens[0]
      case Letter(c) => e[0] == c && Consumes(e[1..], tokens[1..])
      case Hole(_) => Consumes(e, tokens[1..]) || (Fillable(e[0]) && Matches(e[1..], tokens))
  }

  /** What follows the text when all placeholders before its end are empty. */
  function Skips(e: string, tokens: seq<Token>): Option<seq<Token>>
    decreases |tokens|
  {
    if e == "" then Some(tokens)
    else if tokens == [] then None
    else match tokens[0]
      case Letter(c) => if e[0] == c then Skips(e[1..], tokens[1..]) else None
      case Hole(_) => Skips(e, tokens[1..])
  }

  predicate NoPercent(e: string) {
    '%' !in e
  }

  lemma {:induction false} PrefixMatches(low: CharLower, e: string, tokens: seq<Token>, values: map<string, string>)
    requires LowersAscii(low)
    requires NoPercent(e) && e <= Expand(low, tokens, values)
    ensures Matches(e, tokens)
    decreases |tokens|, 0
  {
    hide Fillable, Quote, Lowered, Unreserved;
    if e != "" && tokens != [] {
      var rest := Expand(low, tokens[1..], values);
      match tokens[0] {
        case Letter(c) =>
          assert e[1..] <= rest;
          PrefixMatches(low, e[1..], tokens[1..], values);
        case Hole(name) =>
          QuoteIsOneSegment(Argument(values, name));
          EncodedIsFilling(low, Quote(Argument(values, name)));
          InsideHole(low, e, tokens, values, Shown(low, tokens[0], values));
      }
    }
  }

  /** A text that begins inside a placeholder. */
  lemma {:induction false} InsideHole(low: CharLower, e: string, tokens: seq<Token>, values: map<string, string>, h: string)
    requires LowersAscii(low)
    requires tokens != [] && tokens[0].Hole? && Filling(h)
    requires NoPercent(e) && e <= h + Expand(low, tokens[1..], values)
    ensures Matches(e, tokens)
    decreases |tokens|, 0, |h|
  {
    hide Expand;
    if h == "" {
      assert h + Expand(low, tokens[1..], values) == Expand(low, tokens[1..], values);
      PrefixMatches(low, e, tokens[1..], values);
    } else if e != "" {
      assert h[0] in h && e[0] == h[0] && e[0] in e;
      assert (h + Expand(low, tokens[1..], values))[1..] == h[1..] + Expand(low, tokens[1..], values);
      InsideHole(low, e[1..], tokens, values, h[1..]);
    }
  }

  /** The text matches from some token on. */
  predicate Occurs(e: string, tokens: seq<Token>) {
    exists i | 0 <= i <= |tokens| :: Matches(e, tokens[i..])
  }

  /** A text that begins within what the first token shows. */
  lemma FirstTokenMatches(low: CharLower, e: string, tokens: seq<Token>, values: map<string, string>, p: nat)
    requires LowersAscii(low)
    requires NoPercent(e) && tokens != [] && p < |Shown(low, tokens[0], values)|
    requires MatchAt(Expand(low, tokens, values), e, p)
    ensures Matches(e, tokens)
  {
    hide Matches, Quote, Unreserved;
    var all, h, rest := Expand(low, tokens, values), Shown(low, tokens[0], values), Expand(low, tokens[1..], values);
    assert all[p..] == h[p..] + rest && e <= all[p..];
    if tokens[0].Hole? {
      QuoteIsOneSegment(Argument(values, tokens[0].name));
      EncodedIsFilling(low, Quote(Argument(values, tokens[0].name)));
      InsideHole(low, e, tokens, values, h[p..]);
    } else {
      PrefixMatches(low, e, tokens, values);
    }
  }

  lemma LaterOccurs(e: string, tokens: seq<Token>)
    requires tokens != [] && Occurs(e, tokens[1..])
    ensures Occurs(e, tokens)
  {
    hide Matches;
    var i :| 0 <= i <= |tokens[1..]| && Matches(e, tokens[1..][i..]);
    assert tokens[i + 1..] == tokens[1..][i..];
  }

  lemma {:induction false} OccurrenceMatches(low: CharLower, e: string, tokens: seq<Token>, values: map<string, string>, p: nat)
    requires LowersAscii(low)
    requires NoPercent(e) && MatchAt(Expand(low, tokens, values), e, p)
    ensures Occurs(e, tokens)
  {
    hide Matches, Shown;
    assert tokens[0..] == tokens;
    if tokens == [] {
      assert e == "";
      assert Matches(e, tokens) by { EmptyMatches(tokens); }
    } else if p < |Shown(low, tokens[0], values)| {
      FirstTokenMatches(low, e, tokens, values, p);
    } else {
      var all, n, rest := Expand(low, tokens, values), |Shown(low, tokens[0], values)|, Expand(low, tokens[1..], values);
      assert all[p..p + |e|] == rest[p - n..p - n + |e|];
      OccurrenceMatches(low, e, tokens[1..], values, p - n);
      LaterOccurs(e, tokens);
    }
  }

  lemma EmptyMatches(tokens: seq<Token>)
    ensures Matches("", tokens)
  {
  }

  // ---------- Arguments that complete a match ----------

  ghost predicate DistinctHoles(tokens: seq<Token>) {
    forall i, j | 0 <= i < j < |tokens| && tokens[i].Hole? && tokens[j].Hole? :: tokens[i].name != tokens[j].name
  }

  /** Arguments by which the placeholders contribute their share, in upper case. */
  function Fill(e: string, tokens: seq<Token>): map<string, string>
    decreases |tokens|, |e|
  {
    if e == "" || tokens == [] then map[]
    else match tokens[0]
      case Letter(c) => Fill(e[1..], tokens[1..])
      case Hole(name) =>
        if Matches(e, tokens[1..]) then Fill(e, tokens[1..])
        else
          var f := Fill(e[1..], tokens);
          f[name := [UpperLetter(e[0])] + Argument(f, name)]
  }

  lemma {:induction false} FillsHoles(e: string, tokens: seq<Token>)
    ensures forall n | n in Fill(e, tokens) :: Hole(n) in tokens
    decreases |tokens|, |e|
  {
    if e != "" && tokens != [] {
      match tokens[0] {
        case Letter(c) => FillsHoles(e[1..], tokens[1..]);
        case Hole(name) =>
          if Matches(e, tokens[1..]) {
            FillsHoles(e, tokens[1..]);
          } else {
            FillsHoles(e[1..], tokens);
            assert tokens[0] in tokens;
          }
      }
    }
  }

  /** Arguments of names that do not occur do not matter. */
  lemma {:induction false} ExpandAgrees(low: CharLower, tokens: seq<Token>, a: map<string, string>, b: map<string, string>)
    requires forall n | Hole(n) in tokens :: Argument(a, n) == Argument(b, n)
    ensures Expand(low, tokens, a) == Expand(low, tokens, b)
  {
    hide Quote, Lowered;
    if tokens != [] {
      assert tokens == [tokens[0]] + tokens[1..];
      ExpandAgrees(low, tokens[1..], a, b);
    }
  }

  lemma FirstHole(tokens: seq<Token>, name: string)
    requires DistinctHoles(tokens) && tokens != [] && tokens[0] == Hole(name)
    ensures Hole(name) !in tokens[1..] && DistinctHoles(tokens[1..])
  {
  }

  lemma UpperIsLowered(low: CharLower, c: char, s: string)
    requires LowersAscii(low)
    requires Fillable(c)
    ensures Unreserved(UpperLetter(c))
    ensures Lowered(low, Quote([UpperLetter(c)] + s)) == [c] + Lowered(low, Quote(s))
  {
    var u := [UpperLetter(c)] + s;
    assert u[1..] == s && Quote(u) == [UpperLetter(c)] + Quote(s);
    LoweredConcat(low, [UpperLetter(c)], Quote(s));
    var one := [UpperLetter(c)];
    assert one[1..] == "" && low(one[0]) == [c];
    assert Lowered(low, one) == [c] + "";
  }

  /** One more character for the first placeholder. */
  lemma HoleTakes(low: CharLower, c: char, tokens: seq<Token>, g: map<string, string>)
    requires LowersAscii(low)
    requires Fillable(c) && DistinctHoles(tokens) && tokens != [] && tokens[0].Hole?
    ensures var name := tokens[0].name; var f := g[name := [UpperLetter(c)] + Argument(g, name)];
      Expand(low, tokens, f) == [c] + Expand(low, tokens, g)
  {
    hide Quote, Fillable, Lowered, UpperLetter;
    var name := tokens[0].name;
    var f := g[name := [UpperLetter(c)] + Argument(g, name)];
    FirstHole(tokens, name);
    UpperIsLowered(low, c, Argument(g, name));
    ExpandAgrees(low, tokens[1..], f, g);
    var h, rest := Lowered(low, Quote(Argument(g, name))), Expand(low, tokens[1..], g);
    assert ([c] + h) + rest == [c] + (h + rest);
  }

  lemma LetterShows(low: CharLower, tokens: seq<Token>, f: map<string, string>)
    requires tokens != [] && tokens[0].Letter?
    ensures Expand(low, tokens, f) == [tokens[0].c] + Expand(low, tokens[1..], f)
  {
  }

  lemma LaterHoles(tokens: seq<Token>)
    requires DistinctHoles(tokens) && tokens != []
    ensures DistinctHoles(tokens[1..])
  {
  }

  lemma HoleIsEmpty(low: CharLower, tokens: seq<Token>, f: map<string, string>)
    requires tokens != [] && tokens[0].Hole? && tokens[0].name !in f
    ensures Expand(low, tokens, f) == Expand(low, tokens[1..], f)
  {
    assert "" + Expand(low, tokens[1..], f) == Expand(low, tokens[1..], f);
  }

  lemma {:induction false} FillMatches(low: CharLower, e: string, tokens: seq<Token>)
    requires LowersAscii(low)
    requires DistinctHoles(tokens) && Matches(e, tokens)
    ensures e <= Expand(low, tokens, Fill(e, tokens))
    decreases |tokens|, |e|
  {
    hide Expand, Shown, Fillable, UpperLetter, Argument, DistinctHoles;
    if e != "" {
      assert e == [e[0]] + e[1..];
      var f := Fill(e, tokens);
      match tokens[0] {
        case Letter(c) =>
          LaterHoles(tokens);
          FillMatches(low, e[1..], tokens[1..]);
          LetterShows(low, tokens, f);
        case Hole(name) =>
          FirstHole(tokens, name);
          if Matches(e, tokens[1..]) {
            FillMatches(low, e, tokens[1..]);
            FillsHoles(e, tokens[1..]);
            HoleIsEmpty(low, tokens, f);
          } else {
            FillMatches(low, e[1..], tokens);
            HoleTakes(low, e[0], tokens, Fill(e[1..], tokens));
          }
      }
    }
  }

  /** Values for all placeholders, empty where nothing is given. */
  function Complete(parts: seq<Part>, f: map<string, string>): map<string, string> {
    map p | p in parts :: p.name := Argument(f, p.name)
  }

  lemma LettersAddNoHoles(s: string, rest: seq<Token>)
    ensures forall n :: Hole(n) in Letters(s) + rest <==> Hole(n) in rest
    ensures DistinctHoles(rest) ==> DistinctHoles(Letters(s) + rest)
  {
    var all := Letters(s) + rest;
    assert forall i | |s| <= i < |all| :: all[i] == rest[i - |s|];
  }

  lemma HoleInFront(name: string, rest: seq<Token>)
    requires DistinctHoles(rest) && Hole(name) !in rest
    ensures DistinctHoles([Hole(name)] + rest)
  {
    var all := [Hole(name)] + rest;
    assert forall i | 1 <= i < |all| :: all[i] == rest[i - 1] && all[i] in rest;
  }

  lemma {:induction false} HolesAreParts(low: CharLower, parts: seq<Part>)
    ensures forall n :: Hole(n) in PartTokens(low, parts) <==> exists p :: p in parts && p.name == n
    ensures DistinctNames(parts) ==> DistinctHoles(PartTokens(low, parts))
  {
    if parts != [] {
      hide DistinctHoles;
      var later := PartTokens(low, parts[1..]);
      var rest := Letters(Lowered(low, parts[0].after)) + later;
      HolesAreParts(low, parts[1..]);
      LettersAddNoHoles(Lowered(low, parts[0].after), later);
      assert parts == [parts[0]] + parts[1..];
      if DistinctNames(parts) {
        LaterNamesDiffer(parts);
        HoleInFront(parts[0].name, rest);
      }
    } else {
      assert PartTokens(low, parts) == [];
    }
  }

  lemma LaterNamesDiffer(parts: seq<Part>)
    requires parts != [] && DistinctNames(parts)
    ensures DistinctNames(parts[1..]) && forall p | p in parts[1..] :: p.name != parts[0].name
  {
    forall p | p in parts[1..] ensures p.name != parts[0].name {
      var k :| 0 <= k < |parts| - 1 && parts[1..][k] == p;
      assert parts[k + 1] == p;
    }
  }

  lemma TokensHoles(low: CharLower, before: string, parts: seq<Part>)
    ensures forall n :: Hole(n) in Tokens(low, before, parts) <==> exists p :: p in parts && p.name == n
    ensures DistinctNames(parts) ==> DistinctHoles(Tokens(low, before, parts))
  {
    HolesAreParts(low, parts);
    LettersAddNoHoles(Lowered(low, before), PartTokens(low, parts));
  }

  lemma CompleteExpands(low: CharLower, before: string, parts: seq<Part>, f: map<string, string>)
    ensures Covers(Complete(parts, f), parts)
    ensures Expand(low, Tokens(low, before, parts), Complete(parts, f)) == Expand(low, Tokens(low, before, parts), f)
  {
    TokensHoles(low, before, parts);
    forall i | 0 <= i < |parts| ensures parts[i].name in Complete(parts, f) {
      assert parts[i] in parts;
    }
    ExpandAgrees(low, Tokens(low, before, parts), Complete(parts, f), f);
  }

  lemma {:induction false} OccursIsReached(low: CharLower, e: string, tokens: seq<Token>, i: nat)
    requires LowersAscii(low)
    requires i <= |tokens| && DistinctHoles(tokens) && Matches(e, tokens[i..])
    ensures Contains(Expand(low, tokens, Fill(e, tokens[i..])), e)
  {
    hide Matches, Fill, Shown;
    var f := Fill(e, tokens[i..]);
    assert DistinctHoles(tokens[i..]) by {
      assert forall k | 0 <= k < |tokens| - i :: tokens[i..][k] == tokens[i + k];
    }
    FillMatches(low, e, tokens[i..]);
    assert tokens == tokens[..i] + tokens[i..];
    ExpandConcat(low, tokens[..i], tokens[i..], f);
    var a, b := Expand(low, tokens[..i], f), Expand(low, tokens[i..], f);
    assert (a + b)[|a|..|a| + |e|] == b[..|e|] == e;
    assert MatchAt(a + b, e, |a|);
  }

  // ---------- The sync rule ----------

  function Blank(parts: seq<Part>): string {
    if parts == [] then "" else parts[0].after + Blank(parts[1..])
  }

  predicate HasHole(tokens: seq<Token>) {
    exists t :: t in tokens && t.Hole?
  }

  /** Some rendering starts like a sync path without being the one that is allowed: a placeholder
      stands for part of the prefix, or one follows it, or the literal text is another path. */
  predicate SyncEscapes(low: CharLower, before: string, parts: seq<Part>) {
    var tokens := Tokens(low, before, parts);
    || Consumes(SYNC_PREFIX, tokens)
    || match Skips(SYNC_PREFIX, tokens)
       case None => false
       case Some(rest) => HasHole(rest) || before + Blank(parts) != SYNC_ALLOWED_PATH
  }

  /** A prefix to which no placeholder contributes leaves those before its end empty. */
  lemma {:induction false} PrefixSkips(low: CharLower, e: string, tokens: seq<Token>, values: map<string, string>)
    requires LowersAscii(low)
    requires NoPercent(e) && e <= Expand(low, tokens, values) && !Consumes(e, tokens)
    ensures Skips(e, tokens).Some?
    ensures forall n | Hole(n) in tokens :: Hole(n) in Skips(e, tokens).value || Argument(values, n) == ""
    decreases |tokens|
  {
    hide Matches, Shown, Expand, Fillable, Argument;
    if e != "" && tokens == [] {
      NothingExpands(low, values);
    } else if e != "" {
      assert tokens == [tokens[0]] + tokens[1..];
      match tokens[0] {
        case Letter(c) =>
          LetterShows(low, tokens, values);
          assert e == [c] + e[1..];
          PrefixSkips(low, e[1..], tokens[1..], values);
        case Hole(name) =>
          UnusedHole(low, e, tokens, values);
          PrefixSkips(low, e, tokens[1..], values);
      }
    }
  }

  lemma NothingExpands(low: CharLower, values: map<string, string>)
    ensures Expand(low, [], values) == ""
  {
  }

  lemma UnusedHole(low: CharLower, e: string, tokens: seq<Token>, values: map<string, string>)
    requires LowersAscii(low)
    requires e != "" && NoPercent(e) && tokens != [] && tokens[0].Hole?
    requires e <= Expand(low, tokens, values) && !Consumes(e, tokens)
    ensures Argument(values, tokens[0].name) == "" && Expand(low, tokens, values) == Expand(low, tokens[1..], values)
  {
    hide Quote, Unreserved;
    var v, rest := Argument(values, tokens[0].name), Expand(low, tokens[1..], values);
    var h := Lowered(low, Quote(v));
    QuoteIsOneSegment(v);
    EncodedIsFilling(low, Quote(v));
    if h == "" {
      QuoteOfEmpty(v);
      assert h + rest == rest;
    } else {
      FirstIsConsumed(low, e, tokens, values, h);
    }
  }

  lemma FirstIsConsumed(low: CharLower, e: string, tokens: seq<Token>, values: map<string, string>, h: string)
    requires LowersAscii(low)
    requires e != "" && h != "" && NoPercent(e) && tokens != [] && tokens[0].Hole? && Filling(h)
    requires e <= h + Expand(low, tokens[1..], values)
    ensures Consumes(e, tokens)
  {
    hide Expand, Matches;
    var rest := Expand(low, tokens[1..], values);
    assert h[0] in h && e[0] == h[0] && e[0] in e;
    assert (h + rest)[1..] == h[1..] + rest && e[1..] <= h[1..] + rest;
    InsideHole(low, e[1..], tokens, values, h[1..]);
  }

  lemma QuoteOfEmpty(v: string)
    requires |Quote(v)| == 0
    ensures v == ""
  {
    QuoteRoundTrip(v);
    QuoteRoundTrip("");
  }

  lemma {:induction false} EmptyPath(parts: seq<Part>, values: map<string, string>)
    requires Covers(values, parts) && forall p | p in parts :: values[p.name] == ""
    ensures PathText(parts, values) == Blank(parts)
  {
    if parts != [] {
      PathCons(parts, values);
      assert parts == [parts[0]] + parts[1..];
      EmptyPath(parts[1..], values);
      assert Quote("") == "";
    }
  }

  /** Arguments that contribute to the text, at least one of them. */
  function FillSome(e: string, tokens: seq<Token>): map<string, string>
    decreases |tokens|
  {
    if e == "" || tokens == [] then map[]
    else match tokens[0]
      case Letter(c) => FillSome(e[1..], tokens[1..])
      case Hole(name) =>
        if Consumes(e, tokens[1..]) then FillSome(e, tokens[1..])
        else
          var f := Fill(e[1..], tokens);
          f[name := [UpperLetter(e[0])] + Argument(f, name)]
  }

  ghost predicate GivesUpper(e: string, f: map<string, string>, name: string) {
    name in f && f[name] != "" && exists i | 0 <= i < |e| :: Fillable(e[i]) && f[name][0] == UpperLetter(e[i])
  }

  lemma {:induction false} FillSomeMatches(low: CharLower, e: string, tokens: seq<Token>) returns (name: string)
    requires LowersAscii(low)
    requires DistinctHoles(tokens) && Consumes(e, tokens)
    ensures e <= Expand(low, tokens, FillSome(e, tokens))
    ensures Hole(name) in tokens && GivesUpper(e, FillSome(e, tokens), name)
    ensures forall n | n in FillSome(e, tokens) :: Hole(n) in tokens
    decreases |tokens|
  {
    hide Expand, Shown, Fillable, UpperLetter, Argument, DistinctHoles, Matches, Fill;
    var f := FillSome(e, tokens);
    assert tokens == [tokens[0]] + tokens[1..] && e == [e[0]] + e[1..];
    match tokens[0] {
      case Letter(c) =>
        LaterHoles(tokens);
        name := FillSomeMatches(low, e[1..], tokens[1..]);
        LetterShows(low, tokens, f);
        var i :| 0 <= i < |e[1..]| && Fillable(e[1..][i]) && f[name][0] == UpperLetter(e[1..][i]);
        assert e[i + 1] == e[1..][i];
      case Hole(hole) =>
        FirstHole(tokens, hole);
        if Consumes(e, tokens[1..]) {
          name := FillSomeMatches(low, e, tokens[1..]);
          HoleIsEmpty(low, tokens, f);
        } else {
          name := hole;
          var g := Fill(e[1..], tokens);
          FillMatches(low, e[1..], tokens);
          FillsHoles(e[1..], tokens);
          HoleTakes(low, e[0], tokens, g);
        }
    }
  }

  /** An argument's text is in the path. */
  lemma {:induction false} ArgumentInPath(parts: seq<Part>, values: map<string, string>, p: Part, c: char)
    requires Covers(values, parts) && p in parts && p.name in values && c in Quote(values[p.name])
    ensures c in PathText(parts, values)
  {
    PathCons(parts, values);
    if p != parts[0] {
      assert parts == [parts[0]] + parts[1..];
      ArgumentInPath(parts[1..], values, p, c);
    }
  }

  lemma {:induction false} RestIsLater(e: string, tokens: seq<Token>, t: Token)
    requires Skips(e, tokens).Some? && t in Skips(e, tokens).value
    ensures t in tokens
    decreases |tokens|
  {
    if e != "" {
      assert tokens == [tokens[0]] + tokens[1..];
      RestIsLater(if tokens[0].Letter? then e[1..] else e, tokens[1..], t);
    }
  }

  /** Arguments for later placeholders leave the prefix as it is. */
  lemma {:induction false} SkipsExpands(low: CharLower, e: string, tokens: seq<Token>, f: map<string, string>)
    requires DistinctHoles(tokens) && Skips(e, tokens).Some?
    requires forall n | n in f :: Hole(n) in Skips(e, tokens).value
    ensures e <= Expand(low, tokens, f)
    decreases |tokens|
  {
    hide Expand, Shown, DistinctHoles;
    if e != "" {
      assert e == [e[0]] + e[1..];
      LaterHoles(tokens);
      if tokens[0].Letter? {
        LetterShows(low, tokens, f);
        SkipsExpands(low, e[1..], tokens[1..], f);
      } else {
        var name := tokens[0].name;
        FirstHole(tokens, name);
        if name in f { RestIsLater(e, tokens[1..], Hole(name)); }
        HoleIsEmpty(low, tokens, f);
        SkipsExpands(low, e, tokens[1..], f);
      }
    }
  }

  lemma {:induction false} PathIsLonger(parts: seq<Part>, values: map<string, string>, name: string)
    requires Covers(values, parts)
    ensures |PathText(parts, values)| >= |Blank(parts)|
    ensures (exists p :: p in parts && p.name == name) && name in values && values[name] == "a" ==>
      |PathText(parts, values)| > |Blank(parts)|
  {
    if parts != [] {
      PathCons(parts, values);
      assert parts == [parts[0]] + parts[1..];
      PathIsLonger(parts[1..], values, name);
      QuoteKeepsUnreserved("a");
    }
  }

  // ---------- The exact condition ----------

  /** Every rendering passes the check the template passed. */
  ghost predicate AlwaysAllowed(py: Python, w: WordClass, before: string, parts: seq<Part>) {
    forall values: map<string, string> | Covers(values, parts) ::
      match Render(w, Template(before, parts), values)
      case Ok(path) => PathAllowed(py, path)
      case Err(_) => true
  }

  /** Some blocked text matches the template, or the sync rule can be escaped. */
  predicate CanBeBlocked(low: CharLower, before: string, parts: seq<Part>) {
    || (exists k | 0 <= k < |PATH_BLOCKLIST| :: Occurs(PATH_BLOCKLIST[k], Tokens(low, before, parts)))
    || SyncEscapes(low, before, parts)
  }

  /** Lower-case letters, hyphens and slashes. */
  predicate BlockedLetters(e: string) {
    forall c | c in e :: c == '/' || c == '-' || 'a' <= c <= 'z'
  }

  lemma BlocklistLetters()
    ensures forall k | 0 <= k < |PATH_BLOCKLIST| :: BlockedLetters(PATH_BLOCKLIST[k])
  {
  }

  lemma BlocklistIsPlain()
    ensures forall k | 0 <= k < |PATH_BLOCKLIST| :: Ascii(PATH_BLOCKLIST[k]) && NoPercent(PATH_BLOCKLIST[k])
  {
    hide PATH_BLOCKLIST;
    BlocklistLetters();
  }

  lemma SyncPrefixIsPlain()
    ensures Ascii(SYNC_PREFIX) && NoPercent(SYNC_PREFIX)
    ensures forall c | c in SYNC_PREFIX :: c == '/' || 'a' <= c <= 'z'
    ensures forall c | c in SYNC_ALLOWED_PATH :: !('A' <= c <= 'Z')
  {
  }

  /** A blocked rendering is found in the template. */
  lemma BlockedIsFound(py: Python, low: CharLower, before: string, parts: seq<Part>, values: map<string, string>)
    requires LowersLike(py, low) && Covers(values, parts)
    requires !PathAllowed(py, before + PathText(parts, values))
    ensures CanBeBlocked(low, before, parts)
  {
    hide Occurs, SyncEscapes, Tokens, PathText, PATH_BLOCKLIST, SYNC_PREFIX;
    var path, tokens := before + PathText(parts, values), Tokens(low, before, parts);
    BlocklistIsPlain();
    SyncPrefixIsPlain();
    PathExpands(low, before, parts, values);
    if k :| 0 <= k < |PATH_BLOCKLIST| && Contains(py.lower(path), PATH_BLOCKLIST[k]) {
      var e := PATH_BLOCKLIST[k];
      assert Contains(Lowered(low, path), e);
      var p: nat :| p <= |Expand(low, tokens, values)| && MatchAt(Expand(low, tokens, values), e, p);
      OccurrenceMatches(low, e, tokens, values, p);
    } else {
      assert StartsWith(py.lower(path), SYNC_PREFIX) && path != SYNC_ALLOWED_PATH;
      assert StartsWith(Lowered(low, path), SYNC_PREFIX);
      EscapeIsFound(low, before, parts, values);
    }
  }

  lemma EscapeIsFound(low: CharLower, before: string, parts: seq<Part>, values: map<string, string>)
    requires LowersAscii(low)
    requires Covers(values, parts) && before + PathText(parts, values) != SYNC_ALLOWED_PATH
    requires SYNC_PREFIX <= Expand(low, Tokens(low, before, parts), values)
    ensures SyncEscapes(low, before, parts)
  {
    hide Tokens, Expand, PathText, Blank, Skips, Consumes;
    var tokens := Tokens(low, before, parts);
    SyncPrefixIsPlain();
    if !Consumes(SYNC_PREFIX, tokens) {
      PrefixSkips(low, SYNC_PREFIX, tokens, values);
      var rest := Skips(SYNC_PREFIX, tokens).value;
      if !HasHole(rest) {
        TokensHoles(low, before, parts);
        forall p | p in parts ensures p.name in values && values[p.name] == "" {
          assert Hole(p.name) in tokens && Hole(p.name).Hole?;
          var i :| 0 <= i < |parts| && parts[i] == p;
        }
        EmptyPath(parts, values);
      }
    }
  }

  /** What matches the template is reached by some arguments. */
  lemma FoundIsBlocked(py: Python, low: CharLower, before: string, parts: seq<Part>) returns (values: map<string, string>)
    requires LowersLike(py, low) && DistinctNames(parts) && CanBeBlocked(low, before, parts)
    ensures Covers(values, parts) && !PathAllowed(py, before + PathText(parts, values))
  {
    hide Tokens, PathText, Occurs, SyncEscapes, PATH_BLOCKLIST, SYNC_PREFIX, Lowered;
    var tokens := Tokens(low, before, parts);
    BlocklistIsPlain();
    SyncPrefixIsPlain();
    TokensHoles(low, before, parts);
    if k :| 0 <= k < |PATH_BLOCKLIST| && Occurs(PATH_BLOCKLIST[k], tokens) {
      var e := PATH_BLOCKLIST[k];
      var f := OccurrenceIsReached(low, e, tokens);
      values := Complete(parts, f);
      CompleteExpands(low, before, parts, f);
      PathExpands(low, before, parts, values);
      assert Contains(py.lower(before + PathText(parts, values)), e);
    } else {
      values := EscapeIsReached(low, before, parts);
      PathExpands(low, before, parts, values);
      assert StartsWith(py.lower(before + PathText(parts, values)), SYNC_PREFIX);
    }
  }

  lemma OccurrenceIsReached(low: CharLower, e: string, tokens: seq<Token>) returns (f: map<string, string>)
    requires LowersAscii(low)
    requires DistinctHoles(tokens) && Occurs(e, tokens)
    ensures Contains(Expand(low, tokens, f), e)
  {
    hide Matches, Fill;
    var i :| 0 <= i <= |tokens| && Matches(e, tokens[i..]);
    OccursIsReached(low, e, tokens, i);
    f := Fill(e, tokens[i..]);
  }

  lemma EscapeIsReached(low: CharLower, before: string, parts: seq<Part>) returns (values: map<string, string>)
    requires LowersAscii(low)
    requires DistinctNames(parts) && SyncEscapes(low, before, parts)
    ensures Covers(values, parts) && before + PathText(parts, values) != SYNC_ALLOWED_PATH
    ensures SYNC_PREFIX <= Expand(low, Tokens(low, before, parts), values)
  {
    hide Tokens, Expand, PathText, Blank, Skips, Consumes, FillSome, Complete, SYNC_PREFIX, SYNC_ALLOWED_PATH;
    var tokens := Tokens(low, before, parts);
    SyncPrefixIsPlain();
    TokensHoles(low, before, parts);
    var f: map<string, string> := map[];
    if Consumes(SYNC_PREFIX, tokens) {
      var name := FillSomeMatches(low, SYNC_PREFIX, tokens);
      f := FillSome(SYNC_PREFIX, tokens);
      values := Complete(parts, f);
      CompleteExpands(low, before, parts, f);
      UpperShows(before, parts, f, name);
    } else if before + Blank(parts) != SYNC_ALLOWED_PATH {
      SkipsExpands(low, SYNC_PREFIX, tokens, f);
      values := Complete(parts, f);
      CompleteExpands(low, before, parts, f);
      EmptyComplete(parts);
    } else {
      var rest := Skips(SYNC_PREFIX, tokens).value;
      var t :| t in rest && t.Hole?;
      f := map[t.name := "a"];
      SkipsExpands(low, SYNC_PREFIX, tokens, f);
      RestIsLater(SYNC_PREFIX, tokens, t);
      values := Complete(parts, f);
      CompleteExpands(low, before, parts, f);
      OneLonger(parts, t.name);
    }
  }

  lemma EmptyComplete(parts: seq<Part>)
    ensures Covers(Complete(parts, map[]), parts)
    ensures PathText(parts, Complete(parts, map[])) == Blank(parts)
  {
    var values := Complete(parts, map[]);
    forall i | 0 <= i < |parts| ensures parts[i].name in values { assert parts[i] in parts; }
    EmptyPath(parts, values);
  }

  lemma OneLonger(parts: seq<Part>, name: string)
    requires exists p :: p in parts && p.name == name
    ensures var values := Complete(parts, map[name := "a"]);
      Covers(values, parts) && |PathText(parts, values)| > |Blank(parts)|
  {
    var values := Complete(parts, map[name := "a"]);
    forall i | 0 <= i < |parts| ensures parts[i].name in values { assert parts[i] in parts; }
    PathIsLonger(parts, values, name);
  }

  /** A path with an upper-case letter is not the allowed one. */
  lemma UpperShows(before: string, parts: seq<Part>, f: map<string, string>, name: string)
    requires Covers(Complete(parts, f), parts) && GivesUpper(SYNC_PREFIX, f, name)
    requires exists p :: p in parts && p.name == name
    ensures before + PathText(parts, Complete(parts, f)) != SYNC_ALLOWED_PATH
  {
    hide SYNC_PREFIX, SYNC_ALLOWED_PATH, PathText;
    SyncPrefixIsPlain();
    var values := Complete(parts, f);
    var p :| p in parts && p.name == name;
    var i :| 0 <= i < |SYNC_PREFIX| && Fillable(SYNC_PREFIX[i]) && f[name][0] == UpperLetter(SYNC_PREFIX[i]);
    var c := f[name][0];
    assert SYNC_PREFIX[i] in SYNC_PREFIX;
    assert values[name] == f[name] && Quote(values[name])[0] == c;
    ArgumentInPath(parts, values, p, c);
    assert c in before + PathText(parts, values);
  }

  /** Every rendering of a template is allowed exactly when no blocked text matches the template
      and the sync rule cannot be escaped: a condition on the template alone. */
  lemma AlwaysAllowedIff(py: Python, low: CharLower, w: WordClass, before: string, parts: seq<Part>)
    requires LowersLike(py, low) && Proper(w) && WellFormed(w, before, parts) && DistinctNames(parts)
    ensures AlwaysAllowed(py, w, before, parts) <==> !CanBeBlocked(low, before, parts)
  {
    hide LowersLike, Render, Template, PathAllowed, CanBeBlocked, PathText, Covers, DistinctNames;
    if CanBeBlocked(low, before, parts) {
      var values := FoundIsBlocked(py, low, before, parts);
      RenderTemplate(w, before, parts, values);
    } else {
      UnmatchedIsAllowed(py, low, w, before, parts);
    }
  }

  /** The safe half holds for repeated names as well. */
  lemma UnmatchedIsAllowed(py: Python, low: CharLower, w: WordClass, before: string, parts: seq<Part>)
    requires LowersLike(py, low) && Proper(w) && WellFormed(w, before, parts) && !CanBeBlocked(low, before, parts)
    ensures AlwaysAllowed(py, w, before, parts)
  {
    hide LowersLike, Render, Template, PathAllowed, CanBeBlocked, PathText, Covers;
    forall values: map<string, string> | Covers(values, parts)
      ensures Render(w, Template(before, parts), values).Ok?
        && PathAllowed(py, Render(w, Template(before, parts), values).value)
    {
      RenderTemplate(w, before, parts, values);
      if !PathAllowed(py, before + PathText(parts, values)) {
        BlockedIsFound(py, low, before, parts, values);
      }
    }
  }

  // ---------- Placeholders after a slash ----------

  /** The i-th placeholder directly follows a slash. */
  predicate AfterSlash(before: string, parts: seq<Part>, i: nat)
    requires i < |parts|
  {
    var text := if i == 0 then before else parts[i - 1].after;
    text != "" && text[|text| - 1] == '/'
  }

  lemma {:induction false} RunFills(e: string, tokens: seq<Token>)
    requires tokens != [] && tokens[0].Hole? && forall c | c in e :: Fillable(c)
    ensures Matches(e, tokens)
    decreases |e|
  {
    if e != "" {
      assert e[0] in e;
      RunFills(e[1..], tokens);
    }
  }

  lemma CredentialsFill()
    ensures forall c | c in "credentials" :: Fillable(c)
    ensures "/credentials" == "/" + "credentials"
    ensures |PATH_BLOCKLIST| > 0 && PATH_BLOCKLIST[0] == "/credentials"
  {
  }

  lemma SlashThenHole(tokens: seq<Token>, i: nat)
    requires i + 1 < |tokens| && tokens[i] == Letter('/') && tokens[i + 1].Hole?
    ensures Occurs("/credentials", tokens)
  {
    CredentialsFill();
    var later := tokens[i..];
    RunFills("credentials", later[1..]);
    assert "/credentials"[1..] == "credentials" && Matches("/credentials", later);
  }

  lemma SlashEndsLetters(low: CharLower, text: string, hole: Token, rest: seq<Token>)
    requires low('/') == ['/'] && text != "" && text[|text| - 1] == '/' && hole.Hole?
    ensures var all := Letters(Lowered(low, text)) + ([hole] + rest); var n := |Lowered(low, text)|;
      n > 0 && n < |all| && all[n - 1] == Letter('/') && all[n] == hole
  {
    var init := text[..|text| - 1];
    assert text == init + "/";
    LoweredConcat(low, init, "/");
    assert "/"[1..] == "" && Lowered(low, "/") == ['/'] + "";
  }

  /** Where the slash and the placeholder are among the tokens. */
  lemma {:induction false} SlashInParts(low: CharLower, before: string, parts: seq<Part>, i: nat) returns (k: nat)
    requires low('/') == ['/'] && i < |parts| && AfterSlash(before, parts, i)
    ensures var tokens := Tokens(low, before, parts);
      k + 1 < |tokens| && tokens[k] == Letter('/') && tokens[k + 1].Hole?
    decreases i
  {
    hide Lowered, Letters;
    var first := parts[0];
    var rest := Letters(Lowered(low, first.after)) + PartTokens(low, parts[1..]);
    if i == 0 {
      SlashEndsLetters(low, before, Hole(first.name), rest);
      k := |Lowered(low, before)| - 1;
      assert Tokens(low, before, parts) == Letters(Lowered(low, before)) + ([Hole(first.name)] + rest);
    } else {
      var m := SlashInParts(low, first.after, parts[1..], i - 1);
      var letters := Letters(Lowered(low, before));
      assert Tokens(low, first.after, parts[1..]) == rest;
      assert Tokens(low, before, parts) == letters + [Hole(first.name)] + rest;
      k := |letters| + 1 + m;
    }
  }

  /** An argument in place of a whole segment, or of the beginning of one, can always complete a
      blocked path. */
  lemma SlashPlaceholderIsUnsafe(py: Python, low: CharLower, w: WordClass, before: string, parts: seq<Part>, i: nat)
    requires LowersLike(py, low) && Proper(w) && WellFormed(w, before, parts) && DistinctNames(parts)
    requires i < |parts| && AfterSlash(before, parts, i)
    ensures !AlwaysAllowed(py, w, before, parts)
  {
    SlashIsLowered(py, low);
    hide Tokens, Occurs, SyncEscapes, LowersLike, PATH_BLOCKLIST, AlwaysAllowed, AfterSlash;
    AlwaysAllowedIff(py, low, w, before, parts);
    var k := SlashInParts(low, before, parts, i);
    SlashThenHole(Tokens(low, before, parts), k);
    CredentialsFill();
  }

  /** So an allowed template whose placeholders all follow a slash keeps its renderings off the
      blocklist exactly when it has none. */
  lemma SlashPlaceholdersAreNotSafe(py: Python, low: CharLower, w: WordClass, before: string, parts: seq<Part>)
    requires LowersLike(py, low) && Proper(w) && WellFormed(w, before, parts) && DistinctNames(parts)
    requires PathAllowed(py, Template(before, parts))
    requires forall i | 0 <= i < |parts| :: AfterSlash(before, parts, i)
    ensures AlwaysAllowed(py, w, before, parts) <==> parts == []
  {
    if parts == [] {
      hide PathAllowed, Render;
      forall values: map<string, string> ensures Render(w, Template(before, parts), values) == Ok(Template(before, parts)) {
        RenderTemplate(w, before, parts, values);
      }
    } else {
      hide PathAllowed, AlwaysAllowed;
      SlashPlaceholderIsUnsafe(py, low, w, before, parts, 0);
    }
  }

  /** Nor need the placeholder follow a slash: `/api/ex{x}` can become a path to an export. */
  lemma PlaceholderCompletesWord(py: Python, low: CharLower, w: WordClass)
    requires LowersLike(py, low) && Proper(w) && w('x')
    ensures !AlwaysAllowed(py, w, "/api/ex", [Part("x", "")])
  {
    var parts := [Part("x", "")];
    ExpectExport(low, parts);
    hide LowersLike, Render, AlwaysAllowed, Tokens, Occurs, SyncEscapes;
    AlwaysAllowedIff(py, low, w, "/api/ex", parts);
  }

  lemma ExpectExport(low: CharLower, parts: seq<Part>)
    requires LowersAscii(low) && parts == [Part("x", "")]
    ensures exists k :: 0 <= k < |PATH_BLOCKLIST| && Occurs(PATH_BLOCKLIST[k], Tokens(low, "/api/ex", parts))
  {
    LoweredText(low);
    var tokens := Tokens(low, "/api/ex", parts);
    var later := tokens[4..];
    assert PATH_BLOCKLIST[8] == "/export" == "/ex" + "port";
    assert later[0] == Letter('/') && later[1] == Letter('e') && later[2] == Letter('x') && later[3] == Hole("x");
    RunFills("port", later[3..]);
    assert "/export"[1..] == "export" && "export"[1..] == "xport" && "xport"[1..] == "port";
    assert later[1..][1..] == later[2..] && later[2..][1..] == later[3..];
    assert Matches("xport", later[2..]) && Matches("export", later[1..]) && Matches("/export", later);
  }

  lemma LoweredText(low: CharLower)
    requires LowersAscii(low)
    ensures Lowered(low, "/api/ex") == "/api/ex" && Lowered(low, "") == ""
  {
    assert "/api/ex"[1..] == "api/ex" && "api/ex"[1..] == "pi/ex" && "pi/ex"[1..] == "i/ex";
    assert "i/ex"[1..] == "/ex" && "/ex"[1..] == "ex" && "ex"[1..] == "x" && "x"[1..] == "";
  }

  lemma SlashIsLowered(py: Python, low: CharLower)
    requires LowersLike(py, low)
    ensures low('/') == ['/']
  {
  }
}
