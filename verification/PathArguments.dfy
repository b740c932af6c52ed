/** Which path templates let every argument be told from the rendered path. */
module PathArguments {
  import opened Prelude
  import opened Percent
  import opened PathTemplate

  /** A placeholder and the literal text up to the next one. */
  datatype Part = Part(name: string, after: string)

  function Text(parts: seq<Part>): string {
    if parts == [] then "" else "{" + parts[0].name + "}" + (parts[0].after + Text(parts[1..]))
  }

  /** Literal text, then the parts: every template in which a brace only ever opens or closes a
      placeholder is of this form. */
  function Template(before: string, parts: seq<Part>): string {
    before + Text(parts)
  }

  predicate Wordy(w: WordClass, name: string) {
    name != "" && forall c | c in name :: w(c)
  }

  /** Literals open no placeholder. */
  ghost predicate WellFormed(w: WordClass, before: string, parts: seq<Part>) {
    && '{' !in before
    && forall i | 0 <= i < |parts| :: Wordy(w, parts[i].name) && '{' !in parts[i].after
  }

  ghost predicate DistinctNames(parts: seq<Part>) {
    forall i, j | 0 <= i < j < |parts| :: parts[i].name != parts[j].name
  }

  ghost predicate Covers(values: map<string, string>, parts: seq<Part>) {
    forall i | 0 <= i < |parts| :: parts[i].name in values
  }

  ghost predicate SameArguments(a: map<string, string>, b: map<string, string>, parts: seq<Part>)
    requires Covers(a, parts) && Covers(b, parts)
  {
    forall i | 0 <= i < |parts| :: a[parts[i].name] == b[parts[i].name]
  }

  /** Equal rendered paths come from equal arguments. */
  ghost predicate Determined(w: WordClass, before: string, parts: seq<Part>) {
    forall a: map<string, string>, b: map<string, string> |
      Covers(a, parts) && Covers(b, parts)
      && Render(w, Template(before, parts), a) == Render(w, Template(before, parts), b) ::
      SameArguments(a, b, parts)
  }

  /** A character no encoded argument can hold. */
  predicate Separator(c: char) {
    !Unreserved(c) && c != '%'
  }

  ghost predicate Separated(parts: seq<Part>) {
    forall i | 0 <= i < |parts| - 1 :: HasSeparator(parts[i].after)
  }

  ghost predicate HasSeparator(s: string) {
    exists c :: c in s && Separator(c)
  }

  // ---------- What such a template renders to ----------

  function PathText(parts: seq<Part>, values: map<string, string>): string
    requires Covers(values, parts)
  {
    if parts == [] then ""
    else
      assert Covers(values, parts[1..]) by {
        assert forall i | 0 <= i < |parts[1..]| :: parts[1..][i] == parts[i + 1];
      }
      Quote(values[parts[0].name]) + (parts[0].after + PathText(parts[1..], values))
  }

  lemma {:induction false} RenderLiteral(w: WordClass, literal: string, s: string, values: map<string, string>)
    requires '{' !in literal
    ensures Render(w, literal + s, values) == Before(literal, Render(w, s, values))
  {
    if literal == "" {
      assert literal + s == s;
      if Render(w, s, values).Ok? { assert "" + Render(w, s, values).value == Render(w, s, values).value; }
    } else {
      assert literal[0] in literal;
      assert (literal + s)[1..] == literal[1..] + s;
      RenderLiteral(w, literal[1..], s, values);
      var rest := Render(w, s, values);
      if rest.Ok? { assert [literal[0]] + (literal[1..] + rest.value) == literal + rest.value; }
    }
  }

  lemma {:induction false} NameRun(w: WordClass, s: string, name: string, i: nat)
    requires !w('}') && Wordy(w, name) && "{" + name + "}" <= s && 1 <= i <= |name| + 1
    ensures RunEnd(w, s, i) == |name| + 1
    decreases |name| + 1 - i
  {
    var head := "{" + name + "}";
    assert s[|name| + 1] == head[|name| + 1] == '}';
    if i <= |name| {
      assert s[i] == head[i] == name[i - 1] && name[i - 1] in name;
      NameRun(w, s, name, i + 1);
    }
  }

  lemma RenderPlaceholder(w: WordClass, name: string, s: string, values: map<string, string>)
    requires Proper(w) && Wordy(w, name) && name in values
    ensures Render(w, "{" + name + "}" + s, values) == Before(Quote(values[name]), Render(w, s, values))
  {
    var all := "{" + name + "}" + s;
    assert all[..|name| + 2] == "{" + name + "}";
    NameRun(w, all, name, 1);
    assert all[0] == '{' && all[|name| + 1] == '}';
    assert Placeholder(w, all) == Some(|name| + 2);
    assert all[1..|name| + 1] == name && all[|name| + 2..] == s;
  }

  lemma {:induction false} RenderParts(w: WordClass, parts: seq<Part>, values: map<string, string>)
    requires Proper(w) && WellFormed(w, "", parts) && Covers(values, parts)
    ensures Render(w, Text(parts), values) == Ok(PathText(parts, values))
  {
    hide Render, Quote;
    if parts == [] {
      RenderNothing(w, values);
    } else {
      var p, later := parts[0], parts[1..];
      RenderParts(w, later, values);
      RenderLiteral(w, p.after, Text(later), values);
      RenderPlaceholder(w, p.name, p.after + Text(later), values);
    }
  }

  lemma RenderNothing(w: WordClass, values: map<string, string>)
    ensures Render(w, "", values) == Ok("")
  {
  }

  lemma RenderTemplate(w: WordClass, before: string, parts: seq<Part>, values: map<string, string>)
    requires Proper(w) && WellFormed(w, before, parts) && Covers(values, parts)
    ensures Render(w, Template(before, parts), values) == Ok(before + PathText(parts, values))
  {
    RenderParts(w, parts, values);
    RenderLiteral(w, before, Text(parts), values);
  }

  // ---------- Separated placeholders are determined ----------

  lemma QuoteIsInjective(a: string, b: string)
    requires Quote(a) == Quote(b)
    ensures a == b
  {
    QuoteRoundTrip(a);
    QuoteRoundTrip(b);
  }

  ghost predicate Encoded(s: string) {
    forall c | c in s :: !Separator(c)
  }

  lemma QuoteIsEncoded(s: string)
    ensures Encoded(Quote(s))
  {
    QuoteIsOneSegment(s);
  }

  function FirstSeparator(s: string): (k: nat)
    requires HasSeparator(s)
    ensures k < |s| && Separator(s[k]) && forall i | 0 <= i < k :: !Separator(s[i])
  {
    if Separator(s[0]) then 0
    else
      assert HasSeparator(s[1..]) by { var c :| c in s && Separator(c); assert c in s[1..]; }
      1 + FirstSeparator(s[1..])
  }

  /** The first separator shows where an encoded text before it ends. */
  lemma SameStart(x: string, y: string, literal: string, u: string, v: string)
    requires Encoded(x) && Encoded(y) && HasSeparator(literal)
    requires x + (literal + u) == y + (literal + v)
    ensures x == y && u == v
  {
    var k := FirstSeparator(literal);
    var s := x + (literal + u);
    SeparatorAt(x, literal, u, k);
    SeparatorAt(y, literal, v, k);
    assert |x| == |y|;
    assert s[..|x|] == x && s[..|y|] == y;
    assert s[|x| + |literal|..] == u && s[|y| + |literal|..] == v;
  }

  lemma SeparatorAt(x: string, literal: string, u: string, k: nat)
    requires Encoded(x) && k < |literal| && Separator(literal[k]) && forall i | 0 <= i < k :: !Separator(literal[i])
    ensures var s := x + (literal + u);
      Separator(s[|x| + k]) && forall i | 0 <= i < |x| + k :: !Separator(s[i])
  {
    forall i | 0 <= i < |x| + k ensures !Separator((x + (literal + u))[i]) {
      if i < |x| { assert x[i] in x; }
    }
  }

  lemma {:induction false} SeparatedPaths(w: WordClass, parts: seq<Part>, a: map<string, string>, b: map<string, string>)
    requires Separated(parts) && Covers(a, parts) && Covers(b, parts)
    requires PathText(parts, a) == PathText(parts, b)
    ensures SameArguments(a, b, parts)
  {
    if parts != [] {
      hide Quote, HasSeparator;
      var p, later := parts[0], parts[1..];
      var x, y := Quote(a[p.name]), Quote(b[p.name]);
      assert forall i | 0 <= i < |later| :: later[i] == parts[i + 1];
      QuoteIsEncoded(a[p.name]);
      QuoteIsEncoded(b[p.name]);
      if later == [] {
        assert |x| == |y|;
        assert (x + (p.after + ""))[..|x|] == x && (y + (p.after + ""))[..|y|] == y;
      } else {
        SameStart(x, y, p.after, PathText(later, a), PathText(later, b));
        SeparatedPaths(w, later, a, b);
      }
      QuoteIsInjective(a[p.name], b[p.name]);
      forall i | 0 <= i < |parts| ensures a[parts[i].name] == b[parts[i].name] {
        if i > 0 { assert parts[i] == later[i - 1]; }
      }
    }
  }

  /** With a separator between every two placeholders, equal paths mean equal arguments; percent
      signs in the literals and repeated names do not matter. */
  lemma SeparatedIsDetermined(w: WordClass, before: string, parts: seq<Part>)
    requires Proper(w) && WellFormed(w, before, parts) && Separated(parts)
    ensures Determined(w, before, parts)
  {
    forall a: map<string, string>, b: map<string, string> |
      Covers(a, parts) && Covers(b, parts)
      && Render(w, Template(before, parts), a) == Render(w, Template(before, parts), b)
      ensures SameArguments(a, b, parts)
    {
      RenderTemplate(w, before, parts, a);
      RenderTemplate(w, before, parts, b);
      var s := before + PathText(parts, a);
      assert s[|before|..] == PathText(parts, a) && s[|before|..] == PathText(parts, b);
      SeparatedPaths(w, parts, a, b);
    }
  }

  /** A single placeholder is always determined, whatever surrounds it in its segment. */
  lemma SinglePlaceholderIsDetermined(w: WordClass, before: string, p: Part)
    requires Proper(w) && WellFormed(w, before, [p])
    ensures Determined(w, before, [p])
  {
    SeparatedIsDetermined(w, before, [p]);
  }

  // ---------- Others are not ----------

  lemma {:induction false} SamePaths(parts: seq<Part>, a: map<string, string>, b: map<string, string>)
    requires Covers(a, parts) && Covers(b, parts) && SameArguments(a, b, parts)
    ensures PathText(parts, a) == PathText(parts, b)
  {
    if parts != [] {
      assert forall i | 0 <= i < |parts[1..]| :: parts[1..][i] == parts[i + 1];
      SamePaths(parts[1..], a, b);
    }
  }

  lemma PathCons(parts: seq<Part>, values: map<string, string>)
    requires parts != [] && Covers(values, parts)
    ensures parts[0].name in values && Covers(values, parts[1..])
    ensures PathText(parts, values)
      == Quote(values[parts[0].name]) + (parts[0].after + PathText(parts[1..], values))
  {
    hide Quote;
    assert forall i | 0 <= i < |parts[1..]| :: parts[1..][i] == parts[i + 1];
  }

  lemma {:induction false} PathConcat(p: seq<Part>, q: seq<Part>, values: map<string, string>)
    requires Covers(values, p + q)
    ensures Covers(values, p) && Covers(values, q)
    ensures PathText(p + q, values) == PathText(p, values) + PathText(q, values)
  {
    hide Quote;
    assert forall i | 0 <= i < |p| :: (p + q)[i] == p[i];
    assert forall i | 0 <= i < |q| :: (p + q)[|p| + i] == q[i];
    if p == [] {
      assert p + q == q;
    } else {
      hide PathText, Covers;
      assert (p + q)[1..] == p[1..] + q && (p + q)[0] == p[0];
      PathCons(p + q, values);
      PathCons(p, values);
      PathConcat(p[1..], q, values);
      var x, y := Quote(values[p[0].name]), p[0].after;
      assert x + (y + (PathText(p[1..], values) + PathText(q, values)))
        == x + (y + PathText(p[1..], values)) + PathText(q, values);
    }
  }

  /** Empty arguments, but for one name. */
  function AllBut(parts: seq<Part>, name: string, value: string): map<string, string> {
    (map p | p in parts :: p.name := "")[name := value]
  }

  lemma AllButCovers(parts: seq<Part>, name: string, value: string)
    ensures Covers(AllBut(parts, name, value), parts)
    ensures forall i | 0 <= i < |parts| ::
      AllBut(parts, name, value)[parts[i].name] == if parts[i].name == name then value else ""
  {
    forall i | 0 <= i < |parts| ensures parts[i].name in AllBut(parts, name, value) {
      assert parts[i] in parts;
    }
  }

  lemma OthersDiffer(parts: seq<Part>, i: nat)
    requires i + 1 < |parts| && DistinctNames(parts)
    ensures parts[i].name != parts[i + 1].name
    ensures forall p | p in parts[..i] || p in parts[i + 2..] ::
      p in parts && p.name != parts[i].name && p.name != parts[i + 1].name
  {
    forall p | p in parts[i + 2..] ensures p in parts && p.name != parts[i].name && p.name != parts[i + 1].name {
      var k :| 0 <= k < |parts| - i - 2 && parts[i + 2..][k] == p;
      assert parts[i + 2 + k] == p;
    }
  }

  lemma AllButSame(parts: seq<Part>, some: seq<Part>, name: string, other: string, t: string)
    requires forall p | p in some :: p in parts && p.name != name && p.name != other
    ensures var a, b := AllBut(parts, name, t), AllBut(parts, other, t);
      Covers(a, some) && Covers(b, some) && PathText(some, a) == PathText(some, b)
  {
    var a, b := AllBut(parts, name, t), AllBut(parts, other, t);
    forall i | 0 <= i < |some|
      ensures some[i].name in a && some[i].name in b && a[some[i].name] == "" && b[some[i].name] == ""
    {
      assert some[i] in some;
    }
    SamePaths(some, a, b);
  }

  lemma ArgumentsDiffer(parts: seq<Part>, i: nat, t: string)
    requires i + 1 < |parts| && parts[i].name != parts[i + 1].name && t != ""
    ensures var a, b := AllBut(parts, parts[i].name, t), AllBut(parts, parts[i + 1].name, t);
      && Covers(a, parts) && Covers(b, parts) && !SameArguments(a, b, parts)
      && parts[i].name in a && parts[i].name in b && parts[i + 1].name in a && parts[i + 1].name in b
      && a[parts[i].name] == t == b[parts[i + 1].name] && a[parts[i + 1].name] == "" == b[parts[i].name]
  {
    AllButCovers(parts, parts[i].name, t);
    AllButCovers(parts, parts[i + 1].name, t);
  }

  /** A literal of unreserved characters between two placeholders can itself be (part of) either
      argument. */
  lemma UnseparatedPaths(parts: seq<Part>, i: nat, t: string)
    requires i + 1 < |parts| && (forall c | c in parts[i].after :: Unreserved(c))
    requires t == if parts[i].after == "" then "a" else parts[i].after
    requires DistinctNames(parts)
    ensures var a, b := AllBut(parts, parts[i].name, t), AllBut(parts, parts[i + 1].name, t);
      && Covers(a, parts) && Covers(b, parts) && !SameArguments(a, b, parts)
      && PathText(parts, a) == PathText(parts, b)
  {
    hide PathText, Quote, AllBut, DistinctNames, Covers, SameArguments;
    OthersDiffer(parts, i);
    var p, q := parts[i], parts[i + 1];
    var a, b := AllBut(parts, p.name, t), AllBut(parts, q.name, t);
    ArgumentsDiffer(parts, i, t);
    PathAround(parts, i, a);
    PathAround(parts, i, b);
    AllButSame(parts, parts[..i], p.name, q.name, t);
    AllButSame(parts, parts[i + 2..], p.name, q.name, t);
    Swap(p, q, a, b, t);
  }

  lemma PathAround(parts: seq<Part>, i: nat, values: map<string, string>)
    requires i + 1 < |parts| && Covers(values, parts)
    ensures var first, two, last := parts[..i], [parts[i], parts[i + 1]], parts[i + 2..];
      && Covers(values, first) && Covers(values, two) && Covers(values, last)
      && PathText(parts, values) == PathText(first, values) + (PathText(two, values) + PathText(last, values))
  {
    hide PathText, Covers;
    var first, two, last := parts[..i], [parts[i], parts[i + 1]], parts[i + 2..];
    assert parts == first + (two + last);
    PathConcat(first, two + last, values);
    PathConcat(two, last, values);
  }

  lemma Swap(p: Part, q: Part, a: map<string, string>, b: map<string, string>, t: string)
    requires Covers(a, [p, q]) && Covers(b, [p, q]) && [p, q][0] == p && [p, q][1] == q
    requires p.name in a && p.name in b && q.name in a && q.name in b
    requires a[p.name] == t && a[q.name] == "" && b[p.name] == "" && b[q.name] == t
    requires (p.after == "" || p.after == t) && forall c | c in t :: Unreserved(c)
    ensures PathText([p, q], a) == PathText([p, q], b)
  {
    hide PathText;
    TwoParts(p, q, a);
    TwoParts(p, q, b);
    QuoteKeepsUnreserved(t);
    assert Quote("") == "";
    assert t + (p.after + ("" + q.after)) == "" + (p.after + (t + q.after));
  }

  lemma TwoParts(p: Part, q: Part, values: map<string, string>)
    requires Covers(values, [p, q]) && p.name in values && q.name in values
    ensures PathText([p, q], values) == Quote(values[p.name]) + (p.after + (Quote(values[q.name]) + q.after))
  {
    var two, one, none: seq<Part> := [p, q], [q], [];
    assert two[1..] == one && one[1..] == none;
    assert one[0] == q;
    assert Covers(values, one) && Covers(values, none);
    assert q.after + PathText(none, values) == q.after;
    assert PathText(one, values) == Quote(values[q.name]) + q.after;
  }

  lemma UnseparatedIsUndetermined(w: WordClass, before: string, parts: seq<Part>, i: nat)
    requires Proper(w) && WellFormed(w, before, parts) && DistinctNames(parts)
    requires i + 1 < |parts| && forall c | c in parts[i].after :: Unreserved(c)
    ensures !Determined(w, before, parts)
  {
    hide PathText, Quote, Unreserved, Render, Template;
    var t := if parts[i].after == "" then "a" else parts[i].after;
    var a, b := AllBut(parts, parts[i].name, t), AllBut(parts, parts[i + 1].name, t);
    UnseparatedPaths(parts, i, t);
    RenderTemplate(w, before, parts, a);
    RenderTemplate(w, before, parts, b);
    assert !SameArguments(a, b, parts);
  }

  /** A character that percent-encoding replaces. */
  ghost predicate HoldsReserved(s: string) {
    exists c :: c in s && !Unreserved(c)
  }

  /** The arguments can be told from the path exactly when every two neighbouring placeholders
      have a character between them that percent-encoding would have replaced. */
  lemma DeterminedIffSeparated(w: WordClass, before: string, parts: seq<Part>)
    requires Proper(w) && WellFormed(w, before, parts) && DistinctNames(parts)
    requires forall i | 0 <= i < |parts| - 1 :: '%' !in parts[i].after
    ensures Determined(w, before, parts) <==> forall i | 0 <= i < |parts| - 1 :: HoldsReserved(parts[i].after)
  {
    hide Determined, Unreserved, Proper, WellFormed;
    if forall i | 0 <= i < |parts| - 1 :: HoldsReserved(parts[i].after) {
      forall i | 0 <= i < |parts| - 1 ensures HasSeparator(parts[i].after) {
        var c :| c in parts[i].after && !Unreserved(c);
        assert Separator(c);
      }
      SeparatedIsDetermined(w, before, parts);
    } else {
      var i :| 0 <= i < |parts| - 1 && !HoldsReserved(parts[i].after);
      UnseparatedIsUndetermined(w, before, parts, i);
    }
  }

  /** `{x}-{y}` with ("1-2", "3") and with ("1", "2-3"). */
  lemma SharedSegmentsAreAmbiguous(w: WordClass)
    requires Proper(w) && w('x') && w('y')
    ensures Render(w, "{x}-{y}", map["x" := "1-2", "y" := "3"]) == Ok("1-2-3")
    ensures Render(w, "{x}-{y}", map["x" := "1", "y" := "2-3"]) == Ok("1-2-3")
  {
    hide Render, Quote, PathText;
    var p, q := Part("x", "-"), Part("y", "");
    var two, one, none := [p, q], [q], [];
    assert two[1..] == one && one[1..] == none && Text(none) == "";
    assert Text(two) == "{x}-{y}" && Template("", two) == "{x}-{y}";
    var a, b := map["x" := "1-2", "y" := "3"], map["x" := "1", "y" := "2-3"];
    RenderTemplate(w, "", two, a);
    RenderTemplate(w, "", two, b);
    TwoParts(p, q, a);
    TwoParts(p, q, b);
    QuoteKeepsUnreserved("1-2");
    QuoteKeepsUnreserved("3");
    QuoteKeepsUnreserved("1");
    QuoteKeepsUnreserved("2-3");
    assert "" + PathText(two, a) == PathText(two, a) && "" + PathText(two, b) == PathText(two, b);
    assert "1-2" + ("-" + ("3" + "")) == "1-2-3" == "1" + ("-" + ("2-3" + ""));
  }
}
