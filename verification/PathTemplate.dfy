/** Path templates: `{name}` placeholders are replaced by percent-encoded arguments. */
module PathTemplate {
  import opened Prelude
  import opened Percent

  /** Regular-expression `\w`. What it accepts beyond ASCII is left to the interpreter. */
  type WordClass = char -> bool

  ghost predicate Proper(w: WordClass) {
    !w('/') && !w('{') && !w('}')
  }

  /** The end of the run of word characters that starts at `i`. */
  function RunEnd(w: WordClass, s: string, i: nat): (j: nat)
    requires i <= |s|
    ensures i <= j <= |s|
    ensures forall k | i <= k < j :: w(s[k])
    ensures j < |s| ==> !w(s[j])
    decreases |s| - i
  {
    if i < |s| && w(s[i]) then RunEnd(w, s, i + 1) else i
  }

  /** Length of the placeholder `s` begins with, if it begins with one: `\{(\w+)\}`. */
  function Placeholder(w: WordClass, s: string): (r: Option<nat>)
    ensures r.Some? ==> 3 <= r.value <= |s| && s[0] == '{' && s[r.value - 1] == '}'
    ensures r.Some? ==> forall k | 1 <= k < r.value - 1 :: w(s[k])
  {
    if s == "" || s[0] != '{' then None
    else
      var j := RunEnd(w, s, 1);
      if j > 1 && j < |s| && s[j] == '}' then Some(j + 1) else None
  }

  /** Names of the placeholders, as `findall` lists them. */
  function Names(w: WordClass, s: string): set<string>
    decreases |s|
  {
    if s == "" then {}
    else match Placeholder(w, s)
         case Some(e) => {s[1..e - 1]} + Names(w, s[e..])
         case None => Names(w, s[1..])
  }

  /** `_render_path`; the error is the first missing name. */
  function Render(w: WordClass, s: string, values: map<string, string>): Result<string, string>
    decreases |s|
  {
    if s == "" then Ok("")
    else match Placeholder(w, s)
         case Some(e) =>
           var name := s[1..e - 1];
           if name !in values then Err(name) else Before(Quote(values[name]), Render(w, s[e..], values))
         case None => Before([s[0]], Render(w, s[1..], values))
  }

  function Before(text: string, r: Result<string, string>): Result<string, string> {
    match r
    case Err(e) => Err(e)
    case Ok(rest) => Ok(text + rest)
  }

  /** `s.split("/")`. */
  function Split(s: string): (parts: seq<string>)
    ensures parts != []
  {
    if s == "" then [""]
    else
      var rest := Split(s[1..]);
      if s[0] == '/' then [""] + rest else [[s[0]] + rest[0]] + rest[1..]
  }

  function Slashes(s: string): nat {
    if s == "" then 0 else (if s[0] == '/' then 1 else 0) + Slashes(s[1..])
  }

  lemma {:induction false} SplitCounts(s: string)
    ensures |Split(s)| == Slashes(s) + 1
  {
    if s != "" { SplitCounts(s[1..]); }
  }

  /** Rendering succeeds exactly when every placeholder has an argument. */
  lemma {:induction false} RenderSucceeds(w: WordClass, s: string, values: map<string, string>)
    ensures Render(w, s, values).Ok? <==> Names(w, s) <= values.Keys
    ensures Render(w, s, values).Err? ==> Render(w, s, values).error in Names(w, s) - values.Keys
    decreases |s|
  {
    if s != "" {
      match Placeholder(w, s) {
        case Some(e) => RenderSucceeds(w, s[e..], values);
        case None => RenderSucceeds(w, s[1..], values);
      }
    }
  }

  /** A template without placeholders is its own path. */
  lemma {:induction false} RenderPlain(w: WordClass, s: string, values: map<string, string>)
    requires Names(w, s) == {}
    ensures Render(w, s, values) == Ok(s)
  {
    if s != "" {
      match Placeholder(w, s) {
        case Some(_) =>
        case None =>
          RenderPlain(w, s[1..], values);
          assert [s[0]] + s[1..] == s;
      }
    }
  }

  // ---------- Segments are rendered one by one ----------

  /** The first segment is a slash-free prefix, up to a slash or the end. */
  lemma {:induction false} FirstSegment(s: string)
    ensures var p := Split(s)[0];
      && p <= s && '/' !in p && (|p| == |s| || s[|p|] == '/')
  {
    if s != "" { FirstSegment(s[1..]); }
  }

  lemma {:induction false} RunStaysInSegment(w: WordClass, s: string, p: string, i: nat)
    requires !w('/') && p <= s && (|p| == |s| || s[|p|] == '/') && i <= |p|
    ensures RunEnd(w, s, i) == RunEnd(w, p, i)
    decreases |p| - i
  {
  }

  /** Whether a placeholder starts here is decided within the segment. */
  lemma PlaceholderInSegment(w: WordClass, s: string)
    requires Proper(w) && s != "" && s[0] != '/'
    ensures Placeholder(w, s) == Placeholder(w, Split(s)[0])
  {
    var p := Split(s)[0];
    FirstSegment(s);
    assert p != "";
    RunStaysInSegment(w, s, p, 1);
  }

  lemma {:induction false} SplitBefore(text: string, s: string)
    requires '/' !in text
    ensures Split(text + s) == [text + Split(s)[0]] + Split(s)[1..]
  {
    if text == "" {
      assert text + s == s;
      assert text + Split(s)[0] == Split(s)[0];
    } else {
      assert text[0] in text;
      assert (text + s)[1..] == text[1..] + s;
      SplitBefore(text[1..], s);
      assert [text[0]] + (text[1..] + Split(s)[0]) == text + Split(s)[0];
    }
  }

  ghost predicate RenderedSegments(w: WordClass, s: string, values: map<string, string>, path: string) {
    && |Split(path)| == |Split(s)|
    && forall k | 0 <= k < |Split(s)| :: Render(w, Split(s)[k], values) == Ok(Split(path)[k])
  }

  lemma RenderFirst(w: WordClass, piece: string, text: string, s: string, values: map<string, string>, rest: string)
    requires RenderedSegments(w, s, values, rest)
    requires '/' !in piece && '/' !in text
    requires Render(w, piece + Split(s)[0], values) == Ok(text + Split(rest)[0])
    ensures RenderedSegments(w, piece + s, values, text + rest)
  {
    SplitBefore(piece, s);
    SplitBefore(text, rest);
  }

  /** The first piece of a template: a placeholder or one character. */
  function FirstPiece(w: WordClass, s: string): (n: nat)
    requires s != ""
    ensures 0 < n <= |s|
  {
    if Placeholder(w, s).Some? then Placeholder(w, s).value else 1
  }

  lemma PieceHasNoSlash(w: WordClass, s: string)
    requires Proper(w) && s != "" && s[0] != '/'
    ensures '/' !in s[..FirstPiece(w, s)]
  {
    hide RunEnd;
    var n := FirstPiece(w, s);
    forall k | 0 <= k < n ensures s[k] != '/' {}
  }

  lemma PieceInSegment(w: WordClass, s: string)
    requires Proper(w) && s != "" && s[0] != '/'
    ensures var n, p := FirstPiece(w, s), Split(s)[0];
      n <= |p| && p[..n] == s[..n] && p[n..] == Split(s[n..])[0] && p == s[..n] + Split(s[n..])[0]
  {
    hide Placeholder, FirstPiece, Split;
    var n := FirstPiece(w, s);
    PieceHasNoSlash(w, s);
    SplitBefore(s[..n], s[n..]);
    assert s[..n] + s[n..] == s;
  }

  /** The piece of a template handled first, and what it becomes. */
  lemma RenderStep(w: WordClass, s: string, values: map<string, string>) returns (piece: string, text: string)
    requires Proper(w) && Render(w, s, values).Ok? && s != "" && s[0] != '/'
    ensures piece != "" && piece <= s && '/' !in piece && '/' !in text
    ensures var tail := s[|piece|..];
      && Render(w, s, values) == Before(text, Render(w, tail, values))
      && Render(w, piece + Split(tail)[0], values) == Before(text, Render(w, Split(tail)[0], values))
  {
    hide Split, RunEnd, Quote;
    var p, n := Split(s)[0], FirstPiece(w, s);
    PlaceholderInSegment(w, s);
    PieceHasNoSlash(w, s);
    PieceInSegment(w, s);
    piece := s[..n];
    match Placeholder(w, s) {
      case Some(e) =>
        var name := s[1..e - 1];
        text := Quote(values[name]);
        QuoteIsOneSegment(values[name]);
        assert p[1..e - 1] == name;
      case None =>
        text := [s[0]];
    }
  }

  /** A rendered path has the segments of its template, each rendered on its own: no argument
      adds or removes a slash. */
  lemma {:induction false} RenderBySegments(w: WordClass, s: string, values: map<string, string>)
    requires Proper(w) && Render(w, s, values).Ok?
    ensures RenderedSegments(w, s, values, Render(w, s, values).value)
    decreases |s|
  {
    if s == "" {
    } else if s[0] == '/' {
      var rest := Render(w, s[1..], values).value;
      RenderBySegments(w, s[1..], values);
      assert ("/" + rest)[1..] == rest;
      assert Split("/" + rest) == [""] + Split(rest);
    } else {
      hide Render, Split, RenderedSegments;
      var piece, text := RenderStep(w, s, values);
      var tail := s[|piece|..];
      assert s == piece + tail;
      RenderBySegments(w, tail, values);
      RenderFirst(w, piece, text, tail, values, Render(w, tail, values).value);
    }
  }

  /** A rendered path has exactly the slashes of its template. */
  lemma RenderKeepsSlashes(w: WordClass, s: string, values: map<string, string>)
    requires Proper(w) && Render(w, s, values).Ok?
    ensures Slashes(Render(w, s, values).value) == Slashes(s)
  {
    RenderBySegments(w, s, values);
    SplitCounts(s);
    SplitCounts(Render(w, s, values).value);
  }

  // ---------- Arguments can be read back ----------

  /** A segment that is one placeholder and nothing else. */
  predicate WholeSegment(w: WordClass, segment: string, name: string) {
    segment == "{" + name + "}" && name != "" && forall c | c in name :: w(c)
  }

  lemma {:induction false} RunOfName(w: WordClass, segment: string, name: string, i: nat)
    requires Proper(w) && WholeSegment(w, segment, name) && 1 <= i <= |name| + 1
    ensures RunEnd(w, segment, i) == |name| + 1
    decreases |name| + 1 - i
  {
    if i <= |name| {
      assert segment[i] == name[i - 1] && name[i - 1] in name;
      RunOfName(w, segment, name, i + 1);
    }
  }

  lemma RenderWholeSegment(w: WordClass, segment: string, name: string, values: map<string, string>)
    requires Proper(w) && WholeSegment(w, segment, name)
    ensures Render(w, segment, values) == if name in values then Ok(Quote(values[name])) else Err(name)
  {
    RunOfName(w, segment, name, 1);
    var e := |segment|;
    assert Placeholder(w, segment) == Some(e) && segment[1..e - 1] == name && segment[e..] == "";
    if name in values { assert Quote(values[name]) + "" == Quote(values[name]); }
  }

  /** Where a placeholder fills a whole segment, percent-decoding that segment of the
      rendered path returns the argument. */
  lemma RenderIsInvertible(w: WordClass, s: string, values: map<string, string>, k: nat, name: string)
    requires Proper(w) && Render(w, s, values).Ok?
    requires k < |Split(s)| && WholeSegment(w, Split(s)[k], name)
    ensures var parts := Split(Render(w, s, values).value);
      |parts| == |Split(s)| && name in values && Unquote(parts[k]) == Some(values[name])
  {
    RenderBySegments(w, s, values);
    RenderWholeSegment(w, Split(s)[k], name, values);
    if name in values { QuoteRoundTrip(values[name]); }
  }

  /** Hence two argument maps that render to one path agree on every such placeholder. */
  lemma RenderIsInjective(w: WordClass, s: string, a: map<string, string>, b: map<string, string>, k: nat, name: string)
    requires Proper(w) && Render(w, s, a).Ok? && Render(w, s, a) == Render(w, s, b)
    requires k < |Split(s)| && WholeSegment(w, Split(s)[k], name)
    ensures name in a && name in b && a[name] == b[name]
  {
    RenderIsInvertible(w, s, a, k, name);
    RenderIsInvertible(w, s, b, k, name);
  }
}
