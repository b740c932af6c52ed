/** The two quoting schemes of the importer and the way PostgreSQL reads them back
    (sections 4.1.2.1 and 4.1.2.4 of the PostgreSQL documentation). */
module Quoting {
  import opened Prelude
  import opened Text

  // ---------- '...' with doubled quotes ----------

  /** `text.replace("'", "''")`. */
  function Double(text: string): string {
    if text == "" then ""
    else (if text[0] == '\'' then "''" else [text[0]]) + Double(text[1..])
  }

  /** Reads the rest of a string constant whose opening quote has been consumed: the
      constant's value and what follows the closing quote; None when it never closes. */
  function ReadQuoted(s: string): (r: Option<(string, string)>)
    ensures r.Some? ==> |r.value.1| < |s|
  {
    if s == "" then None
    else if s[0] != '\'' then
      match ReadQuoted(s[1..]) {
        case None => None
        case Some((value, rest)) => Some(([s[0]] + value, rest))
      }
    else if |s| > 1 && s[1] == '\'' then
      match ReadQuoted(s[2..]) {
        case None => None
        case Some((value, rest)) => Some(("'" + value, rest))
      }
    else Some(("", s[1..]))
  }

  /** Reading a doubled text up to its closing quote gives the text back, whatever it
      holds, when another quote does not follow at once. */
  lemma {:induction false} QuotedRoundTrip(text: string, rest: string)
    requires rest == "" || rest[0] != '\''
    ensures ReadQuoted(Double(text) + "'" + rest) == Some((text, rest))
  {
    var s := Double(text) + "'" + rest;
    if text == "" {
      assert s == "'" + rest;
      assert s[1..] == rest;
    } else {
      QuotedRoundTrip(text[1..], rest);
      var tail := Double(text[1..]) + "'" + rest;
      if text[0] == '\'' {
        assert s == "''" + tail;
        assert s[2..] == tail;
      } else {
        assert s == [text[0]] + tail;
        assert s[1..] == tail;
      }
      assert [text[0]] + text[1..] == text;
    }
  }

  // ---------- $tag$...$tag$ ----------

  function Xs(n: nat): (s: string)
    ensures |s| == n && forall c | c in s :: c == 'x'
  {
    if n == 0 then "" else Xs(n - 1) + "x"
  }

  /** The n-th tag tried: "", "xx", "xxx", ... */
  function Candidate(n: nat): string {
    if n == 0 then "" else Xs(n + 1)
  }

  function Delimiter(tag: string): string {
    "$" + tag + "$"
  }

  /** The index of the first tag at or after the n-th whose delimiter the text lacks. */
  function FirstFree(text: string, n: nat): (k: nat)
    requires n <= |text| + 1
    ensures n <= k && !Contains(text, Delimiter(Candidate(k)))
    ensures forall j | n <= j < k :: Contains(text, Delimiter(Candidate(j)))
    decreases |text| + 1 - n
  {
    if Contains(text, Delimiter(Candidate(n))) then
      FirstFree(text, n + 1)
    else n
  }

  function Tag(text: string): string {
    Candidate(FirstFree(text, 0))
  }

  function DollarQuoted(text: string): string {
    Delimiter(Tag(text)) + text + Delimiter(Tag(text))
  }

  /** `_dollar_quote`: the tag grows until its delimiter does not occur in the text. */
  method DollarQuote(text: string) returns (quoted: string)
    ensures quoted == DollarQuoted(text)
    ensures !Contains(text, Delimiter(Tag(text)))
  {
    var tag := "";
    ghost var n: nat := 0;
    while Contains(text, "$" + tag + "$")
      invariant n <= |text|
      invariant tag == Candidate(n)
      invariant FirstFree(text, 0) == FirstFree(text, n)
      decreases |text| - |tag|
    {
      assert |tag| < |text| by {
        var i: nat :| i <= |text| && MatchAt(text, "$" + tag + "$", i);
      }
      tag := (if tag == "" then "x" else tag) + "x";
      n := n + 1;
      assert Xs(2) == Xs(1) + "x" && Xs(1) == Xs(0) + "x";
    }
    quoted := "$" + tag + "$" + text + "$" + tag + "$";
    assert quoted == DollarQuoted(text);
  }

  /** Reads the body of a dollar-quoted constant up to the first closing delimiter. */
  function ReadDollarBody(body: string, delimiter: string): (r: Option<(string, string)>)
    ensures r.Some? ==> |r.value.1| <= |body|
  {
    match FirstMatch(body, delimiter, 0)
    case None => None
    case Some(i) => Some((body[..i], body[i + |delimiter|..]))
  }

  predicate EndsWith(text: string, suffix: string) {
    |suffix| <= |text| && text[|text| - |suffix|..] == suffix
  }

  /** The descriptions dollar quoting keeps: those that do not end in `$` and the tag. */
  predicate Survives(text: string) {
    !EndsWith(text, "$" + Tag(text))
  }

  lemma DelimiterShape(n: nat)
    ensures var d := Delimiter(Candidate(n));
      |d| >= 2 && d[0] == '$' && d[|d| - 1] == '$'
      && forall k | 0 < k < |d| - 1 :: d[k] == 'x'
  {
    var d, tag := Delimiter(Candidate(n)), Candidate(n);
    forall k | 0 < k < |d| - 1 ensures d[k] == 'x' {
      assert d[k] == tag[k - 1] && tag[k - 1] in tag;
    }
  }

  /** A delimiter absent from the text can occur before the closing one only by sharing
      that one's first `$`. */
  lemma OverlapIsOneDollar(text: string, n: nat, rest: string, i: nat)
    requires !Contains(text, Delimiter(Candidate(n)))
    requires i < |text|
    ensures var d := Delimiter(Candidate(n));
      MatchAt(text + d + rest, d, i)
      <==> i == |text| + 1 - |d| && EndsWith(text, "$" + Candidate(n))
  {
    var d := Delimiter(Candidate(n));
    var all := text + d + rest;
    DelimiterShape(n);
    var stem := "$" + Candidate(n);
    assert d == stem + "$";
    if MatchAt(all, d, i) {
      if i + |d| <= |text| {
        assert all[i..i + |d|] == text[i..i + |d|];
        assert MatchAt(text, d, i);
      }
      var k := i + |d| - |text|;
      assert all[i..i + |d|][|text| - i] == all[|text|] == '$';
      assert d[|text| - i] == '$';
      assert |text| - i == |d| - 1;
      assert text[i..] == all[i..|text|] == d[..|d| - 1] == stem;
    }
    if i == |text| + 1 - |d| && EndsWith(text, stem) {
      assert all[i..i + |d|] == text[i..] + [all[|text|]];
    }
  }

  /** Dollar quoting is read back whole exactly when the text does not end in `$` followed
      by the tag; otherwise reading stops one stem early. */
  lemma DollarRoundTrip(text: string, rest: string)
    ensures var d := Delimiter(Tag(text));
      ReadDollarBody(text + d + rest, d)
      == if Survives(text) then Some((text, rest))
         else Some((text[..|text| + 1 - |d|], d[1..] + rest))
  {
    var n := FirstFree(text, 0);
    var d := Delimiter(Candidate(n));
    var all := text + d + rest;
    forall i: nat | i < |text|
      ensures MatchAt(all, d, i) <==> i == |text| + 1 - |d| && !Survives(text)
    {
      OverlapIsOneDollar(text, n, rest, i);
    }
    assert all[|text|..|text| + |d|] == d;
    assert MatchAt(all, d, |text|);
    var at := FirstMatch(all, d, 0).value;
    if Survives(text) {
      assert at == |text|;
      assert all[..at] == text && all[at + |d|..] == rest;
    } else {
      assert MatchAt(all, d, |text| + 1 - |d|);
      assert at == |text| + 1 - |d|;
      assert all[..at] == text[..at];
      assert all[at + |d|..] == d[1..] + rest;
    }
  }

  /** A text without `$$` gets the empty tag, and is then lost exactly when it ends in `$`. */
  lemma EmptyTagSurvives(text: string)
    requires !Contains(text, "$$")
    ensures Tag(text) == "" && (Survives(text) <==> text == "" || text[|text| - 1] != '$')
  {
    assert Delimiter(Candidate(0)) == "$$";
  }

  /** Text ending in a dollar sign is cut short. */
  lemma PriceInDollarsIsCut()
    ensures ReadDollarBody("US$" + Delimiter(Tag("US$")), Delimiter(Tag("US$"))) == Some(("US", "$"))
  {
    forall i: nat | i <= 3 ensures !MatchAt("US$", "$$", i) {
      if i + 2 <= 3 { assert "US$"[i..i + 2][0] == "US$"[i] != '$'; }
    }
    EmptyTagSurvives("US$");
    DollarRoundTrip("US$", "");
    var d := Delimiter(Tag("US$"));
    assert d == "$$" && "US$" + d + "" == "US$" + d;
    assert "US$"[..|"US$"| + 1 - |d|] == "US" && d[1..] + "" == "$";
  }
}
