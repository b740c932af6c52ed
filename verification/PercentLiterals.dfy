/** Percent signs in the literal text between two placeholders of a path template. */
module PercentLiterals {
  import opened Prelude
  import opened Percent
  import opened PathTemplate
  import opened PathArguments

  // ---------- Codes of characters ----------

  lemma {:induction false} QuoteConcat(a: string, b: string)
    ensures Quote(a + b) == Quote(a) + Quote(b)
  {
    if a == "" {
      assert a + b == b;
    } else {
      assert (a + b)[0] == a[0] && (a + b)[1..] == a[1..] + b;
      QuoteConcat(a[1..], b);
    }
  }

  lemma QuoteOne(c: char)
    ensures Quote([c]) == QuoteChar(c)
  {
    assert [c][1..] == "" && QuoteChar(c) + "" == QuoteChar(c);
  }

  predicate Continuation(b: Byte) {
    0x80 <= b < 0xC0
  }

  /** The first byte of a character announces its length, the others continue it. */
  lemma EncodedBytes(c: char)
    ensures var bs := EncodeChar(c);
      && !Continuation(bs[0]) && Announced(bs[0]) == |bs|
      && forall i | 1 <= i < |bs| :: Continuation(bs[i])
  {
  }

  lemma {:induction false} PercentShape(bs: seq<Byte>, i: nat)
    requires i < |bs|
    ensures |PercentBytes(bs)| == 3 * |bs|
    ensures PercentBytes(bs)[3 * i..] == PercentByte(bs[i]) + PercentBytes(bs[i + 1..])
    decreases |bs|
  {
    var rest := PercentBytes(bs[1..]);
    if |bs| == 1 {
      assert bs[1..] == [];
    } else {
      PercentShape(bs[1..], if i == 0 then 0 else i - 1);
    }
    if i > 0 {
      assert bs[i + 1..] == bs[1..][i..];
      assert PercentBytes(bs)[3 * i..] == rest[3 * (i - 1)..];
    }
  }

  lemma HexIsPlain(d: nat)
    requires d < 16
    ensures Unreserved(Hex(d))
  {
  }

  lemma PercentIsInjective(a: Byte, b: Byte)
    requires PercentByte(a) == PercentByte(b)
    ensures a == b
  {
    assert PercentByte(a)[1] == PercentByte(b)[1] && PercentByte(a)[2] == PercentByte(b)[2];
  }

  /** An encoded text that starts with a percent sign starts with a character's first byte. */
  lemma FirstByte(y: string, b: Byte, rest: string)
    requires Quote(y) == PercentByte(b) + rest
    ensures !Continuation(b)
    ensures y != "" && !Unreserved(y[0]) && EncodeChar(y[0])[0] == b
  {
    var s := PercentByte(b) + rest;
    assert s[0] == '%';
    var bs := EncodeChar(y[0]);
    EncodedBytes(y[0]);
    PercentShape(bs, 0);
    assert s[..3] == PercentByte(b) && s[..3] == PercentByte(bs[0]);
    PercentIsInjective(b, bs[0]);
  }

  lemma CodeStart(c: char)
    ensures QuoteChar(c) != ""
    ensures if Unreserved(c) then QuoteChar(c) == [c] else QuoteChar(c)[0] == '%'
  {
    if !Unreserved(c) { PercentShape(EncodeChar(c), 0); }
  }

  lemma FirstPlain(y: string, c: char, rest: string)
    requires Unreserved(c) && Quote(y) == [c] + rest
    ensures y != "" && y[0] == c && Quote(y[1..]) == rest
  {
    var s := [c] + rest;
    CodeStart(y[0]);
    assert s[0] == c && s[1..] == rest;
  }

  /** Two codes at the start of one text are one. */
  lemma FirstCode(c: char, d: char, r: string, s: string)
    requires QuoteChar(c) + r == QuoteChar(d) + s
    ensures c == d && r == s
  {
    var all := QuoteChar(c) + r;
    CodeStart(c);
    CodeStart(d);
    if Unreserved(c) || Unreserved(d) {
      assert all[0] == QuoteChar(c)[0] == QuoteChar(d)[0];
      assert all[1..] == r && all[1..] == s;
    } else {
      var a, b := EncodeChar(c), EncodeChar(d);
      PercentShape(a, 0);
      PercentShape(b, 0);
      assert all[..3] == PercentByte(a[0]) && all[..3] == PercentByte(b[0]);
      PercentIsInjective(a[0], b[0]);
      EncodedBytes(c);
      EncodedBytes(d);
      assert all[..3 * |a|] == QuoteChar(c) && all[..3 * |a|] == QuoteChar(d);
      assert all[3 * |a|..] == r && all[3 * |a|..] == s;
      QuoteOne(c);
      QuoteOne(d);
      QuoteIsInjective([c], [d]);
      assert [c][0] == [d][0];
    }
  }

  lemma QuoteCons(x: string, r: string)
    requires x != ""
    ensures 0 < |QuoteChar(x[0])| && |Quote(x)| == |QuoteChar(x[0])| + |Quote(x[1..])|
    ensures Quote(x) + r == QuoteChar(x[0]) + (Quote(x[1..]) + r)
  {
    CodeStart(x[0]);
    hide QuoteChar;
    assert (QuoteChar(x[0]) + Quote(x[1..])) + r == QuoteChar(x[0]) + (Quote(x[1..]) + r);
  }

  lemma EmptyQuote()
    ensures Quote("") == ""
  {
  }

  lemma {:induction false} QuotePrefix(x: string, y: string, r: string, s: string)
    requires Quote(x) + r == Quote(y) + s && |Quote(x)| <= |Quote(y)|
    ensures x <= y
  {
    hide Quote, QuoteChar;
    if x != "" {
      QuoteCons(x, r);
      assert y != "" by { EmptyQuote(); }
      QuoteCons(y, s);
      FirstCode(x[0], y[0], Quote(x[1..]) + r, Quote(y[1..]) + s);
      QuotePrefix(x[1..], y[1..], r, s);
      assert x == [x[0]] + x[1..] && y == [y[0]] + y[1..];
    }
  }

  // ---------- Literals that may be part of an argument ----------

  /** An encoded text and then a character's code cut short, so that what is missing holds no
      percent sign. (The empty text, "20", "%" and "%2" are of this form, "%zz" and "%2f" not.) */
  ghost predicate Stub(mid: string) {
    exists p, c, k: nat :: StubOf(mid, p, c, k)
  }

  predicate StubOf(mid: string, p: string, c: char, k: nat) {
    k < |QuoteChar(c)| && mid == Quote(p) + QuoteChar(c)[..k] && '%' !in QuoteChar(c)[k..]
  }

  lemma {:induction false} CodeIsSafe(c: char)
    ensures forall d | d in QuoteChar(c) :: Unreserved(d) || d == '%'
  {
    QuoteIsOneSegment([c]);
    QuoteOne(c);
  }

  lemma SamePrefix(a: string, b: string, c: string)
    requires a + b == a + c
    ensures b == c
  {
    assert (a + b)[|a|..] == b && (a + c)[|a|..] == c;
  }

  lemma SameStub(s: string, q: string, k: nat)
    requires k <= |q|
    ensures (s + q[..k]) + ((q[k..] + s) + q) == (s + q) + ((s + q[..k]) + q[k..])
  {
    assert q[..k] + q[k..] == q;
  }

  /** The two readings of a stub between two arguments. */
  lemma StubIsAmbiguous(mid: string, p: string, c: char, k: nat)
    requires StubOf(mid, p, c, k)
    ensures var u := QuoteChar(c)[k..];
      Quote("") + (mid + Quote(u + p + [c])) == Quote(p + [c]) + (mid + Quote(u))
  {
    var q := QuoteChar(c);
    var u := q[k..];
    CodeIsSafe(c);
    forall d | d in u ensures Unreserved(d) { assert d in q; }
    QuoteKeepsUnreserved(u);
    QuoteOne(c);
    QuoteConcat(p, [c]);
    QuoteConcat(u + p, [c]);
    QuoteConcat(u, p);
    SameStub(Quote(p), q, k);
    hide QuoteChar;
    assert Quote("") == "" && "" + (mid + Quote(u + p + [c])) == mid + Quote(u + p + [c]);
  }

  /** What is left of a byte's code after its first i characters. */
  function Piece(b: Byte, i: nat): string {
    if i == 0 then PercentByte(b) else if i == 1 then [Hex(b / 16), Hex(b % 16)] else [Hex(b % 16)]
  }

  /** A code cut within its j-th byte leaves the rest of that byte, and more bytes. */
  lemma TailShape(bs: seq<Byte>, j: nat, i: nat)
    requires j < |bs| && i < 3
    ensures |PercentBytes(bs)| == 3 * |bs|
    ensures PercentBytes(bs)[3 * j + i..] == Piece(bs[j], i) + PercentBytes(bs[j + 1..])
  {
    PercentShape(bs, j);
    hide PercentBytes, Hex;
    var more := PercentBytes(bs[j + 1..]);
    var whole := PercentByte(bs[j]) + more;
    assert PercentBytes(bs)[3 * j + i..] == whole[i..] == PercentByte(bs[j])[i..] + more;
  }

  /** Only within its last byte can a code be cut so that the rest begins an encoded text. */
  lemma CutInLastByte(bs: seq<Byte>, j: nat, i: nat, y: string, r: string)
    requires j < |bs| && i < 3 && 0 < 3 * j + i && forall m | 1 <= m < |bs| :: Continuation(bs[m])
    requires Quote(y) == Piece(bs[j], i) + (PercentBytes(bs[j + 1..]) + r)
    ensures i > 0 && j + 1 == |bs|
  {
    hide Quote, PercentByte, Piece, PercentBytes, Continuation;
    var b, more := bs[j], PercentBytes(bs[j + 1..]);
    if i == 0 {
      WholePiece(b);
      FirstByte(y, b, more + r);
    } else if j + 1 < |bs| {
      NextByte(bs, j);
      var last := PercentBytes(bs[j + 2..]) + r;
      assert more + r == PercentByte(bs[j + 1]) + last;
      NoFurtherByte(b, bs[j + 1], i, y, last);
    }
  }

  lemma WholePiece(b: Byte)
    ensures Piece(b, 0) == PercentByte(b)
  {
  }

  lemma NoFurtherByte(b: Byte, next: Byte, i: nat, y: string, last: string)
    requires 1 <= i < 3 && Continuation(next)
    ensures Quote(y) != Piece(b, i) + (PercentByte(next) + last)
  {
    HexIsPlain(b / 16);
    HexIsPlain(b % 16);
    hide Quote, PercentByte, Hex, Unreserved, Continuation;
    var rest, low := PercentByte(next) + last, [Hex(b % 16)];
    if i == 2 {
      NoSecondByte(y, Hex(b % 16), next, last);
    } else if Quote(y) == Piece(b, i) + rest {
      assert Piece(b, 1) + rest == [Hex(b / 16)] + (low + rest);
      FirstPlain(y, Hex(b / 16), low + rest);
      NoSecondByte(y[1..], Hex(b % 16), next, last);
    }
  }

  lemma BytesTailIsPlain(bs: seq<Byte>, j: nat, i: nat, y: string, r: string)
    requires j < |bs| && i < 3 && 0 < 3 * j + i && forall m | 1 <= m < |bs| :: Continuation(bs[m])
    requires 3 * j + i <= |PercentBytes(bs)| && Quote(y) == PercentBytes(bs)[3 * j + i..] + r
    ensures '%' !in PercentBytes(bs)[3 * j + i..]
  {
    hide *;
    TailShape(bs, j, i);
    var piece, more := Piece(bs[j], i), PercentBytes(bs[j + 1..]);
    assert (piece + more) + r == piece + (more + r);
    CutInLastByte(bs, j, i, y, r);
    NoBytes();
    assert bs[j + 1..] == [] && piece + more == piece;
    PieceIsPlain(bs[j], i);
  }

  /** What is left of a code, when it begins an encoded text, holds no percent sign. */
  lemma TailIsPlain(c: char, k: nat, y: string, r: string)
    requires 0 < k < |QuoteChar(c)| && Quote(y) == QuoteChar(c)[k..] + r
    ensures '%' !in QuoteChar(c)[k..]
  {
    hide Quote, EncodeChar, PercentBytes;
    EncodedBytes(c);
    PercentShape(EncodeChar(c), 0);
    BytesTailIsPlain(EncodeChar(c), k / 3, k % 3, y, r);
  }

  lemma PieceIsPlain(b: Byte, i: nat)
    requires i > 0
    ensures '%' !in Piece(b, i)
  {
    HexIsPlain(b / 16);
    HexIsPlain(b % 16);
  }

  lemma NoBytes()
    ensures PercentBytes([]) == ""
  {
  }

  lemma NextByte(bs: seq<Byte>, j: nat)
    requires j + 1 < |bs|
    ensures PercentBytes(bs[j + 1..]) == PercentByte(bs[j + 1]) + PercentBytes(bs[j + 2..])
  {
    assert bs[j + 1..][1..] == bs[j + 2..];
  }

  lemma NoSecondByte(y: string, h: char, b: Byte, rest: string)
    requires Unreserved(h) && Continuation(b)
    ensures Quote(y) != [h] + (PercentByte(b) + rest)
  {
    if Quote(y) == [h] + (PercentByte(b) + rest) {
      FirstPlain(y, h, PercentByte(b) + rest);
      FirstByte(y[1..], b, rest);
    }
  }

  lemma Shift(q: string, later: string, t: string, u: string, v: string)
    requires (q + later) + v == q + (t + ((q + later) + u))
    ensures later + v == (t + q) + (later + u)
  {
    assert (q + later) + v == q + (later + v);
    SamePrefix(q, later + v, t + ((q + later) + u));
    assert t + ((q + later) + u) == (t + q) + (later + u);
  }

  lemma CodeIsStub(c: char, k: nat)
    requires (c == 'a' && k == 0) || (k < |QuoteChar(c)| && '%' !in QuoteChar(c)[k..])
    ensures k <= |QuoteChar(c)| && Stub(QuoteChar(c)[..k])
  {
    assert Quote("") == "" && "" + QuoteChar(c)[..k] == QuoteChar(c)[..k];
    assert StubOf(QuoteChar(c)[..k], "", c, k);
  }

  /** A literal that reads the same a whole encoded text later is a stub. */
  lemma {:induction false} Overlap(mid: string, z: string, y: string, y': string)
    requires z != "" && mid + Quote(y) == Quote(z) + (mid + Quote(y'))
    ensures Stub(mid)
    decreases |mid|
  {
    hide Quote, QuoteChar, Stub;
    var c := z[0];
    var q := QuoteChar(c);
    QuoteCons(z, mid + Quote(y'));
    CodeStart(c);
    var s := mid + Quote(y);
    if mid == "" {
      CodeIsStub('a', 0);
    } else if |mid| < |q| {
      assert mid == s[..|mid|] == q[..|mid|];
      var r := Quote(z[1..]) + (mid + Quote(y'));
      assert Quote(y) == s[|mid|..] == q[|mid|..] + r;
      TailIsPlain(c, |mid|, y, r);
      CodeIsStub(c, |mid|);
    } else {
      var later := mid[|q|..];
      assert mid == q + later by { assert mid[..|q|] == s[..|q|] == q; }
      QuoteConcat(z[1..], [c]);
      QuoteOne(c);
      Shift(q, later, Quote(z[1..]), Quote(y'), Quote(y));
      Overlap(later, z[1..] + [c], y, y');
      StubGrows(c, later);
    }
  }

  lemma StubGrows(c: char, later: string)
    requires Stub(later)
    ensures Stub(QuoteChar(c) + later)
  {
    hide Quote, QuoteChar;
    var p, d, k: nat :| StubOf(later, p, d, k);
    QuoteConcat([c], p);
    QuoteOne(c);
    assert QuoteChar(c) + (Quote(p) + QuoteChar(d)[..k]) == (QuoteChar(c) + Quote(p)) + QuoteChar(d)[..k];
    assert StubOf(QuoteChar(c) + later, [c] + p, d, k);
  }

  /** Two ways to read one path through the literal: the arguments are the same, or the literal
      is a stub. */
  lemma SameOrStub(mid: string, x: string, y: string, x': string, y': string)
    requires Quote(x) + (mid + Quote(y)) == Quote(x') + (mid + Quote(y')) && |Quote(x)| <= |Quote(x')|
    ensures Stub(mid) || (x == x' && y == y')
  {
    hide Quote, Stub;
    QuotePrefix(x, x', mid + Quote(y), mid + Quote(y'));
    var z := x'[|x|..];
    assert x' == x + z;
    QuoteConcat(x, z);
    if z == "" {
      assert x' == x;
      SamePrefix(Quote(x), mid + Quote(y), mid + Quote(y'));
      SamePrefix(mid, Quote(y), Quote(y'));
      QuoteIsInjective(y, y');
    } else {
      assert (Quote(x) + Quote(z)) + (mid + Quote(y')) == Quote(x) + (Quote(z) + (mid + Quote(y')));
      SamePrefix(Quote(x), mid + Quote(y), Quote(z) + (mid + Quote(y')));
      Overlap(mid, z, y, y');
    }
  }

  /** Two placeholders with any literal between them, percent signs included: the path determines
      both arguments exactly when the literal is no stub. */
  lemma DeterminedIffNoStub(w: WordClass, before: string, x: string, mid: string, y: string, after: string)
    requires Proper(w) && x != y && WellFormed(w, before, [Part(x, mid), Part(y, after)])
    ensures Determined(w, before, [Part(x, mid), Part(y, after)]) <==> !Stub(mid)
  {
    hide Render, Template, Quote, QuoteChar, WellFormed, Proper;
    var p, q := Part(x, mid), Part(y, after);
    var parts := [p, q];
    if Stub(mid) {
      var t, c, k: nat :| StubOf(mid, t, c, k);
      StubIsAmbiguous(mid, t, c, k);
      var u := QuoteChar(c)[k..];
      var a, b := map[x := "", y := u + t + [c]], map[x := t + [c], y := u];
      TwoPaths(w, before, p, q, a);
      TwoPaths(w, before, p, q, b);
      assert !SameArguments(a, b, parts) by { assert parts[0] == p && |t + [c]| > 0; }
    } else {
      forall a: map<string, string>, b: map<string, string> |
        Covers(a, parts) && Covers(b, parts)
        && Render(w, Template(before, parts), a) == Render(w, Template(before, parts), b)
        ensures SameArguments(a, b, parts)
      {
        assert parts[0] == p && parts[1] == q;
        TwoPaths(w, before, p, q, a);
        TwoPaths(w, before, p, q, b);
        SameMiddle(before, after, Quote(a[x]) + (mid + Quote(a[y])), Quote(b[x]) + (mid + Quote(b[y])));
        if |Quote(a[x])| <= |Quote(b[x])| {
          SameOrStub(mid, a[x], a[y], b[x], b[y]);
        } else {
          SameOrStub(mid, b[x], b[y], a[x], a[y]);
        }
      }
    }
  }

  lemma SameMiddle(before: string, after: string, s: string, t: string)
    requires before + s + after == before + t + after
    ensures s == t
  {
    var all := before + s + after;
    assert |s| == |t| && s == all[|before|..|before| + |s|] && t == all[|before|..|before| + |s|];
  }

  lemma TwoPaths(w: WordClass, before: string, p: Part, q: Part, values: map<string, string>)
    requires Proper(w) && WellFormed(w, before, [p, q]) && p.name in values && q.name in values
    ensures Covers(values, [p, q])
    ensures Render(w, Template(before, [p, q]), values)
      == Ok(before + (Quote(values[p.name]) + (p.after + Quote(values[q.name]))) + q.after)
  {
    hide Render, Quote, PathText;
    var parts := [p, q];
    assert parts[0] == p && parts[1] == q;
    RenderTemplate(w, before, parts, values);
    TwoParts(p, q, values);
    var a, b := Quote(values[p.name]), Quote(values[q.name]);
    assert before + (a + (p.after + (b + q.after))) == before + (a + (p.after + b)) + q.after;
  }

  /** `{x}%{y}`: ("", "2F/") and ("/", "2F") both give `%2F%2F`. */
  lemma PercentIsAmbiguous()
    ensures Stub("%")
    ensures Quote("") + ("%" + Quote("2F/")) == "%2F%2F" == Quote("/") + ("%" + Quote("2F"))
  {
    assert EncodeChar('/') == [0x2F];
    var bs: seq<Byte> := [0x2F];
    assert bs[1..] == [] && PercentByte(0x2F) == "%2F" && PercentBytes(bs) == "%2F" + "";
    assert QuoteChar('/') == "%2F";
    assert StubOf("%", "", '/', 1) by { assert "%2F"[..1] == "%" && "%2F"[1..] == "2F" && "" + "%" == "%"; }
    StubIsAmbiguous("%", "", '/', 1);
    assert "2F" + "" + ['/'] == "2F/" && "" + ['/'] == "/";
    QuoteOne('/');
    QuoteKeepsUnreserved("2F");
    assert "%2F" + ("%" + "2F") == "%2F%2F";
  }
}
