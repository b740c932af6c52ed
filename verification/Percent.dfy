/** Percent-encoding of path arguments, `quote(s, safe="")` (sections 2.1 to 2.3 of RFC 3986),
    over UTF-8 (section 3 of RFC 3629). */
module Percent {
  import opened Prelude

  type Byte = n: nat | n < 256

  // ---------- UTF-8 ----------

  function EncodeChar(c: char): (bs: seq<Byte>)
    ensures 1 <= |bs| <= 4
  {
    var n := c as int;
    if n < 0x80 then [n]
    else if n < 0x800 then [0xC0 + n / 64, 0x80 + n % 64]
    else if n < 0x10000 then [0xE0 + n / 64 / 64, 0x80 + n / 64 % 64, 0x80 + n % 64]
    else [0xF0 + n / 64 / 64 / 64, 0x80 + n / 64 / 64 % 64, 0x80 + n / 64 % 64, 0x80 + n % 64]
  }

  function Encode(s: string): seq<Byte> {
    if s == "" then [] else EncodeChar(s[0]) + Encode(s[1..])
  }

  /** Length of the sequence a lead byte announces; 0 for a byte that cannot lead. */
  function Announced(b: Byte): nat {
    if b < 0x80 then 1
    else if b < 0xC0 then 0
    else if b < 0xE0 then 2
    else if b < 0xF0 then 3
    else if b < 0xF8 then 4
    else 0
  }

  function CodePoint(bs: seq<Byte>): int
    requires 1 <= |bs| <= 4
  {
    if |bs| == 1 then bs[0]
    else if |bs| == 2 then Six(bs[0] as int - 0xC0, bs[1])
    else if |bs| == 3 then Six(Six(bs[0] as int - 0xE0, bs[1]), bs[2])
    else Six(Six(Six(bs[0] as int - 0xF0, bs[1]), bs[2]), bs[3])
  }

  /** Shifts in the six bits of a continuation byte. */
  function Six(high: int, b: Byte): int {
    high * 64 + (b as int - 0x80)
  }

  predicate Scalar(n: int) {
    0 <= n < 0xD800 || 0xE000 <= n <= 0x10FFFF
  }

  function Decode(bs: seq<Byte>): Option<string> {
    if bs == [] then Some("")
    else
      var k := Announced(bs[0]);
      if k == 0 || k > |bs| || !Scalar(CodePoint(bs[..k])) then None
      else match Decode(bs[k..])
           case None => None
           case Some(rest) => Some([CodePoint(bs[..k]) as char] + rest)
  }

  lemma {:induction false} Utf8RoundTrip(s: string)
    ensures Decode(Encode(s)) == Some(s)
  {
    if s != "" {
      var bs, rest := EncodeChar(s[0]), Encode(s[1..]);
      assert (bs + rest)[..|bs|] == bs && (bs + rest)[|bs|..] == rest;
      Utf8RoundTrip(s[1..]);
      assert s == [s[0]] + s[1..];
    }
  }

  // ---------- Percent-encoding ----------

  predicate Unreserved(c: char) {
    'a' <= c <= 'z' || 'A' <= c <= 'Z' || '0' <= c <= '9' || c == '_' || c == '.' || c == '-' || c == '~'
  }

  function Hex(d: nat): char
    requires d < 16
  {
    if d < 10 then '0' + d as char else 'A' + (d - 10) as char
  }

  function HexValue(c: char): Option<nat> {
    if '0' <= c <= '9' then Some(c as int - '0' as int)
    else if 'A' <= c <= 'F' then Some(c as int - 'A' as int + 10)
    else if 'a' <= c <= 'f' then Some(c as int - 'a' as int + 10)
    else None
  }

  function PercentByte(b: Byte): string {
    ['%', Hex(b / 16), Hex(b % 16)]
  }

  function PercentBytes(bs: seq<Byte>): string {
    if bs == [] then "" else PercentByte(bs[0]) + PercentBytes(bs[1..])
  }

  function QuoteChar(c: char): string {
    if Unreserved(c) then [c] else PercentBytes(EncodeChar(c))
  }

  /** `quote(s, safe="")`. */
  function Quote(s: string): string {
    if s == "" then "" else QuoteChar(s[0]) + Quote(s[1..])
  }

  function Unpercent(s: string): Option<seq<Byte>> {
    if s == "" then Some([])
    else if s[0] == '%' then
      if |s| < 3 || HexValue(s[1]).None? || HexValue(s[2]).None? then None
      else match Unpercent(s[3..])
           case None => None
           case Some(rest) => Some([HexValue(s[1]).value * 16 + HexValue(s[2]).value] + rest)
    else if s[0] >= '\U{80}' then None
    else match Unpercent(s[1..])
         case None => None
         case Some(rest) => Some([s[0] as int] + rest)
  }

  /** The text a percent-encoded path segment stands for. */
  function Unquote(s: string): Option<string> {
    match Unpercent(s)
    case None => None
    case Some(bs) => Decode(bs)
  }

  lemma {:induction false} UnpercentByte(b: Byte, tail: string)
    ensures Unpercent(PercentByte(b) + tail)
      == match Unpercent(tail) { case None => None case Some(rest) => Some([b] + rest) }
  {
  }

  lemma {:induction false} PercentBytesRoundTrip(bs: seq<Byte>, rest: string)
    requires Unpercent(rest).Some?
    ensures Unpercent(PercentBytes(bs) + rest) == Some(bs + Unpercent(rest).value)
  {
    hide PercentByte, Unpercent;
    if bs == [] {
      assert PercentBytes(bs) + rest == rest;
      assert bs + Unpercent(rest).value == Unpercent(rest).value;
    } else {
      var tail := PercentBytes(bs[1..]) + rest;
      assert PercentBytes(bs) + rest == PercentByte(bs[0]) + tail;
      UnpercentByte(bs[0], tail);
      PercentBytesRoundTrip(bs[1..], rest);
      assert [bs[0]] + (bs[1..] + Unpercent(rest).value) == bs + Unpercent(rest).value;
    }
  }

  lemma {:induction false} UnpercentQuote(s: string)
    ensures Unpercent(Quote(s)) == Some(Encode(s))
  {
    if s != "" {
      UnpercentQuote(s[1..]);
      var rest := Quote(s[1..]);
      if Unreserved(s[0]) {
        assert ([s[0]] + rest)[1..] == rest;
        assert EncodeChar(s[0]) == [s[0] as int];
      } else {
        PercentBytesRoundTrip(EncodeChar(s[0]), rest);
      }
    }
  }

  /** Encoding any text and decoding it gives the text back. */
  lemma QuoteRoundTrip(s: string)
    ensures Unquote(Quote(s)) == Some(s)
  {
    UnpercentQuote(s);
    Utf8RoundTrip(s);
  }

  lemma {:induction false} QuoteKeepsUnreserved(s: string)
    requires forall c | c in s :: Unreserved(c)
    ensures Quote(s) == s
  {
    if s != "" {
      assert s[0] in s;
      QuoteKeepsUnreserved(s[1..]);
    }
  }

  /** An encoded text is one path segment: only unreserved characters and percent signs. */
  lemma {:induction false} QuoteIsOneSegment(s: string)
    ensures forall c | c in Quote(s) :: Unreserved(c) || c == '%'
  {
    if s != "" {
      QuoteIsOneSegment(s[1..]);
      PercentBytesAreSafe(EncodeChar(s[0]));
    }
  }

  lemma {:induction false} PercentBytesAreSafe(bs: seq<Byte>)
    ensures forall c | c in PercentBytes(bs) :: Unreserved(c) || c == '%'
  {
    if bs != [] {
      PercentBytesAreSafe(bs[1..]);
    }
  }

  lemma {:induction false} QuoteConcat(a: string, b: string)
    ensures Quote(a + b) == Quote(a) + Quote(b)
  {
    if a == "" {
      assert a + b == b;
    } else {
      assert (a + b)[0] == a[0] && (a + b)[1..] == a[1..] + b;
      QuoteConcat(a[1..], b);
    }
  }

  /** Every third character is a percent sign and the two after it are upper-case hex digits. */
  predicate Triplets(s: string) {
    |s| % 3 == 0
    && forall i | 0 <= i < |s| :: if i % 3 == 0 then s[i] == '%' else '0' <= s[i] <= '9' || 'A' <= s[i] <= 'F'
  }

  lemma {:induction false} BytesAreTriplets(bs: seq<Byte>)
    ensures Triplets(PercentBytes(bs)) && |PercentBytes(bs)| == 3 * |bs|
  {
    if bs != [] {
      var rest := PercentBytes(bs[1..]);
      BytesAreTriplets(bs[1..]);
      TripletsCons(PercentByte(bs[0]), rest);
    }
  }

  lemma TripletsCons(a: string, b: string)
    requires |a| == 3 && Triplets(a) && Triplets(b)
    ensures Triplets(a + b)
  {
    forall i | 0 <= i < |a + b|
      ensures if i % 3 == 0 then (a + b)[i] == '%' else '0' <= (a + b)[i] <= '9' || 'A' <= (a + b)[i] <= 'F'
    {
      if i >= 3 { assert (i - 3) % 3 == i % 3 && (a + b)[i] == b[i - 3]; }
    }
  }

  /** Character by character: letters, digits and the four marks of section 2.3 of RFC 3986 stay,
      every other character becomes one triplet for each byte of its UTF-8 form. */
  lemma QuoteMeans(c: char)
    ensures var kept := 'a' <= c <= 'z' || 'A' <= c <= 'Z' || '0' <= c <= '9' || c == '-' || c == '.' || c == '_' || c == '~';
      if kept then Quote([c]) == [c]
      else Triplets(Quote([c])) && |Quote([c])| == 3 * |EncodeChar(c)| && Unquote(Quote([c])) == Some([c])
  {
    BytesAreTriplets(EncodeChar(c));
    QuoteRoundTrip([c]);
    assert [c][1..] == "" && QuoteChar(c) + "" == QuoteChar(c);
  }
}
