/** Server-sent event frames: what the stream endpoint writes and what the proxy reads. */
module Sse {
  import opened Prelude

  // ---------- Lines and blanks as Python sees them ----------

  /** A character `splitlines` ends a line at. */
  predicate Boundary(c: char) {
    '\n' <= c <= '\r' || '\U{1C}' <= c <= '\U{1E}' || c == '\U{85}' || c == '\U{2028}' || c == '\U{2029}'
  }

  /** A character `strip` and `lstrip` remove. */
  predicate Blank(c: char) {
    '\t' <= c <= '\r' || '\U{1C}' <= c <= '\U{20}' || c == '\U{85}' || c == '\U{A0}' || c == '\U{1680}'
    || '\U{2000}' <= c <= '\U{200A}' || c == '\U{2028}' || c == '\U{2029}' || c == '\U{202F}'
    || c == '\U{205F}' || c == '\U{3000}'
  }

  /** Length of the line `s` begins with. */
  function LineLength(s: string): (n: nat)
    ensures n <= |s|
    ensures forall k | 0 <= k < n :: !Boundary(s[k])
    ensures n < |s| ==> Boundary(s[n])
  {
    if s == "" || Boundary(s[0]) then 0 else 1 + LineLength(s[1..])
  }

  /** Where the next line begins; "\r\n" ends one line. */
  function NextLine(s: string): (n: nat)
    requires LineLength(s) < |s|
    ensures LineLength(s) < n <= |s|
  {
    var n := LineLength(s);
    if s[n] == '\r' && n + 1 < |s| && s[n + 1] == '\n' then n + 2 else n + 1
  }

  /** `s.splitlines()`. */
  function SplitLines(s: string): seq<string>
    decreases |s|
  {
    if s == "" then []
    else if LineLength(s) == |s| then [s]
    else [s[..LineLength(s)]] + SplitLines(s[NextLine(s)..])
  }

  function LStrip(s: string): string {
    if s != "" && Blank(s[0]) then LStrip(s[1..]) else s
  }

  predicate AllBlank(s: string) {
    forall c | c in s :: Blank(c)
  }

  function Joined(parts: seq<string>): string {
    if parts == [] then "" else parts[0] + Joined(parts[1..])
  }

  // ---------- The decoder ----------

  const DATA := "data:"

  predicate IsData(line: string) {
    DATA <= line
  }

  /** A comment or blank line. */
  predicate Stops(line: string) {
    ":" <= line || AllBlank(line)
  }

  function Field(line: string): string
    requires IsData(line)
  {
    LStrip(line[|DATA|..])
  }

  function FirstData(lines: seq<string>, i: nat): (k: nat)
    requires i <= |lines|
    ensures i <= k <= |lines|
    ensures k < |lines| ==> IsData(lines[k])
    ensures forall j | i <= j < k :: !IsData(lines[j])
    decreases |lines| - i
  {
    if i == |lines| || IsData(lines[i]) then i else FirstData(lines, i + 1)
  }

  function FirstStop(lines: seq<string>, i: nat): (k: nat)
    requires i <= |lines|
    ensures i <= k <= |lines|
    ensures k < |lines| ==> Stops(lines[k])
    ensures forall j | i <= j < k :: !Stops(lines[j])
    decreases |lines| - i
  {
    if i == |lines| || Stops(lines[i]) then i else FirstStop(lines, i + 1)
  }

  /** The data fields among some lines, each stripped on the left. */
  function Fields(lines: seq<string>): seq<string> {
    if lines == [] then []
    else Fields(lines[..|lines| - 1])
         + (if IsData(lines[|lines| - 1]) then [Field(lines[|lines| - 1])] else [])
  }

  /** The lines that are read: from the first data line to the first stop after it. */
  function Block(lines: seq<string>): seq<string> {
    var from := FirstData(lines, 0);
    lines[from..FirstStop(lines, from)]
  }

  /** The text the decoder hands to the JSON parser; None when there is no data line. */
  function Payload(body: string): Option<string> {
    var fields := Fields(Block(SplitLines(body)));
    if fields == [] then None else Some(Joined(fields))
  }

  lemma DataDoesNotStop(line: string)
    requires IsData(line)
    ensures !Stops(line)
  {
    assert line[0] == 'd' && line[0] in line;
  }

  /** `_parse_sse_envelope` up to the JSON parser: the loop collects exactly the fields of the
      block. */
  method ParseEnvelope(body: string) returns (r: Option<string>)
    ensures r == Payload(body)
  {
    var lines := SplitLines(body);
    var chunks: seq<string> := [];
    var i := 0;
    ghost var from := FirstData(lines, 0);
    ghost var to := FirstStop(lines, from);
    while i < |lines|
      invariant 0 <= i <= |lines|
      invariant i <= from ==> chunks == []
      invariant i > from ==> i <= to && chunks == Fields(lines[from..i]) && chunks != []
    {
      var line := lines[i];
      if ":" <= line || (forall c | c in line :: Blank(c)) {
        if i < from {
        } else if i == from {
          DataDoesNotStop(line);
        } else {
          assert i == to;
        }
        if chunks != [] {
          break;
        }
      } else if DATA <= line {
        chunks := chunks + [LStrip(line[|DATA|..])];
        assert i >= from ==> lines[from..i + 1][..i - from] == lines[from..i];
      } else {
        assert i > from ==> lines[from..i + 1][..i - from] == lines[from..i];
      }
      i := i + 1;
    }
    assert chunks == Fields(lines[from..to]) by {
      if i <= from { assert lines[from..to] == []; }
    }
    if chunks == [] {
      return None;
    }
    return Some(Joined(chunks));
  }

  // ---------- The encoder, and back ----------

  /** `_sse_event` of an event name and a printed payload. */
  function Frame(event: string, payload: string): string {
    "event: " + event + "\n" + ("data: " + payload + "\n\n")
  }

  predicate OneLine(s: string) {
    forall c | c in s :: !Boundary(c)
  }

  lemma {:induction false} LineLengthOf(line: string, rest: string)
    requires OneLine(line) && (rest == "" || Boundary(rest[0]))
    ensures LineLength(line + rest) == |line|
  {
    if line == "" {
      assert line + rest == rest;
    } else {
      assert line[0] in line;
      assert (line + rest)[1..] == line[1..] + rest;
      LineLengthOf(line[1..], rest);
    }
  }

  lemma SplitAt(line: string, c: char, rest: string)
    requires OneLine(line) && Boundary(c) && c != '\r'
    ensures SplitLines(line + [c] + rest) == [line] + SplitLines(rest)
  {
    var s := line + [c] + rest;
    assert s == line + ([c] + rest);
    LineLengthOf(line, [c] + rest);
    assert s[..|line|] == line && s[|line|] == c && s[|line| + 1..] == rest;
  }

  /** No line holds a line boundary. */
  lemma {:induction false} LinesAreOneLine(s: string)
    ensures forall l | l in SplitLines(s) :: OneLine(l)
    decreases |s|
  {
    if s != "" {
      var n := LineLength(s);
      forall c | c in s[..n] ensures !Boundary(c) {
        var k :| 0 <= k < n && s[k] == c;
      }
      if n == |s| {
        assert s[..n] == s;
      } else {
        LinesAreOneLine(s[NextLine(s)..]);
      }
    }
  }

  lemma {:induction false} LStripShortens(s: string)
    ensures |LStrip(s)| <= |s| && s[|s| - |LStrip(s)|..] == LStrip(s)
    ensures LStrip(s) == s <==> s == "" || !Blank(s[0])
  {
    if s != "" && Blank(s[0]) { LStripShortens(s[1..]); }
  }

  lemma {:induction false} FieldsAreOneLine(lines: seq<string>)
    requires forall l | l in lines :: OneLine(l)
    ensures OneLine(Joined(Fields(lines)))
  {
    if lines != [] {
      var init, last := lines[..|lines| - 1], lines[|lines| - 1];
      assert last in lines;
      FieldsAreOneLine(init);
      if IsData(last) {
        LStripShortens(last[|DATA|..]);
        JoinedSnoc(Fields(init), Field(last));
      } else {
        assert Fields(init) + [] == Fields(init);
      }
    }
  }

  lemma {:induction false} JoinedSnoc(parts: seq<string>, part: string)
    ensures Joined(parts + [part]) == Joined(parts) + part
  {
    if parts == [] {
      assert [part][1..] == [] && part + "" == part;
    } else {
      assert (parts + [part])[1..] == parts[1..] + [part];
      JoinedSnoc(parts[1..], part);
      assert parts[0] + (Joined(parts[1..]) + part) == parts[0] + Joined(parts[1..]) + part;
    }
  }

  /** What is read never holds a line boundary. */
  lemma PayloadIsOneLine(body: string)
    ensures Payload(body).Some? ==> OneLine(Payload(body).value)
  {
    LinesAreOneLine(body);
    var block := Block(SplitLines(body));
    forall l | l in block ensures OneLine(l) { assert l in SplitLines(body); }
    FieldsAreOneLine(block);
  }

  // ---------- Events of any number of lines ----------

  /** Lines, the empty line that ends the event, and what follows. */
  function LinesText(lines: seq<string>, rest: string): string {
    if lines == [] then "" + "\n" + rest else lines[0] + "\n" + LinesText(lines[1..], rest)
  }

  function DataLines(values: seq<string>): seq<string> {
    if values == [] then [] else [DATA + values[0]] + DataLines(values[1..])
  }

  /** The values of the data lines. */
  function DataOf(lines: seq<string>): seq<string> {
    if lines == [] then []
    else (if IsData(lines[0]) then [lines[0][|DATA|..]] else []) + DataOf(lines[1..])
  }

  predicate AllOneLine(lines: seq<string>) {
    forall l | l in lines :: OneLine(l)
  }

  lemma FrameIsEvent(event: string, payload: string, rest: string)
    ensures Frame(event, payload) + rest == LinesText(["event: " + event, "data: " + payload], rest)
  {
    var lines, last := ["event: " + event, "data: " + payload], ["data: " + payload];
    assert lines[1..] == last && last[1..] == [];
    assert LinesText([], rest) == "\n" + rest && "\n\n" == "\n" + "\n";
    assert LinesText(last, rest) == "data: " + payload + "\n" + ("\n" + rest);
  }

  lemma {:induction false} SplitEvent(lines: seq<string>, rest: string)
    requires AllOneLine(lines)
    ensures SplitLines(LinesText(lines, rest)) == lines + [""] + SplitLines(rest)
  {
    hide SplitLines;
    if lines == [] {
      SplitAt("", '\n', rest);
      assert "" + "\n" + rest == "" + ['\n'] + rest;
    } else {
      assert lines[0] in lines && lines == [lines[0]] + lines[1..];
      SplitEvent(lines[1..], rest);
      SplitAt(lines[0], '\n', LinesText(lines[1..], rest));
    }
  }

  lemma {:induction false} BlockEnds(lines: seq<string>, values: seq<string>, from: nat)
    requires from + |values| < |lines| && Stops(lines[from + |values|])
    requires lines[from..from + |values|] == DataLines(values)
    ensures FirstStop(lines, from) == from + |values|
    decreases |values|
  {
    if values != [] {
      assert lines[from] == lines[from..from + |values|][0] == DATA + values[0];
      DataDoesNotStop(lines[from]);
      assert lines[from + 1..from + |values|] == lines[from..from + |values|][1..];
      BlockEnds(lines, values[1..], from + 1);
    }
  }

  lemma {:induction false} DataLinesLength(values: seq<string>)
    ensures |DataLines(values)| == |values|
  {
    if values != [] { DataLinesLength(values[1..]); }
  }

  lemma EventBlock(event: string, values: seq<string>, later: seq<string>)
    requires values != []
    ensures Block(["event: " + event] + DataLines(values) + [""] + later) == DataLines(values)
  {
    var first := "event: " + event;
    var lines := [first] + DataLines(values) + [""] + later;
    DataLinesLength(values);
    assert lines[0] == first && first[0] == 'e';
    assert lines[1] == DATA + values[0] && FirstData(lines, 1) == 1 && FirstData(lines, 0) == 1;
    assert lines[1..1 + |values|] == DataLines(values) && lines[1 + |values|] == "";
    BlockEnds(lines, values, 1);
  }

  function Stripped(values: seq<string>): seq<string> {
    if values == [] then [] else [LStrip(values[0])] + Stripped(values[1..])
  }

  lemma {:induction false} FieldsCons(line: string, lines: seq<string>)
    requires IsData(line)
    ensures Fields([line] + lines) == [Field(line)] + Fields(lines)
  {
    var all := [line] + lines;
    if lines != [] {
      assert all[..|all| - 1] == [line] + lines[..|lines| - 1];
      FieldsCons(line, lines[..|lines| - 1]);
    } else {
      assert all[..|all| - 1] == [];
    }
  }

  lemma {:induction false} FieldsOfData(lines: seq<string>)
    ensures Fields(lines) == Stripped(DataOf(lines))
  {
    if lines != [] {
      var first, later := lines[0], lines[1..];
      assert lines == [first] + later;
      FieldsOfData(later);
      if IsData(first) {
        FieldsCons(first, later);
      } else {
        FieldsSkip(first, later);
        assert DataOf(lines) == DataOf(later);
      }
    }
  }

  lemma {:induction false} FieldsSkip(line: string, lines: seq<string>)
    requires !IsData(line)
    ensures Fields([line] + lines) == Fields(lines)
  {
    var all := [line] + lines;
    if lines != [] {
      assert all[..|all| - 1] == [line] + lines[..|lines| - 1];
      FieldsSkip(line, lines[..|lines| - 1]);
    } else {
      assert all[..|all| - 1] == [];
    }
  }

  lemma {:induction false} DataOfData(values: seq<string>)
    ensures DataOf(DataLines(values)) == values
  {
    if values != [] {
      var line, lines := DATA + values[0], DataLines(values);
      assert line[..|DATA|] == DATA && line[|DATA|..] == values[0];
      assert lines[1..] == DataLines(values[1..]);
      DataOfData(values[1..]);
    }
  }

  lemma {:induction false} DataConcat(a: seq<string>, b: seq<string>)
    ensures DataOf(a + b) == DataOf(a) + DataOf(b)
  {
    if a == [] {
      assert a + b == b;
    } else {
      assert (a + b)[0] == a[0] && (a + b)[1..] == a[1..] + b;
      DataConcat(a[1..], b);
    }
  }

  lemma {:induction false} NoDataBefore(lines: seq<string>)
    requires forall l | l in lines :: !IsData(l)
    ensures DataOf(lines) == []
  {
    if lines != [] {
      assert lines == [lines[0]] + lines[1..];
      NoDataBefore(lines[1..]);
    }
  }

  /** The proxy joins the data lines of an event with nothing. */
  lemma ProxyJoinsWithNothing(event: string, values: seq<string>, rest: string)
    requires OneLine(event) && AllOneLine(values) && values != []
    ensures Payload(LinesText(["event: " + event] + DataLines(values), rest)) == Some(Joined(Stripped(values)))
  {
    hide SplitLines, Block, Fields;
    assert forall c | c in "event: " :: !Boundary(c);
    var lines := ["event: " + event] + DataLines(values);
    DataLinesAreLines(values);
    SplitEvent(lines, rest);
    EventBlock(event, values, SplitLines(rest));
    DataOfData(values);
    FieldsOfData(DataLines(values));
  }

  lemma {:induction false} DataLinesAreLines(values: seq<string>)
    requires AllOneLine(values)
    ensures AllOneLine(DataLines(values))
  {
    if values != [] {
      assert values == [values[0]] + values[1..] && values[0] in values;
      DataLinesAreLines(values[1..]);
      assert OneLine(DATA) && OneLine(DATA + values[0]);
      forall l | l in DataLines(values) ensures OneLine(l) {
        assert l == DATA + values[0] || l in DataLines(values[1..]);
      }
    }
  }

  /** Of an event with one data line the proxy reads that line, whatever other fields and comments
      stand around it. */
  lemma OneDataLineIsRead(lines: seq<string>, rest: string)
    requires AllOneLine(lines) && |DataOf(lines)| == 1
    ensures Payload(LinesText(lines, rest)) == Some(LStrip(DataOf(lines)[0]))
  {
    hide SplitLines, Fields, LinesText, Block;
    SplitEvent(lines, rest);
    var block, v := Block(lines + [""] + SplitLines(rest)), DataOf(lines)[0];
    OneDataLineBlock(lines, SplitLines(rest));
    FieldsOfData(block);
    assert DataOf(block) == [v] && Stripped([v]) == [LStrip(v)];
    JoinedSnoc([], LStrip(v));
    assert [] + [LStrip(v)] == [LStrip(v)] && "" + LStrip(v) == LStrip(v);
  }

  lemma DataIsBefore(lines: seq<string>, later: seq<string>)
    requires DataOf(lines) != []
    ensures var k := FirstData(lines + [""] + later, 0);
      k < |lines| && DataOf(lines[..k]) == []
  {
    hide IsData;
    var all := lines + [""] + later;
    var k := FirstData(all, 0);
    assert forall i | 0 <= i < k && i < |lines| :: all[i] == lines[i];
    NoDataBefore(if k < |lines| then lines[..k] else lines);
  }

  lemma OneDataLineBlock(lines: seq<string>, later: seq<string>)
    requires |DataOf(lines)| == 1
    ensures DataOf(Block(lines + [""] + later)) == DataOf(lines)
  {
    hide Stops, IsData;
    var all := lines + [""] + later;
    DataIsBefore(lines, later);
    var k := FirstData(all, 0);
    assert all[k] == lines[k] && all[|lines|] == "";
    DataDoesNotStop(lines[k]);
    EmptyStops();
    var m := FirstStop(all, k);
    assert k < m <= |lines|;
    var before, block, after := lines[..k], lines[k..m], lines[m..];
    assert lines == before + (block + after) && all[k..m] == block && block[0] == lines[k];
    DataConcat(before, block + after);
    DataConcat(block, after);
  }

  lemma EmptyStops()
    ensures Stops("")
  {
  }

  lemma FramePayload(event: string, payload: string, rest: string)
    requires OneLine(event) && OneLine(payload)
    ensures Payload(Frame(event, payload) + rest) == Some(LStrip(payload))
  {
    hide Payload, Frame, LinesText;
    FrameIsEvent(event, payload, rest);
    FrameData(event, payload);
    assert OneLine("event: ") && OneLine("data: ");
    OneDataLineIsRead(["event: " + event, "data: " + payload], rest);
    assert (" " + payload)[1..] == payload;
  }

  lemma FrameData(event: string, payload: string)
    ensures DataOf(["event: " + event, "data: " + payload]) == [" " + payload]
  {
    var first, line := "event: " + event, "data: " + payload;
    var lines, last, none: seq<string> := [first, line], [line], [];
    assert lines[1..] == last && last[1..] == none;
    assert first[0] == 'e' && line[..|DATA|] == DATA && line[|DATA|..] == " " + payload;
    assert DataOf(none) == [] && DataOf(last) == [" " + payload] && DataOf(lines) == [] + DataOf(last);
  }

  /** A comment ends the reading, where the standard reads on. */
  lemma CommentEndsReading(value: string, comment: string, rest: string)
    requires OneLine(value) && OneLine(comment)
    ensures Payload(DATA + value + "\n" + (":" + comment + "\n" + rest)) == Some(LStrip(value))
  {
    hide SplitLines;
    assert OneLine(DATA) && OneLine(":");
    var line, stop := DATA + value, ":" + comment;
    SplitAt(line, '\n', stop + "\n" + rest);
    SplitAt(stop, '\n', rest);
    assert stop + "\n" + rest == stop + ['\n'] + rest && line + "\n" + (stop + "\n" + rest) == line + ['\n'] + (stop + "\n" + rest);
    var lines := [line] + ([stop] + SplitLines(rest));
    assert line[..|DATA|] == DATA && line[|DATA|..] == value && stop[..1] == ":";
    assert lines[0] == line && lines[1] == stop && FirstData(lines, 0) == 0;
    DataDoesNotStop(line);
    assert FirstStop(lines, 1) == 1 && FirstStop(lines, 0) == 1 && lines[0..1] == [line];
    FieldsCons(line, []);
    assert [line] + [] == [line];
    JoinedSnoc([], LStrip(value));
    assert [] + [LStrip(value)] == [LStrip(value)] && "" + LStrip(value) == LStrip(value);
  }

  /** Reading a frame the stream endpoint wrote, whatever follows it, gives the payload back
      exactly when the payload holds no line boundary and does not begin with a blank.
      (`json.dumps` with `ensure_ascii=False` leaves U+0085, U+2028 and U+2029 raw.) */
  lemma FrameRoundTrip(event: string, payload: string, rest: string)
    requires OneLine(event)
    ensures Payload(Frame(event, payload) + rest) == Some(payload)
      <==> OneLine(payload) && (payload == "" || !Blank(payload[0]))
  {
    hide Payload, Frame;
    PayloadIsOneLine(Frame(event, payload) + rest);
    if OneLine(payload) {
      FramePayload(event, payload, rest);
      LStripShortens(payload);
    }
  }

  /** A payload that holds a line boundary the encoder leaves raw is cut there, unless what
      follows looks like another data line. */
  lemma SeparatorCuts(event: string, a: string, c: char, b: string, rest: string)
    requires OneLine(event) && OneLine(a) && OneLine(b) && !IsData(b)
    requires Boundary(c) && c != '\r'
    ensures Payload(Frame(event, a + [c] + b) + rest) == Some(LStrip(a))
  {
    hide SplitLines, Fields, Block;
    CutLines(event, a, c, b, rest);
    var first, second, v := "event: " + event, "data: " + a, " " + a;
    assert first[0] == 'e' && second[..|DATA|] == DATA;
    CutBlock(first, second, b, SplitLines(rest));
    assert second[|DATA|..] == v && v[1..] == a;
    JoinedSnoc([], LStrip(a));
    assert [] + [LStrip(a)] == [LStrip(a)] && "" + LStrip(a) == LStrip(a);
  }

  lemma CutLines(event: string, a: string, c: char, b: string, rest: string)
    requires OneLine(event) && OneLine(a) && OneLine(b) && Boundary(c) && c != '\r'
    ensures SplitLines(Frame(event, a + [c] + b) + rest)
      == ["event: " + event, "data: " + a, b, ""] + SplitLines(rest)
  {
    hide SplitLines;
    var first, second := "event: " + event, "data: " + a;
    var tail := b + ['\n'] + ("" + ['\n'] + rest);
    assert Frame(event, a + [c] + b) + rest == first + ['\n'] + (second + [c] + tail) by {
      assert "\n\n" == ['\n'] + ['\n'];
    }
    assert OneLine("event: ") && OneLine("data: ");
    SplitAt(first, '\n', second + [c] + tail);
    SplitAt(second, c, tail);
    SplitAt(b, '\n', "" + ['\n'] + rest);
    SplitAt("", '\n', rest);
    assert [first] + ([second] + ([b] + ([""] + SplitLines(rest)))) == [first, second, b, ""] + SplitLines(rest);
  }

  lemma CutBlock(first: string, second: string, b: string, later: seq<string>)
    requires !IsData(first) && IsData(second) && !IsData(b)
    ensures Fields(Block([first, second, b, ""] + later)) == [Field(second)]
  {
    var lines := [first, second, b, ""] + later;
    assert lines[0] == first && lines[1] == second && lines[2] == b && lines[3] == "";
    assert FirstData(lines, 1) == 1 && FirstData(lines, 0) == 1;
    DataDoesNotStop(second);
    assert FirstStop(lines, 3) == 3 && FirstStop(lines, 1) == FirstStop(lines, 2);
    assert lines[1..2] == [second] && lines[1..3] == [second, b];
    FieldsCons(second, []);
    FieldsCons(second, [b]);
    assert [second] + [] == [second] && [second] + [b] == [second, b];
    assert [b][..0] == [];
  }

  /** A payload with U+2028 in it: only what comes before is read. */
  lemma LineSeparatorIsLost()
    ensures Payload(Frame("message", "a\U{2028}b")) == Some("a")
  {
    SeparatorCuts("message", "a", '\U{2028}', "b", "");
    assert "a" + ['\U{2028}'] + "b" == "a\U{2028}b";
    assert Frame("message", "a\U{2028}b") + "" == Frame("message", "a\U{2028}b");
  }

  // ---------- Contrast with the standard ----------

  /** The line ends of section 9.2.6 of the HTML Living Standard: CR LF, LF or CR. */
  predicate LineEnd(c: char) {
    c == '\n' || c == '\r'
  }

  predicate Unbroken(s: string) {
    forall c | c in s :: !LineEnd(c)
  }

  function StandardLength(s: string): (n: nat)
    ensures n <= |s|
    ensures forall k | 0 <= k < n :: !LineEnd(s[k])
    ensures n < |s| ==> LineEnd(s[n])
  {
    if s == "" || LineEnd(s[0]) then 0 else 1 + StandardLength(s[1..])
  }

  function StandardLines(s: string): seq<string>
    decreases |s|
  {
    var n := StandardLength(s);
    if s == "" then []
    else if n == |s| then [s]
    else if s[n] == '\r' && n + 1 < |s| && s[n + 1] == '\n' then [s[..n]] + StandardLines(s[n + 2..])
    else [s[..n]] + StandardLines(s[n + 1..])
  }

  /** The data of the first event of a stream, given its lines: fields are joined by newlines, one
      leading space is dropped, and only an empty line ends an event. */
  function StandardData(lines: seq<string>, fields: seq<string>): Option<string> {
    if lines == [] then None
    else if lines[0] == "" then
      if fields == [] then StandardData(lines[1..], []) else Some(WithNewlines(fields))
    else if IsData(lines[0]) then StandardData(lines[1..], fields + [StandardValue(lines[0][|DATA|..])])
    else if lines[0] == "data" then StandardData(lines[1..], fields + [""])
    else StandardData(lines[1..], fields)
  }

  function StandardPayload(body: string): Option<string> {
    StandardData(StandardLines(body), [])
  }

  function StandardValue(value: string): string {
    if value != "" && value[0] == ' ' then value[1..] else value
  }

  function StandardValues(values: seq<string>): seq<string> {
    if values == [] then [] else [StandardValue(values[0])] + StandardValues(values[1..])
  }

  function WithNewlines(fields: seq<string>): string
    requires fields != []
  {
    if |fields| == 1 then fields[0] else fields[0] + "\n" + WithNewlines(fields[1..])
  }

  lemma {:induction false} StandardLengthOf(line: string, rest: string)
    requires Unbroken(line)
    ensures StandardLength(line + "\n" + rest) == |line|
  {
    if line == "" {
      assert line + "\n" + rest == "\n" + rest;
    } else {
      assert line[0] in line;
      assert (line + "\n" + rest)[1..] == line[1..] + "\n" + rest;
      StandardLengthOf(line[1..], rest);
    }
  }

  lemma StandardSplit(line: string, rest: string)
    requires Unbroken(line)
    ensures StandardLines(line + "\n" + rest) == [line] + StandardLines(rest)
  {
    var s := line + "\n" + rest;
    StandardLengthOf(line, rest);
    assert s[..|line|] == line && s[|line|] == '\n' && s[|line| + 1..] == rest;
  }

  /** A line of an event: a comment, a data line, or another field. (A data field without a colon
      is left out, and lines that are no data hold none of the other boundaries.) */
  predicate EventLine(l: string) {
    l != "" && l != "data" && Unbroken(l) && (IsData(l) || OneLine(l))
  }

  predicate AllEventLines(lines: seq<string>) {
    forall l | l in lines :: EventLine(l)
  }

  lemma {:induction false} StandardReads(lines: seq<string>, rest: string, fields: seq<string>)
    requires AllEventLines(lines) && fields + DataOf(lines) != []
    ensures StandardData(StandardLines(LinesText(lines, rest)), fields)
      == Some(WithNewlines(fields + StandardValues(DataOf(lines))))
    decreases |lines|
  {
    hide StandardLines, WithNewlines;
    if lines == [] {
      StandardSplit("", rest);
      assert fields + [] == fields;
    } else {
      var line, later := lines[0], LinesText(lines[1..], rest);
      assert lines == [line] + lines[1..] && EventLine(line);
      StandardSplit(line, later);
      assert ([line] + StandardLines(later))[1..] == StandardLines(later);
      if IsData(line) {
        var more := fields + [StandardValue(line[|DATA|..])];
        StandardReads(lines[1..], rest, more);
        assert more + StandardValues(DataOf(lines[1..])) == fields + StandardValues(DataOf(lines));
      } else {
        assert DataOf(lines) == DataOf(lines[1..]);
        StandardReads(lines[1..], rest, fields);
      }
    }
  }

  /** The standard joins the data lines of an event with newlines, whatever else it holds. */
  lemma StandardJoinsWithNewline(lines: seq<string>, rest: string)
    requires AllEventLines(lines) && DataOf(lines) != []
    ensures |StandardValues(DataOf(lines))| == |DataOf(lines)|
    ensures StandardPayload(LinesText(lines, rest)) == Some(WithNewlines(StandardValues(DataOf(lines))))
  {
    hide StandardLines, WithNewlines;
    StandardReads(lines, rest, []);
    StandardValuesLength(DataOf(lines));
    assert [] + StandardValues(DataOf(lines)) == StandardValues(DataOf(lines));
  }

  lemma {:induction false} StandardValuesLength(values: seq<string>)
    ensures |StandardValues(values)| == |values|
  {
    if values != [] { StandardValuesLength(values[1..]); }
  }

  /** The standard's value is all the proxy keeps: one line, without a further leading blank. */
  predicate Plain(value: string) {
    var v := StandardValue(value);
    OneLine(v) && (v == "" || !Blank(v[0]))
  }

  lemma SingleValue(value: string)
    ensures OneLine(value) <==> OneLine(StandardValue(value))
    ensures LStrip(value) == StandardValue(value) <==> StandardValue(value) == "" || !Blank(StandardValue(value)[0])
  {
    var v := StandardValue(value);
    if value != v {
      assert value == [' '] + v;
    }
    LStripShortens(v);
  }

  /** On every event, with comments and other fields wherever they may be, the proxy agrees with
      the standard exactly when there is one data line and its value is plain. */
  lemma AgreesWithStandard(lines: seq<string>, rest: string)
    requires AllEventLines(lines) && DataOf(lines) != []
    ensures Payload(LinesText(lines, rest)) == StandardPayload(LinesText(lines, rest))
      <==> |DataOf(lines)| == 1 && Plain(DataOf(lines)[0])
  {
    hide Payload, LinesText, StandardPayload, LStrip, StandardValue, DataOf;
    StandardJoinsWithNewline(lines, rest);
    PayloadIsOneLine(LinesText(lines, rest));
    var values := DataOf(lines);
    var fields := StandardValues(values);
    if |values| == 1 {
      assert values[1..] == [] && fields == [StandardValue(values[0])];
      SingleValue(values[0]);
      if OneLine(values[0]) {
        LinesAreOneLines(lines);
        OneDataLineIsRead(lines, rest);
      }
    } else {
      var joined := WithNewlines(fields);
      assert joined[|fields[0]|] == '\n';
      assert '\n' in joined && Boundary('\n');
    }
  }

  /** If the values of the data lines are one line each, so are all lines. */
  lemma {:induction false} LinesAreOneLines(lines: seq<string>)
    requires AllEventLines(lines) && AllOneLine(DataOf(lines))
    ensures AllOneLine(lines)
  {
    if lines != [] {
      var line, later := lines[0], lines[1..];
      assert lines == [line] + later && EventLine(line);
      assert forall v | v in DataOf(later) :: v in DataOf(lines);
      LinesAreOneLines(later);
      if IsData(line) {
        assert line[|DATA|..] in DataOf(lines);
        assert OneLine(DATA) && line == DATA + line[|DATA|..];
      }
    }
  }

  /** The standard reads every payload without CR and LF back from its frame; the proxy does
      exactly when the payload holds no other boundary and does not begin with a blank. */
  lemma AgreesWithStandardOnFrames(event: string, payload: string, rest: string)
    requires OneLine(event) && Unbroken(payload)
    ensures StandardPayload(Frame(event, payload) + rest) == Some(payload)
    ensures Payload(Frame(event, payload) + rest) == StandardPayload(Frame(event, payload) + rest)
      <==> OneLine(payload) && (payload == "" || !Blank(payload[0]))
  {
    hide Payload, Frame, LinesText, StandardPayload;
    var lines, v := ["event: " + event, "data: " + payload], " " + payload;
    FrameIsEvent(event, payload, rest);
    FrameData(event, payload);
    FrameLines(event, payload);
    var values := [v];
    assert v[1..] == payload && values[1..] == [];
    assert StandardValues(values) == [payload];
    StandardJoinsWithNewline(lines, rest);
    AgreesWithStandard(lines, rest);
  }

  lemma FrameLines(event: string, payload: string)
    requires OneLine(event) && Unbroken(payload)
    ensures AllEventLines(["event: " + event, "data: " + payload])
  {
    var first, line := "event: " + event, "data: " + payload;
    assert OneLine("event: ") && Unbroken("data: ");
    assert first[0] == 'e' && |line| > 4 && line[..|DATA|] == DATA;
  }
}
