/** The audit log query: filters, keyset cursor, newest first, one page at a time. */
module AuditPaging {
  import opened Prelude
  import Division

  /** A row of the audit log; `at` is `started_at` as an instant. */
  datatype Row = Row(id: int, at: int, userId: string, toolName: string, status: string, traceId: string)

  /** What the caller asks for; empty texts and None filter nothing. */
  datatype Filter = Filter(
    userId: string, toolName: string, outcome: string, from: Option<int>, to: Option<int>, traceId: string)

  datatype Position = Position(at: int, id: int)

  /** The cursor text format: `enc` never returns the empty text, and `dec` (None for a malformed
      cursor) undoes it. */
  datatype Codec = Codec(enc: Position -> string, dec: string -> Option<Position>) {
    ghost predicate Valid() {
      forall p :: enc(p) != "" && dec(enc(p)) == Some(p)
    }
  }

  datatype Page = Page(items: seq<Row>, next: Option<string>)

  // ---------- What a query means ----------

  predicate Matches(f: Filter, r: Row) {
    && (f.userId == "" || r.userId == f.userId)
    && (f.toolName == "" || r.toolName == f.toolName)
    && (f.outcome == "" || r.status == f.outcome)
    && (f.from.Some? ==> f.from.value <= r.at)
    && (f.to.Some? ==> r.at < f.to.value)
    && (f.traceId == "" || r.traceId == f.traceId)
  }

  function PositionOf(r: Row): Position {
    Position(r.at, r.id)
  }

  /** p comes after q when the newest comes first. */
  predicate Older(p: Position, q: Position) {
    p.at < q.at || (p.at == q.at && p.id < q.id)
  }

  predicate Selected(f: Filter, after: Option<Position>, r: Row) {
    Matches(f, r) && (after.Some? ==> Older(PositionOf(r), after.value))
  }

  function Where(rows: seq<Row>, keep: Row -> bool): seq<Row> {
    if rows == [] then []
    else if keep(rows[0]) then [rows[0]] + Where(rows[1..], keep)
    else Where(rows[1..], keep)
  }

  function Insert(r: Row, sorted: seq<Row>): seq<Row> {
    if sorted == [] || Older(PositionOf(sorted[0]), PositionOf(r)) then [r] + sorted
    else [sorted[0]] + Insert(r, sorted[1..])
  }

  /** `ORDER BY started_at DESC, id DESC`. */
  function OrderBy(rows: seq<Row>): seq<Row> {
    if rows == [] then [] else Insert(rows[0], OrderBy(rows[1..]))
  }

  /** Every selected row, newest first. */
  function Scan(table: seq<Row>, f: Filter, after: Option<Position>): seq<Row> {
    OrderBy(Where(table, r => Selected(f, after, r)))
  }

  ghost predicate UniqueIds(rows: seq<Row>) {
    forall i, j | 0 <= i < j < |rows| :: rows[i].id != rows[j].id
  }

  ghost predicate Descending(rows: seq<Row>) {
    forall i, j | 0 <= i < j < |rows| :: Older(PositionOf(rows[j]), PositionOf(rows[i]))
  }

  lemma {:induction false} WhereHolds(rows: seq<Row>, keep: Row -> bool)
    ensures forall r :: r in Where(rows, keep) <==> r in rows && keep(r)
    ensures UniqueIds(rows) ==> UniqueIds(Where(rows, keep))
  {
    if rows != [] {
      WhereHolds(rows[1..], keep);
      assert rows == [rows[0]] + rows[1..];
      if UniqueIds(rows) && keep(rows[0]) {
        var later := Where(rows[1..], keep);
        forall j | 0 <= j < |later| ensures rows[0].id != later[j].id {
          assert later[j] in rows[1..];
        }
      }
    }
  }

  lemma {:induction false} InsertHolds(r: Row, sorted: seq<Row>)
    requires Descending(sorted) && forall s | s in sorted :: s.id != r.id
    ensures Descending(Insert(r, sorted))
    ensures forall s :: s in Insert(r, sorted) <==> s == r || s in sorted
  {
    if sorted != [] && !Older(PositionOf(sorted[0]), PositionOf(r)) {
      assert sorted == [sorted[0]] + sorted[1..];
      InsertHolds(r, sorted[1..]);
      var later := Insert(r, sorted[1..]);
      forall j | 0 <= j < |later| ensures Older(PositionOf(later[j]), PositionOf(sorted[0])) {
        assert later[j] in later;
        if later[j] != r {
          assert later[j] in sorted[1..];
        } else {
          assert sorted[0] in sorted;
        }
      }
    }
  }

  lemma {:induction false} OrderByHolds(rows: seq<Row>)
    requires UniqueIds(rows)
    ensures Descending(OrderBy(rows))
    ensures forall r :: r in OrderBy(rows) <==> r in rows
  {
    if rows != [] {
      OrderByHolds(rows[1..]);
      assert rows == [rows[0]] + rows[1..];
      InsertHolds(rows[0], OrderBy(rows[1..]));
    }
  }

  /** A scan is the descending sequence of exactly the selected rows. */
  lemma ScanHolds(table: seq<Row>, f: Filter, after: Option<Position>)
    requires UniqueIds(table)
    ensures Descending(Scan(table, f, after))
    ensures forall r :: r in Scan(table, f, after) <==> r in table && Selected(f, after, r)
  {
    WhereHolds(table, r => Selected(f, after, r));
    OrderByHolds(Where(table, r => Selected(f, after, r)));
  }

  lemma HasRow(rows: seq<Row>)
    requires rows != []
    ensures exists r :: r in rows
  {
    assert rows[0] in rows;
  }

  /** There is only one descending sequence of given rows. */
  lemma {:induction false} DescendingIsUnique(a: seq<Row>, b: seq<Row>)
    requires Descending(a) && Descending(b)
    requires forall r :: r in a <==> r in b
    ensures a == b
  {
    if a == [] {
      if b != [] { HasRow(b); }
    } else if b == [] {
      HasRow(a);
    } else {
      assert a[0] in b && b[0] in a;
      assert a[0] == b[0];
      forall r ensures r in a[1..] <==> r in b[1..] {
        if r in a[1..] { assert r in b && r != a[0]; }
        if r in b[1..] { assert r in a && r != b[0]; }
      }
      DescendingIsUnique(a[1..], b[1..]);
      assert a == [a[0]] + a[1..] && b == [b[0]] + b[1..];
    }
  }

  /** What a scan returns: the rows that equal every text asked for, from the lower bound on and
      before the upper one, newest first and by descending id at the same instant. */
  lemma ScanMeans(table: seq<Row>, f: Filter)
    requires UniqueIds(table)
    ensures var scan := Scan(table, f, None);
      && (forall r :: r in scan <==>
            && r in table
            && (f.userId != "" ==> r.userId == f.userId) && (f.toolName != "" ==> r.toolName == f.toolName)
            && (f.outcome != "" ==> r.status == f.outcome) && (f.traceId != "" ==> r.traceId == f.traceId)
            && (f.from.Some? ==> r.at >= f.from.value) && (f.to.Some? ==> r.at < f.to.value))
      && (forall i, j | 0 <= i < j < |scan| ::
            scan[i].at > scan[j].at || (scan[i].at == scan[j].at && scan[i].id > scan[j].id))
  {
    hide Scan;
    ScanHolds(table, f, None);
  }

  /** Two windows that meet at an instant split the scan of both: no row at the instant is lost or
      returned twice. */
  lemma WindowsSplit(table: seq<Row>, f: Filter, at: int)
    requires UniqueIds(table)
    requires (f.from.Some? ==> f.from.value <= at) && (f.to.Some? ==> at <= f.to.value)
    ensures Scan(table, f, None) == Scan(table, f.(from := Some(at)), None) + Scan(table, f.(to := Some(at)), None)
  {
    hide Scan, UniqueIds;
    var later, earlier := Scan(table, f.(from := Some(at)), None), Scan(table, f.(to := Some(at)), None);
    ScanHolds(table, f, None);
    ScanHolds(table, f.(from := Some(at)), None);
    ScanHolds(table, f.(to := Some(at)), None);
    forall r | r in later ensures r.at >= at {}
    forall r | r in earlier ensures r.at < at {}
    WindowsDescend(later, earlier, at);
    DescendingIsUnique(Scan(table, f, None), later + earlier);
  }

  lemma WindowsDescend(later: seq<Row>, earlier: seq<Row>, at: int)
    requires Descending(later) && Descending(earlier)
    requires (forall r | r in later :: r.at >= at) && forall r | r in earlier :: r.at < at
    ensures Descending(later + earlier)
  {
  }

  // ---------- The query itself ----------

  function CursorPosition(codec: Codec, cursor: string): Result<Option<Position>, int> {
    if cursor == "" then Ok(None)
    else if codec.dec(cursor).None? then Err(400)
    else Ok(codec.dec(cursor))
  }

  /** The first `limit` rows of the scan, and a cursor at the last of them if there are more. */
  function PageOf(codec: Codec, scan: seq<Row>, limit: nat): Page
    requires 1 <= limit
  {
    if |scan| <= limit then Page(scan, None)
    else Page(scan[..limit], Some(codec.enc(PositionOf(scan[limit - 1]))))
  }

  function Answer(codec: Codec, table: seq<Row>, f: Filter, cursor: string, limit: nat): Result<Page, int>
    requires 1 <= limit
  {
    match CursorPosition(codec, cursor)
    case Err(code) => Err(code)
    case Ok(after) => Ok(PageOf(codec, Scan(table, f, after), limit))
  }

  /** The statement so far selects the rows that meet the conditions so far. */
  ghost predicate Narrowed(stmt: seq<Row>, table: seq<Row>, f: Filter, after: Option<Position>) {
    UniqueIds(stmt) && forall r :: r in stmt <==> r in table && Selected(f, after, r)
  }

  lemma Narrow(stmt: seq<Row>, table: seq<Row>, keep: Row -> bool,
               f: Filter, after: Option<Position>, g: Filter, until: Option<Position>)
    requires Narrowed(stmt, table, f, after)
    requires forall r :: Selected(g, until, r) <==> Selected(f, after, r) && keep(r)
    ensures Narrowed(Where(stmt, keep), table, g, until)
  {
    WhereHolds(stmt, keep);
  }

  lemma StartsNarrowed(table: seq<Row>)
    requires UniqueIds(table)
    ensures Narrowed(table, table, Filter("", "", "", None, None, ""), None)
  {
  }

  lemma NarrowedIsScan(stmt: seq<Row>, table: seq<Row>, f: Filter, after: Option<Position>)
    requires UniqueIds(table) && Narrowed(stmt, table, f, after)
    ensures OrderBy(stmt) == Scan(table, f, after)
  {
    hide Scan, OrderBy;
    OrderByHolds(stmt);
    ScanHolds(table, f, after);
    DescendingIsUnique(OrderBy(stmt), Scan(table, f, after));
  }

  /** Fetching one row more than the limit tells whether there are more. */
  lemma FetchedIsPage(codec: Codec, ordered: seq<Row>, limit: nat)
    requires 1 <= limit
    ensures var fetched := if |ordered| <= limit + 1 then ordered else ordered[..limit + 1];
      var rows := if |fetched| > limit then fetched[..limit] else fetched;
      Page(rows, if |fetched| > limit && rows != [] then Some(codec.enc(PositionOf(rows[|rows| - 1]))) else None)
      == PageOf(codec, ordered, limit)
  {
    assert limit < |ordered| ==> ordered[..limit + 1][..limit] == ordered[..limit];
  }

  /** The conditions of the filter, one after another. */
  method ApplyFilter(table: seq<Row>, f: Filter) returns (stmt: seq<Row>)
    requires UniqueIds(table)
    ensures Narrowed(stmt, table, f, None)
  {
    hide Where, UniqueIds, Narrowed;
    StartsNarrowed(table);
    stmt := table;
    ghost var g, after := Filter("", "", "", None, None, ""), None;
    if f.userId != "" {
      var keep := (r: Row) => r.userId == f.userId;
      Narrow(stmt, table, keep, g, after, g.(userId := f.userId), after);
      stmt, g := Where(stmt, keep), g.(userId := f.userId);
    }
    if f.toolName != "" {
      var keep := (r: Row) => r.toolName == f.toolName;
      Narrow(stmt, table, keep, g, after, g.(toolName := f.toolName), after);
      stmt, g := Where(stmt, keep), g.(toolName := f.toolName);
    }
    if f.outcome != "" {
      var keep := (r: Row) => r.status == f.outcome;
      Narrow(stmt, table, keep, g, after, g.(outcome := f.outcome), after);
      stmt, g := Where(stmt, keep), g.(outcome := f.outcome);
    }
    if f.from.Some? {
      var keep := (r: Row) => r.at >= f.from.value;
      Narrow(stmt, table, keep, g, after, g.(from := f.from), after);
      stmt, g := Where(stmt, keep), g.(from := f.from);
    }
    if f.to.Some? {
      var keep := (r: Row) => r.at < f.to.value;
      Narrow(stmt, table, keep, g, after, g.(to := f.to), after);
      stmt, g := Where(stmt, keep), g.(to := f.to);
    }
    if f.traceId != "" {
      var keep := (r: Row) => r.traceId == f.traceId;
      Narrow(stmt, table, keep, g, after, g.(traceId := f.traceId), after);
      stmt, g := Where(stmt, keep), g.(traceId := f.traceId);
    }
    assert g == f;
  }

  /** `query_audit`: each condition narrows the statement, which is then sorted and cut. */
  method QueryAudit(codec: Codec, table: seq<Row>, f: Filter, cursor: string, limit: nat)
    returns (answer: Result<Page, int>)
    requires 1 <= limit <= 500 && UniqueIds(table)
    ensures answer == Answer(codec, table, f, cursor, limit)
    ensures answer == Err(400) <==> cursor != "" && codec.dec(cursor).None?
    ensures answer.Err? ==> answer.error == 400
  {
    hide Where, OrderBy, Scan, Descending, UniqueIds, Narrowed, PageOf;
    var stmt := ApplyFilter(table, f);
    ghost var after := None;
    if cursor != "" {
      var decoded := codec.dec(cursor);
      if decoded.None? {
        return Err(400);
      }
      var keep := (r: Row) => r.at < decoded.value.at || (r.at == decoded.value.at && r.id < decoded.value.id);
      Narrow(stmt, table, keep, f, None, f, decoded);
      stmt, after := Where(stmt, keep), decoded;
    }
    NarrowedIsScan(stmt, table, f, after);
    var ordered := OrderBy(stmt);
    FetchedIsPage(codec, ordered, limit);
    var rows := if |ordered| <= limit + 1 then ordered else ordered[..limit + 1];
    var more := |rows| > limit;
    rows := if more then rows[..limit] else rows;
    var next := if more && rows != [] then Some(codec.enc(PositionOf(rows[|rows| - 1]))) else None;
    return Ok(Page(rows, next));
  }

  // ---------- Walking the pages ----------

  /** The cursor page i is asked with. */
  function CursorAt(pages: seq<Page>, i: nat): Option<string>
    requires i <= |pages|
  {
    if i == 0 then Some("") else pages[i - 1].next
  }

  /** A client follows `next` from page to page; page i reads the table as it is at that time. */
  ghost predicate Walk(codec: Codec, tables: seq<seq<Row>>, f: Filter, limit: nat, pages: seq<Page>)
    requires 1 <= limit
  {
    |tables| == |pages| >= 1 && forall i | 0 <= i < |pages| :: PageIsRead(codec, tables, f, limit, pages, i)
  }

  ghost predicate PageIsRead(codec: Codec, tables: seq<seq<Row>>, f: Filter, limit: nat, pages: seq<Page>, i: nat)
    requires 1 <= limit && i < |pages| == |tables|
  {
    CursorAt(pages, i).Some? && Answer(codec, tables[i], f, CursorAt(pages, i).value, limit) == Ok(pages[i])
  }

  /** The walk has come to a page without a cursor. */
  predicate Ended(pages: seq<Page>) {
    pages != [] && pages[|pages| - 1].next.None?
  }

  function Items(pages: seq<Page>): seq<Row> {
    if pages == [] then [] else Items(pages[..|pages| - 1]) + pages[|pages| - 1].items
  }

  lemma WalkHasPages(codec: Codec, tables: seq<seq<Row>>, f: Filter, limit: nat, pages: seq<Page>)
    requires 1 <= limit && Walk(codec, tables, f, limit, pages)
    ensures |tables| == |pages| >= 1
    ensures forall i | 0 <= i < |pages| - 1 :: pages[i].next.Some?
  {
    hide Answer;
    forall i | 0 <= i < |pages| - 1 ensures pages[i].next.Some? {
      assert PageIsRead(codec, tables, f, limit, pages, i + 1);
    }
  }

  /** Where page i starts: after the last row of the page before it. */
  function Start(pages: seq<Page>, i: nat): Option<Position>
    requires i <= |pages|
  {
    if i == 0 || pages[i - 1].items == [] then None
    else Some(PositionOf(pages[i - 1].items[|pages[i - 1].items| - 1]))
  }

  /** Each page is cut from the scan that starts after the page before it. */
  lemma PageReads(codec: Codec, tables: seq<seq<Row>>, f: Filter, limit: nat, pages: seq<Page>, i: nat)
    requires codec.Valid() && 1 <= limit && Walk(codec, tables, f, limit, pages) && i < |pages|
    ensures pages[i] == PageOf(codec, Scan(tables[i], f, Start(pages, i)), limit)
  {
    hide Scan;
    assert PageIsRead(codec, tables, f, limit, pages, i);
    if i > 0 {
      PageReads(codec, tables, f, limit, pages, i - 1);
    }
  }

  /** Rows after the first `limit` of a scan are the scan that starts after them. */
  lemma ScanContinues(table: seq<Row>, f: Filter, after: Option<Position>, k: nat)
    requires UniqueIds(table) && 1 <= k <= |Scan(table, f, after)|
    ensures var scan := Scan(table, f, after);
      Scan(table, f, Some(PositionOf(scan[k - 1]))) == scan[k..]
  {
    hide Scan;
    var scan := Scan(table, f, after);
    var last := PositionOf(scan[k - 1]);
    ScanHolds(table, f, after);
    ScanHolds(table, f, Some(last));
    forall r ensures r in Scan(table, f, Some(last)) <==> r in scan[k..] {
      if r in scan[k..] {
        var j :| k <= j < |scan| && scan[j] == r;
        assert r in scan;
      }
      if r in table && Selected(f, Some(last), r) {
        assert scan[k - 1] in scan;
        assert r in scan;
        var j :| 0 <= j < |scan| && scan[j] == r;
        assert j >= k;
        assert scan[k..][j - k] == r;
      }
    }
    DescendingIsUnique(Scan(table, f, Some(last)), scan[k..]);
  }

  /** Rows in n full pages. */
  function Offset(n: nat, limit: nat): nat {
    if n == 0 then 0 else Offset(n - 1, limit) + limit
  }

  function Least(a: nat, b: nat): nat {
    if a <= b then a else b
  }

  lemma NextPage(codec: Codec, tables: seq<seq<Row>>, f: Filter, limit: nat, pages: seq<Page>, table: seq<Row>, i: nat, start: nat)
    requires codec.Valid() && 1 <= limit && Walk(codec, tables, f, limit, pages) && i + 1 < |pages|
    requires UniqueIds(table) && tables[i] == table
    requires var scan := Scan(table, f, None);
      start <= |scan| && Scan(table, f, Start(pages, i)) == scan[start..]
    ensures var scan := Scan(table, f, None);
      start + limit <= |scan| && Scan(table, f, Start(pages, i + 1)) == scan[start + limit..]
  {
    hide Scan, Answer, UniqueIds;
    var scan := Scan(table, f, None);
    PageReads(codec, tables, f, limit, pages, i);
    assert PageIsRead(codec, tables, f, limit, pages, i + 1);
    ScanContinues(table, f, Start(pages, i), limit);
    assert scan[start..][limit..] == scan[start + limit..];
  }

  /** Over a fixed table, page i holds the i-th `limit` rows of one full scan. */
  lemma {:induction false} FixedPage(codec: Codec, tables: seq<seq<Row>>, f: Filter, limit: nat, pages: seq<Page>, table: seq<Row>, i: nat)
    requires codec.Valid() && 1 <= limit && Walk(codec, tables, f, limit, pages) && i < |pages|
    requires UniqueIds(table) && forall k | 0 <= k < |tables| :: tables[k] == table
    ensures var scan := Scan(table, f, None);
      && Offset(i, limit) <= |scan|
      && Scan(table, f, Start(pages, i)) == scan[Offset(i, limit)..]
      && pages[i].items == scan[Offset(i, limit)..Least(Offset(i + 1, limit), |scan|)]
      && (pages[i].next.None? <==> |scan| <= Offset(i + 1, limit))
  {
    hide Scan, Answer, UniqueIds, Codec.Valid, Walk;
    WalkHasPages(codec, tables, f, limit, pages);
    var scan := Scan(table, f, None);
    PageReads(codec, tables, f, limit, pages, i);
    if i > 0 {
      FixedPage(codec, tables, f, limit, pages, table, i - 1);
      NextPage(codec, tables, f, limit, pages, table, i - 1, Offset(i - 1, limit));
    }
  }

  lemma {:induction false} FixedItems(codec: Codec, tables: seq<seq<Row>>, f: Filter, limit: nat, pages: seq<Page>, table: seq<Row>, n: nat)
    requires codec.Valid() && 1 <= limit && Walk(codec, tables, f, limit, pages) && n <= |pages|
    requires UniqueIds(table) && forall k | 0 <= k < |tables| :: tables[k] == table
    ensures var scan := Scan(table, f, None);
      Items(pages[..n]) == scan[..Least(Offset(n, limit), |scan|)]
  {
    hide Scan, Answer, UniqueIds, Walk, Codec.Valid, Start;
    if n > 0 {
      var scan := Scan(table, f, None);
      FixedItems(codec, tables, f, limit, pages, table, n - 1);
      FixedPage(codec, tables, f, limit, pages, table, n - 1);
      assert pages[..n][..n - 1] == pages[..n - 1];
    }
  }

  function PageTotal(rows: nat, limit: nat): nat
    requires 1 <= limit
  {
    if rows == 0 then 1 else (rows - 1) / limit + 1
  }

  /** Following the cursors over a fixed table to the end gives the matching rows once each,
      newest first, in max(1, ceil(n / limit)) pages. */
  lemma WalkIsOneScan(codec: Codec, tables: seq<seq<Row>>, f: Filter, limit: nat, pages: seq<Page>, table: seq<Row>)
    requires codec.Valid() && 1 <= limit && Walk(codec, tables, f, limit, pages)
    requires UniqueIds(table) && forall k | 0 <= k < |tables| :: tables[k] == table
    ensures var scan := Scan(table, f, None);
      && Descending(scan) && (forall r :: r in scan <==> r in table && Matches(f, r))
      && |pages| <= PageTotal(|scan|, limit)
      && (Ended(pages) <==> |pages| == PageTotal(|scan|, limit))
      && (Ended(pages) ==> Items(pages) == scan)
  {
    hide Scan, Answer, UniqueIds, Items, Codec.Valid, Start, Matches, Older, Descending, PageTotal, Walk;
    var scan := Scan(table, f, None);
    var n := |pages|;
    WalkHasPages(codec, tables, f, limit, pages);
    ScanHolds(table, f, None);
    FixedPage(codec, tables, f, limit, pages, table, n - 1);
    FixedItems(codec, tables, f, limit, pages, table, n);
    assert pages[..n] == pages;
    if n > 1 {
      FixedPage(codec, tables, f, limit, pages, table, n - 2);
    }
    PageCount(|scan|, limit, n);
  }

  /** n pages hold m rows, and n - 1 do not. */
  lemma PageCount(m: nat, limit: nat, n: nat)
    requires 1 <= limit && 1 <= n && (n > 1 ==> Offset(n - 1, limit) < m)
    ensures m <= Offset(n, limit) <==> n == PageTotal(m, limit)
    ensures n <= PageTotal(m, limit)
  {
    if m > 0 {
      OffsetIsProduct(n - 1, limit);
      Division.Quotient(m - 1, n - 1, limit);
    }
  }

  lemma {:induction false} OffsetIsProduct(n: nat, limit: nat)
    ensures Offset(n, limit) == n * limit
  {
    if n > 0 { OffsetIsProduct(n - 1, limit); }
  }

  // ---------- Rows appended during a walk ----------

  /** Rows are only added from one page to the next. */
  ghost predicate Growing(tables: seq<seq<Row>>) {
    && (forall i | 0 <= i < |tables| :: UniqueIds(tables[i]))
    && forall i, j, r | 0 <= i < j < |tables| && r in tables[i] :: r in tables[j]
  }

  lemma PageHolds(codec: Codec, tables: seq<seq<Row>>, f: Filter, limit: nat, pages: seq<Page>, i: nat)
    requires codec.Valid() && 1 <= limit && Walk(codec, tables, f, limit, pages) && i < |pages|
    requires Growing(tables)
    ensures Descending(pages[i].items) && (pages[i].next.Some? ==> pages[i].items != [])
    ensures forall r | r in pages[i].items :: r in tables[i] && Selected(f, Start(pages, i), r)
    ensures forall r | r in tables[i] && Selected(f, Start(pages, i), r) ::
      r in pages[i].items || (pages[i].next.Some? && Selected(f, Start(pages, i + 1), r))
  {
    hide Scan;
    PageReads(codec, tables, f, limit, pages, i);
    var scan := Scan(tables[i], f, Start(pages, i));
    ScanHolds(tables[i], f, Start(pages, i));
    forall r | r in tables[i] && Selected(f, Start(pages, i), r)
      ensures r in pages[i].items || (pages[i].next.Some? && Selected(f, Start(pages, i + 1), r))
    {
      assert r in scan;
      var j :| 0 <= j < |scan| && scan[j] == r;
      assert j < limit ==> r == pages[i].items[j];
    }
  }

  /** The rows so far are all at or before the place where page n starts. */
  ghost predicate Passed(pages: seq<Page>, n: nat)
    requires n < |pages|
  {
    forall r | r in Items(pages[..n]) ::
      Start(pages, n).Some? && !Older(PositionOf(r), Start(pages, n).value)
  }

  lemma LastIsOldest(before: seq<Row>, start: Option<Position>, items: seq<Row>)
    requires Descending(items) && items != []
    requires forall r | r in before :: start.Some? && !Older(PositionOf(r), start.value)
    requires forall r | r in items && start.Some? :: Older(PositionOf(r), start.value)
    ensures var last := PositionOf(items[|items| - 1]);
      forall r | r in before || r in items :: !Older(PositionOf(r), last)
  {
  }

  lemma ItemsStep(pages: seq<Page>, n: nat)
    requires n < |pages|
    ensures Items(pages[..n + 1]) == Items(pages[..n]) + pages[n].items
  {
    assert pages[..n + 1][..n] == pages[..n];
  }

  lemma PassedStep(codec: Codec, tables: seq<seq<Row>>, f: Filter, limit: nat, pages: seq<Page>, n: nat)
    requires codec.Valid() && 1 <= limit && Walk(codec, tables, f, limit, pages) && n + 1 < |pages|
    requires Growing(tables) && Passed(pages, n)
    ensures Passed(pages, n + 1)
  {
    hide Answer, Growing, Codec.Valid, Matches, Older, Descending, Walk, Items;
    WalkHasPages(codec, tables, f, limit, pages);
    PageHolds(codec, tables, f, limit, pages, n);
    LastIsOldest(Items(pages[..n]), Start(pages, n), pages[n].items);
    ItemsStep(pages, n);
  }

  lemma AppendDescends(before: seq<Row>, items: seq<Row>, start: Option<Position>)
    requires Descending(before) && Descending(items)
    requires forall r | r in before :: start.Some? && !Older(PositionOf(r), start.value)
    requires forall r | r in items && start.Some? :: Older(PositionOf(r), start.value)
    ensures Descending(before + items)
  {
  }

  lemma {:induction false} ItemsDescend(codec: Codec, tables: seq<seq<Row>>, f: Filter, limit: nat, pages: seq<Page>, n: nat)
    requires codec.Valid() && 1 <= limit && Walk(codec, tables, f, limit, pages) && n <= |pages|
    requires Growing(tables)
    ensures Descending(Items(pages[..n]))
    ensures n < |pages| ==> Passed(pages, n)
    ensures forall r | r in Items(pages[..n]) :: Matches(f, r) && exists i :: 0 <= i < n && r in tables[i]
  {
    hide Answer, Growing, Walk, Codec.Valid, Matches, Older, Start;
    if n > 0 {
      ItemsDescend(codec, tables, f, limit, pages, n - 1);
      PageHolds(codec, tables, f, limit, pages, n - 1);
      assert pages[..n][..n - 1] == pages[..n - 1];
      AppendDescends(Items(pages[..n - 1]), pages[n - 1].items, Start(pages, n - 1));
      if n < |pages| {
        PassedStep(codec, tables, f, limit, pages, n - 1);
      }
    }
  }

  lemma {:induction false} NothingSkipped(codec: Codec, tables: seq<seq<Row>>, f: Filter, limit: nat, pages: seq<Page>, i: nat, r: Row)
    requires codec.Valid() && 1 <= limit && Walk(codec, tables, f, limit, pages) && i < |pages|
    requires Growing(tables) && Ended(pages)
    requires r in tables[i] && Selected(f, Start(pages, i), r)
    ensures exists k :: i <= k < |pages| && r in pages[k].items
    decreases |pages| - i
  {
    hide Answer;
    PageHolds(codec, tables, f, limit, pages, i);
    if r !in pages[i].items {
      NothingSkipped(codec, tables, f, limit, pages, i + 1, r);
    }
  }

  lemma {:induction false} InItems(pages: seq<Page>, k: nat, r: Row)
    requires k < |pages| && r in pages[k].items
    ensures r in Items(pages)
  {
    if k < |pages| - 1 {
      InItems(pages[..|pages| - 1], k, r);
    }
  }

  /** While rows are added between pages, a walk still returns no row twice and nothing out of
      order, and once it ends it has returned every matching row that was there at its start, and
      every one added later but before the walk had passed its place. */
  lemma GrowingWalk(codec: Codec, tables: seq<seq<Row>>, f: Filter, limit: nat, pages: seq<Page>)
    requires codec.Valid() && 1 <= limit && Walk(codec, tables, f, limit, pages) && Growing(tables)
    ensures Descending(Items(pages))
    ensures forall r | r in Items(pages) :: Matches(f, r) && exists i :: 0 <= i < |tables| && r in tables[i]
    ensures Ended(pages) ==> forall i, r | 0 <= i < |tables| && r in tables[i] && Selected(f, Start(pages, i), r) ::
      r in Items(pages)
    ensures Ended(pages) ==> forall r | r in tables[0] && Matches(f, r) :: r in Items(pages)
  {
    hide Answer, Growing, Codec.Valid, Items, Descending, Matches, Older;
    ItemsDescend(codec, tables, f, limit, pages, |pages|);
    assert pages[..|pages|] == pages;
    if Ended(pages) {
      forall i, r | 0 <= i < |tables| && r in tables[i] && Selected(f, Start(pages, i), r) ensures r in Items(pages) {
        NothingSkipped(codec, tables, f, limit, pages, i, r);
        var k :| i <= k < |pages| && r in pages[k].items;
        InItems(pages, k, r);
      }
    }
  }
}
