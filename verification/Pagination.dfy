/** Cursor pagination: what a walk through a changing table returns, and which cursors can be read back. */
module Pagination {
  import opened Wrappers
  import opened UploadParts
  import opened ByteRanges

  datatype Kind = DateKind | BigIntKind | TextKind
  datatype SortValue = Date(ms: int) | BigInt(n: nat) | Text(s: string)
  /** The columns pagination looks at: the unique id and the sorted column. A cursor names the same two. */
  datatype Row = Row(id: string, value: SortValue)
  datatype Order = Asc | Desc
  datatype Options = Options(sort: string, order: Order, kind: Kind)

  // ----- The order of rows

  predicate LessText(a: string, b: string) {
    b != "" && (a == "" || a[0] < b[0] || (a[0] == b[0] && LessText(a[1..], b[1..])))
  }

  predicate LessValue(a: SortValue, b: SortValue) {
    match a
    case Date(ms) => !b.Date? || ms < b.ms
    case BigInt(n) => b.Text? || (b.BigInt? && n < b.n)
    case Text(s) => b.Text? && LessText(s, b.s)
  }

  lemma {:induction false} TextsAreOrdered(a: string, b: string, c: string)
    ensures !LessText(a, a)
    ensures a == b || LessText(a, b) || LessText(b, a)
    ensures LessText(a, b) && LessText(b, c) ==> LessText(a, c)
    ensures !(LessText(a, b) && LessText(b, a))
  {
    if a != "" {
      TextsAreOrdered(a[1..], if b == "" then "" else b[1..], if c == "" then "" else c[1..]);
      if b != "" && a[0] == b[0] && a[1..] == b[1..] {
        assert a == [a[0]] + a[1..] && b == [b[0]] + b[1..];
      }
    }
  }

  /** ORDER BY the column and then the id, both in the same direction. */
  predicate Before(order: Order, a: Row, b: Row) {
    var (x, y) := if order.Asc? then (a, b) else (b, a);
    if x.value != y.value then LessValue(x.value, y.value) else LessText(x.id, y.id)
  }

  /** The condition for continuing after a cursor, as it is sent to the database. */
  predicate CursorWhere(cursor: Option<Row>, o: Options, row: Row) {
    cursor.None? ||
    if o.order.Asc? then
      LessValue(cursor.value.value, row.value) || (row.value == cursor.value.value && LessText(cursor.value.id, row.id))
    else
      LessValue(row.value, cursor.value.value) || (row.value == cursor.value.value && LessText(row.id, cursor.value.id))
  }

  lemma ValuesAreOrdered(a: SortValue, b: SortValue, c: SortValue)
    ensures !LessValue(a, a)
    ensures a == b || LessValue(a, b) || LessValue(b, a)
    ensures LessValue(a, b) && LessValue(b, c) ==> LessValue(a, c)
    ensures !(LessValue(a, b) && LessValue(b, a))
  {
    if a.Text? {
      TextsAreOrdered(a.s, if b.Text? then b.s else "", if c.Text? then c.s else "");
    }
  }

  /** The order is strict and total, so the id breaks every tie. */
  lemma RowsAreOrdered(order: Order, a: Row, b: Row, c: Row)
    ensures !Before(order, a, a)
    ensures a == b || Before(order, a, b) || Before(order, b, a)
    ensures Before(order, a, b) && Before(order, b, c) ==> Before(order, a, c)
    ensures !(Before(order, a, b) && Before(order, b, a))
  {
    ValuesAreOrdered(a.value, b.value, c.value);
    ValuesAreOrdered(c.value, b.value, a.value);
    TextsAreOrdered(a.id, b.id, c.id);
    TextsAreOrdered(c.id, b.id, a.id);
    hide LessText, LessValue;
  }

  /** The continuation condition selects exactly the rows that come after the cursor in the query's order. */
  lemma WhereContinues(cursor: Row, o: Options, row: Row)
    ensures CursorWhere(Some(cursor), o, row) <==> Before(o.order, cursor, row)
  {
    ValuesAreOrdered(cursor.value, row.value, row.value);
    hide LessText, LessValue;
  }

  /** Dates and numbers are ordered as such, texts by their first difference, a prefix first. */
  lemma ValuesAscendNaturally(a: int, b: int, n: nat, m: nat, common: string, c: char, d: char, s: string, t: string)
    ensures LessValue(Date(a), Date(b)) <==> a < b
    ensures LessValue(BigInt(n), BigInt(m)) <==> n < m
    ensures c < d ==> LessValue(Text(common + [c] + s), Text(common + [d] + t))
    ensures LessValue(Text(common), Text(common + [d] + t))
  {
    TextsDiffer(common, c, d, s, t);
  }

  lemma {:induction false} TextsDiffer(common: string, c: char, d: char, s: string, t: string)
    ensures c < d ==> LessText(common + [c] + s, common + [d] + t)
    ensures LessText(common, common + [d] + t)
  {
    if common != "" {
      TextsDiffer(common[1..], c, d, s, t);
      assert (common + [c] + s)[1..] == common[1..] + [c] + s;
      assert (common + [d] + t)[1..] == common[1..] + [d] + t;
    }
  }

  /** "asc" lists smaller values first and "desc" larger ones; among equal values the ids run the same way. */
  lemma DirectionsAreNamed(a: Row, b: Row)
    ensures LessValue(a.value, b.value) ==> Before(Asc, a, b) && Before(Desc, b, a)
    ensures a.value == b.value && LessText(a.id, b.id) ==> Before(Asc, a, b) && Before(Desc, b, a)
  {
    ValuesAreOrdered(a.value, b.value, b.value);
    hide LessText, LessValue;
  }

  // ----- One query

  predicate IsFirst(order: Order, rows: set<Row>, first: Row) {
    first in rows && forall r :: r in rows ==> r == first || Before(order, first, r)
  }

  lemma {:induction false} HasFirst(order: Order, rows: set<Row>) returns (first: Row)
    requires rows != {}
    ensures IsFirst(order, rows, first)
    decreases |rows|
  {
    hide Before;
    var some :| some in rows;
    if rows == {some} { return some; }
    assert rows - {some} != {};
    var other := HasFirst(order, rows - {some});
    first := if Before(order, some, other) then some else other;
    RowsAreOrdered(order, some, other, other);
    forall r | r in rows ensures r == first || Before(order, first, r) {
      RowsAreOrdered(order, some, other, r);
    }
  }

  /** A SELECT with the ORDER BY of the list routes. */
  ghost function Sorted(order: Order, rows: set<Row>): (sorted: seq<Row>)
    decreases |rows|
  {
    if rows == {} then [] else
      assert exists f :: IsFirst(order, rows, f) by { var f := HasFirst(order, rows); }
      var first :| IsFirst(order, rows, first);
      [first] + Sorted(order, rows - {first})
  }

  predicate Ascends(order: Order, rows: seq<Row>) {
    forall i, j :: 0 <= i < j < |rows| ==> Before(order, rows[i], rows[j])
  }

  lemma {:induction false} SortedIsSorted(order: Order, rows: set<Row>)
    ensures Ascends(order, Sorted(order, rows))
    ensures forall r :: r in Sorted(order, rows) <==> r in rows
    decreases |rows|
  {
    hide Before;
    if rows != {} {
      var sorted := Sorted(order, rows);
      assert IsFirst(order, rows, sorted[0]) && sorted[1..] == Sorted(order, rows - {sorted[0]});
      SortedIsSorted(order, rows - {sorted[0]});
      forall i, j | 0 <= i < j < |sorted| ensures Before(order, sorted[i], sorted[j]) {
        assert sorted[j] == sorted[1..][j - 1] && sorted[j] in sorted[1..];
        if i > 0 { assert sorted[i] == sorted[1..][i - 1]; }
      }
      assert sorted == [sorted[0]] + sorted[1..];
    }
  }

  /** Only one ascending list has given elements. */
  lemma {:induction false} AscendingIsUnique(order: Order, a: seq<Row>, b: seq<Row>)
    requires Ascends(order, a) && Ascends(order, b) && forall r :: r in a <==> r in b
    ensures a == b
  {
    if a == [] {
      BothEmpty(a, b);
    } else {
      assert a[0] in a && a[0] in b;
      assert b[0] in b && b[0] in a;
      var i :| 0 <= i < |a| && a[i] == b[0];
      var j :| 0 <= j < |b| && b[j] == a[0];
      RowsAreOrdered(order, a[0], b[0], b[0]);
      hide Before;
      assert a[0] == b[0];
      forall r ensures r in a[1..] <==> r in b[1..] {
        NotRepeated(order, a, r);
        NotRepeated(order, b, r);
      }
      AscendingIsUnique(order, a[1..], b[1..]);
      assert a == [a[0]] + a[1..] && b == [b[0]] + b[1..];
    }
  }

  lemma BothEmpty(a: seq<Row>, b: seq<Row>)
    requires forall r :: r in a <==> r in b
    ensures a == [] <==> b == []
  {
    if a != [] { assert a[0] in a; }
    if b != [] { assert b[0] in b; }
  }

  lemma NotRepeated(order: Order, rows: seq<Row>, r: Row)
    requires Ascends(order, rows) && rows != []
    ensures r in rows[1..] <==> r in rows && r != rows[0]
  {
    RowsAreOrdered(order, r, r, r);
    hide Before;
    assert rows == [rows[0]] + rows[1..];
    if r in rows[1..] {
      var i :| 0 <= i < |rows[1..]| && rows[1..][i] == r;
      assert rows[i + 1] == r;
    }
  }

  // ----- Cursors

  datatype Payload = Payload(v: nat, id: string, sort: string, order: Order, value: SortValue)
  /** A cursor string: what it encodes, and how long it is. */
  datatype Token = Token(payload: Payload, length: nat)

  function Utf8Bytes(c: char): nat {
    var code := c as int;
    if code < 0x80 then 1 else if code < 0x800 then 2 else if code < 0x10000 then 3 else 4
  }

  /** The bytes JSON.stringify writes for one character of a string. */
  function JsonBytesOf(c: char): nat {
    var code := c as int;
    if c == '"' || c == '\\' || code in {8, 9, 10, 12, 13} then 2
    else if code < 0x20 then 6
    else Utf8Bytes(c)
  }

  function JsonBytes(s: string): nat {
    if s == "" then 0 else JsonBytes(s[..|s| - 1]) + JsonBytesOf(s[|s| - 1])
  }

  function OrderName(order: Order): string { if order.Asc? then "asc" else "desc" }

  /** Dates as toISOString writes them, numbers in decimal. */
  function ValueBytes(value: SortValue): nat {
    match value
    case Date(ms) => if -62167219200000 <= ms < 253402300800000 then 24 else 27
    case BigInt(n) => |PrintNat(n)|
    case Text(s) => JsonBytes(s)
  }

  /** The size of {"v":1,"id":"","sort":"","order":"","value":""} and of what is filled in. */
  function PayloadBytes(p: Payload): nat {
    47 + JsonBytes(p.id) + JsonBytes(p.sort) + |OrderName(p.order)| + ValueBytes(p.value)
  }

  /** Base64url without padding. */
  function Base64Length(bytes: nat): nat { (4 * bytes + 2) / 3 }

  function EncodeCursor(item: Row, o: Options): Token {
    var payload := Payload(1, item.id, o.sort, o.order, item.value);
    Token(payload, Base64Length(PayloadBytes(payload)))
  }

  predicate HasKind(value: SortValue, kind: Kind) {
    match kind
    case DateKind => value.Date?
    case BigIntKind => value.BigInt?
    case TextKind => value.Text?
  }

  datatype CursorError = InvalidCursor

  function DecodeCursor(raw: Token, o: Options): Result<Row, CursorError> {
    if raw.length == 0 || raw.length > 1024 then Err(InvalidCursor)
    else if raw.payload.v != 1 || raw.payload.sort != o.sort || raw.payload.order != o.order then Err(InvalidCursor)
    else if !HasKind(raw.payload.value, o.kind) then Err(InvalidCursor)
    else Ok(Row(raw.payload.id, raw.payload.value))
  }

  /** A cursor is read back as the row it was made from exactly when its JSON text has at most 768 bytes. */
  lemma OwnCursorIsReadBack(item: Row, o: Options)
    requires HasKind(item.value, o.kind)
    ensures DecodeCursor(EncodeCursor(item, o), o)
         == if PayloadBytes(Payload(1, item.id, o.sort, o.order, item.value)) <= 768
           then Ok(item) else Err(InvalidCursor)
  {
    hide JsonBytes, PrintNat;
  }

  /** A cursor made for another sort or another direction is refused. */
  lemma ForeignCursorIsRefused(item: Row, o: Options, other: Options)
    requires o.sort != other.sort || o.order != other.order
    ensures DecodeCursor(EncodeCursor(item, o), other) == Err(InvalidCursor)
  {
  }

  predicate Plain(s: string) {
    forall i :: 0 <= i < |s| ==> 0x20 <= s[i] as int < 0x80 && s[i] != '"' && s[i] != '\\'
  }

  lemma {:induction false} PlainBytes(s: string)
    requires Plain(s)
    ensures JsonBytes(s) == |s|
  {
    if s != "" { PlainBytes(s[..|s| - 1]); }
  }

  lemma {:induction false} PrintedLength(n: nat, digits: nat)
    requires n < Pow10(digits) && digits >= 1
    ensures |PrintNat(n)| <= digits
  {
    if n >= 10 { PrintedLength(n / 10, digits - 1); }
  }

  function Pow10(k: nat): nat { if k == 0 then 1 else 10 * Pow10(k - 1) }

  lemma {:induction false} Pow10Sums(a: nat, b: nat)
    ensures Pow10(a + b) == Pow10(a) * Pow10(b)
  {
    if a > 0 {
      Pow10Sums(a - 1, b);
      assert 10 * (Pow10(a - 1) * Pow10(b)) == (10 * Pow10(a - 1)) * Pow10(b);
    }
  }

  lemma Pow10Doubles(k: nat)
    ensures Pow10(2 * k) == Pow10(k) * Pow10(k)
  {
    Pow10Sums(k, k);
  }

  /** Dates and 64-bit numbers always give a cursor the service accepts back. */
  lemma DateAndNumberCursorsFit(item: Row, o: Options)
    requires HasKind(item.value, o.kind) && !o.kind.TextKind?
    requires item.value.BigInt? ==> item.value.n < 0x8000_0000_0000_0000
    requires Plain(item.id) && |item.id| <= 64 && Plain(o.sort) && |o.sort| <= 64
    ensures DecodeCursor(EncodeCursor(item, o), o) == Ok(item)
  {
    PlainBytes(item.id);
    PlainBytes(o.sort);
    if item.value.BigInt? {
      assert Pow10(5) == 100000 by { assert Pow10(2) == 100; }
      Pow10Doubles(5);
      Pow10Doubles(10);
      PrintedLength(item.value.n, 20);
    }
    hide JsonBytes, PrintNat, Pow10;
    OwnCursorIsReadBack(item, o);
  }

  lemma {:induction false} WideBytes(s: string)
    requires forall i :: 0 <= i < |s| ==> 0x800 <= s[i] as int < 0x10000
    ensures JsonBytes(s) == 3 * |s|
  {
    if s != "" { WideBytes(s[..|s| - 1]); }
  }

  /** A file name of 255 Chinese characters is allowed, but its cursor is refused on the next page. */
  lemma LongNamesBreakTheWalk(id: string)
    ensures var o := Options("originalName", Asc, TextKind);
      DecodeCursor(EncodeCursor(Row(id, Text(seq(255, i => '\U{4E2D}'))), o), o) == Err(InvalidCursor)
  {
    var name := seq(255, i => '\U{4E2D}');
    WideBytes(name);
    hide JsonBytes;
    OwnCursorIsReadBack(Row(id, Text(name)), Options("originalName", Asc, TextKind));
  }

  // ----- A walk

  datatype Page = Page(items: seq<Row>, hasMore: bool, nextCursor: Option<Token>)

  function FinishCursorPage(rows: seq<Row>, limit: nat, o: Options): Page {
    var hasMore := |rows| > limit;
    var items := if hasMore then rows[..limit] else rows;
    Page(items, hasMore, if hasMore && items != [] then Some(EncodeCursor(items[|items| - 1], o)) else None)
  }

  ghost function Selected(table: set<Row>, cursor: Option<Row>, o: Options): set<Row> {
    set row | row in table && CursorWhere(cursor, o, row)
  }

  function Take(rows: seq<Row>, n: nat): seq<Row> {
    if |rows| <= n then rows else rows[..n]
  }

  /** One request: limit + 1 rows after the cursor. */
  ghost function FetchPage(table: set<Row>, cursor: Option<Row>, limit: nat, o: Options): Page {
    FinishCursorPage(Take(Sorted(o.order, Selected(table, cursor, o)), limit + 1), limit, o)
  }

  /** Page i was answered from `tables[i]`; each cursor is the one the page before returned. */
  ghost predicate IsWalk(tables: seq<set<Row>>, pages: seq<Page>, cursor: Option<Row>, limit: nat, o: Options)
    decreases |pages|
  {
    && |tables| == |pages| >= 1
    && pages[0] == FetchPage(tables[0], cursor, limit, o)
    && if |pages| == 1 then !pages[0].hasMore else
         && pages[0].hasMore && pages[0].nextCursor.Some?
         && var next := DecodeCursor(pages[0].nextCursor.value, o);
            next.Ok? && IsWalk(tables[1..], pages[1..], Some(next.value), limit, o)
  }

  function Items(pages: seq<Page>): seq<Row> {
    if pages == [] then [] else pages[0].items + Items(pages[1..])
  }

  predicate Follows(cursor: Option<Row>, order: Order, row: Row) {
    cursor.Some? ==> Before(order, cursor.value, row)
  }

  /** One page: its items ascend, follow the cursor, and miss a row of the table only if there is more after them. */
  lemma PageHolds(table: set<Row>, cursor: Option<Row>, limit: nat, o: Options)
    requires limit >= 1
    ensures var page := FetchPage(table, cursor, limit, o);
      && Ascends(o.order, page.items) && |page.items| <= limit
      && (forall r :: r in page.items ==> r in table && Follows(cursor, o.order, r))
      && (page.hasMore ==> |page.items| == limit && page.nextCursor == Some(EncodeCursor(page.items[limit - 1], o)))
      && (forall r :: r in table && Follows(cursor, o.order, r) && r !in page.items ==>
            page.hasMore && Before(o.order, page.items[limit - 1], r))
  {
    hide Before, CursorWhere;
    var all := Sorted(o.order, Selected(table, cursor, o));
    SortedIsSorted(o.order, Selected(table, cursor, o));
    hide Sorted, EncodeCursor;
    forall r ensures CursorWhere(cursor, o, r) <==> Follows(cursor, o.order, r) {
      if cursor.Some? { WhereContinues(cursor.value, o, r); } else { NoCursor(o, r); }
    }
    var page := FetchPage(table, cursor, limit, o);
    forall r | r in page.items ensures r in table && Follows(cursor, o.order, r) {
      assert r in all;
      assert r in Selected(table, cursor, o);
    }
    forall r | r in table && Follows(cursor, o.order, r) && r !in page.items
      ensures page.hasMore && Before(o.order, page.items[limit - 1], r)
    {
      assert r in all;
      var k :| 0 <= k < |all| && all[k] == r;
      assert |all| > limit && k >= limit;
    }
  }

  lemma NoCursor(o: Options, r: Row)
    ensures CursorWhere(None, o, r)
  {
  }

  /** A cursor that is read back is the row it was made from. */
  lemma CursorIsItsRow(item: Row, o: Options)
    ensures DecodeCursor(EncodeCursor(item, o), o).Ok? ==> DecodeCursor(EncodeCursor(item, o), o).value == item
  {
    hide PayloadBytes;
  }

  /** Whatever happens to the table between pages, the items of a walk strictly ascend, so none is repeated. */
  lemma {:induction false} WalkAscends(tables: seq<set<Row>>, pages: seq<Page>, cursor: Option<Row>, limit: nat,
      o: Options)
    requires limit >= 1 && IsWalk(tables, pages, cursor, limit, o)
    ensures Ascends(o.order, Items(pages))
    ensures forall r :: r in Items(pages) ==> Follows(cursor, o.order, r)
    decreases |pages|
  {
    hide Before, FetchPage, DecodeCursor, EncodeCursor, Ascends;
    PageHolds(tables[0], cursor, limit, o);
    var items := pages[0].items;
    if |pages| == 1 {
      assert Items(pages) == items;
    } else {
      var last := items[limit - 1];
      CursorIsItsRow(last, o);
      WalkAscends(tables[1..], pages[1..], Some(last), limit, o);
      hide IsWalk;
      Joins(o.order, cursor, items, Items(pages[1..]));
    }
  }

  /** A page and what a walk from its last item returns ascend together. */
  lemma Joins(order: Order, cursor: Option<Row>, items: seq<Row>, rest: seq<Row>)
    requires items != [] && Ascends(order, items) && Ascends(order, rest)
    requires forall r :: r in items ==> Follows(cursor, order, r)
    requires forall r :: r in rest ==> Before(order, items[|items| - 1], r)
    ensures Ascends(order, items + rest)
    ensures forall r :: r in items + rest ==> Follows(cursor, order, r)
  {
    hide Before;
    var last := items[|items| - 1];
    forall i, j | 0 <= i < j < |items + rest| ensures Before(order, (items + rest)[i], (items + rest)[j]) {
      if i < |items| <= j {
        assert rest[j - |items|] in rest;
        RowsAreOrdered(order, items[i], last, rest[j - |items|]);
      }
    }
    forall r | r in rest ensures Follows(cursor, order, r) {
      assert last in items;
      if cursor.Some? { RowsAreOrdered(order, cursor.value, last, r); }
    }
  }

  /** A row that is in every table the walk saw, with the same key, is returned. */
  lemma {:induction false} WalkReturnsStableRows(tables: seq<set<Row>>, pages: seq<Page>, cursor: Option<Row>,
      limit: nat, o: Options, r: Row)
    requires limit >= 1 && IsWalk(tables, pages, cursor, limit, o)
    requires Follows(cursor, o.order, r) && forall i :: 0 <= i < |tables| ==> r in tables[i]
    ensures r in Items(pages)
    decreases |pages|
  {
    PageHolds(tables[0], cursor, limit, o);
    if r !in pages[0].items {
      var last := pages[0].items[limit - 1];
      CursorIsItsRow(last, o);
      hide Before, FetchPage, DecodeCursor, EncodeCursor;
      assert forall i :: 0 <= i < |tables[1..]| ==> tables[1..][i] == tables[i + 1];
      WalkReturnsStableRows(tables[1..], pages[1..], Some(last), limit, o, r);
    }
  }

  /** Together: every row that stays with an unchanged key is returned exactly once, in order. */
  lemma StableRowsExactlyOnce(tables: seq<set<Row>>, pages: seq<Page>, limit: nat, o: Options, r: Row) returns (k: nat)
    requires limit >= 1 && IsWalk(tables, pages, None, limit, o) && forall i :: 0 <= i < |tables| ==> r in tables[i]
    ensures Ascends(o.order, Items(pages))
    ensures k < |Items(pages)| && forall i :: 0 <= i < |Items(pages)| ==> (Items(pages)[i] == r <==> i == k)
  {
    WalkAscends(tables, pages, None, limit, o);
    WalkReturnsStableRows(tables, pages, None, limit, o, r);
    RowsAreOrdered(o.order, r, r, r);
    hide Before, IsWalk, Items;
    k :| 0 <= k < |Items(pages)| && Items(pages)[k] == r;
  }

  lemma {:induction false} WalkReturnsOnlyRows(table: set<Row>, pages: seq<Page>, cursor: Option<Row>, limit: nat,
      o: Options)
    requires limit >= 1 && IsWalk(seq(|pages|, i => table), pages, cursor, limit, o)
    ensures forall r :: r in Items(pages) ==> r in table
    decreases |pages|
  {
    PageHolds(table, cursor, limit, o);
    if |pages| > 1 {
      var last := pages[0].items[limit - 1];
      CursorIsItsRow(last, o);
      hide Before, FetchPage, DecodeCursor, EncodeCursor;
      assert seq(|pages|, i => table)[1..] == seq(|pages| - 1, i => table);
      WalkReturnsOnlyRows(table, pages[1..], Some(last), limit, o);
    }
  }

  /** On a table nobody changes, the pages put together are the sorted table. */
  lemma UnchangedTableIsReturnedWhole(table: set<Row>, pages: seq<Page>, limit: nat, o: Options)
    requires limit >= 1 && IsWalk(seq(|pages|, i => table), pages, None, limit, o)
    ensures Items(pages) == Sorted(o.order, table)
  {
    hide Before, FetchPage, IsWalk, Items, Sorted;
    WalkAscends(seq(|pages|, i => table), pages, None, limit, o);
    WalkReturnsOnlyRows(table, pages, None, limit, o);
    forall r | r in table ensures r in Items(pages) {
      WalkReturnsStableRows(seq(|pages|, i => table), pages, None, limit, o, r);
    }
    SortedIsSorted(o.order, table);
    AscendingIsUnique(o.order, Items(pages), Sorted(o.order, table));
  }

  // ----- Walks that finish, and walks that cannot go on

  predicate Fits(row: Row, o: Options) {
    DecodeCursor(EncodeCursor(row, o), o).Ok?
  }

  function Elements(rows: seq<Row>): set<Row> {
    set r | r in rows
  }

  lemma {:induction false} AscendingSize(order: Order, rows: seq<Row>)
    requires Ascends(order, rows)
    ensures |Elements(rows)| == |rows|
  {
    if rows != [] {
      TailAscends(order, rows);
      hide Ascends;
      AscendingSize(order, rows[1..]);
    }
  }

  lemma TailAscends(order: Order, rows: seq<Row>)
    requires rows != [] && Ascends(order, rows)
    ensures Ascends(order, rows[1..]) && rows[0] !in Elements(rows[1..])
    ensures Elements(rows) == {rows[0]} + Elements(rows[1..])
  {
    hide Before;
    NotRepeated(order, rows, rows[0]);
    assert rows == [rows[0]] + rows[1..];
  }

  lemma SortedSize(order: Order, rows: set<Row>)
    ensures |Sorted(order, rows)| == |rows|
  {
    SortedIsSorted(order, rows);
    AscendingSize(order, Sorted(order, rows));
    assert Elements(Sorted(order, rows)) == rows;
  }

  /** What is left of an unchanging table after a full page is exactly what the page's query cut off. */
  lemma RestOfTheTable(table: set<Row>, cursor: Option<Row>, limit: nat, o: Options)
    requires 1 <= limit < |Selected(table, cursor, o)|
    ensures |Sorted(o.order, Selected(table, cursor, o))| == |Selected(table, cursor, o)|
    ensures var last := Sorted(o.order, Selected(table, cursor, o))[limit - 1];
      last in table && |Selected(table, Some(last), o)| == |Selected(table, cursor, o)| - limit
  {
    hide Before, CursorWhere, Sorted;
    var chosen := Selected(table, cursor, o);
    var all := Sorted(o.order, chosen);
    SortedSize(o.order, chosen);
    SortedIsSorted(o.order, chosen);
    var last, rest := all[limit - 1], all[limit..];
    assert last in all;
    forall r ensures r in Selected(table, Some(last), o) <==> r in rest {
      WhereContinues(last, o, r);
      if cursor.Some? {
        WhereContinues(cursor.value, o, last);
        WhereContinues(cursor.value, o, r);
        RowsAreOrdered(o.order, cursor.value, last, r);
      } else {
        NoCursor(o, r);
      }
      assert r in rest ==> r in all by { assert all == all[..limit] + rest; }
      if r in chosen {
        var k :| 0 <= k < |all| && all[k] == r;
        RowsAreOrdered(o.order, last, r, r);
        if k >= limit { assert rest[k - limit] == r; }
        if r in rest {
          var n :| 0 <= n < |rest| && rest[n] == r;
          assert all[n + limit] == r;
        }
      }
    }
    assert Selected(table, Some(last), o) == Elements(rest);
    AscendingSize(o.order, rest);
  }

  function PageCount(rows: nat, limit: nat): nat
    requires limit >= 1
  {
    if rows <= limit then 1 else 1 + PageCount(rows - limit, limit)
  }

  lemma {:induction false} PageCountIsTheQuotient(rows: nat, limit: nat)
    requires limit >= 1
    ensures PageCount(rows, limit) == Max(1, CeilDiv(rows, limit))
  {
    if rows <= limit {
      QuotientIs(rows + limit - 1, limit, if rows == 0 then 0 else 1);
    } else {
      hide CeilDiv;
      PageCountIsTheQuotient(rows - limit, limit);
      CeilDivStep(rows, limit);
    }
  }

  lemma CeilDivStep(rows: nat, limit: nat)
    requires 1 <= limit < rows
    ensures CeilDiv(rows, limit) == CeilDiv(rows - limit, limit) + 1 && CeilDiv(rows - limit, limit) >= 1
  {
    CeilDivBounds(rows - limit, limit);
    var q := CeilDiv(rows - limit, limit);
    assert (q + 1) * limit == q * limit + limit;
    assert (q - 1) * limit == q * limit - limit;
    QuotientIs(rows + limit - 1, limit, q + 1);
  }

  lemma QuotientIs(a: nat, b: nat, q: nat)
    requires b > 0 && q * b <= a < (q + 1) * b
    ensures a / b == q
  {
    var d := a / b;
    assert a == d * b + a % b;
    if d < q { MulMonotone(d + 1, q, b); }
    if d > q { MulMonotone(q + 1, d, b); }
  }

  /** Where every cursor can be read back, the walk over an unchanging table goes to the end. */
  lemma {:induction false} WalkFrom(table: set<Row>, cursor: Option<Row>, limit: nat, o: Options)
      returns (pages: seq<Page>)
    requires limit >= 1 && forall r :: r in table ==> Fits(r, o)
    ensures IsWalk(seq(|pages|, i => table), pages, cursor, limit, o)
    ensures |pages| == PageCount(|Selected(table, cursor, o)|, limit)
    decreases |Selected(table, cursor, o)|
  {
    hide Before, CursorWhere, Sorted, EncodeCursor, DecodeCursor, Selected;
    SortedSize(o.order, Selected(table, cursor, o));
    var page := FetchPage(table, cursor, limit, o);
    if |Selected(table, cursor, o)| <= limit {
      pages := [page];
    } else {
      RestOfTheTable(table, cursor, limit, o);
      var last := Sorted(o.order, Selected(table, cursor, o))[limit - 1];
      assert Fits(last, o);
      CursorIsItsRow(last, o);
      var rest := WalkFrom(table, Some(last), limit, o);
      pages := [page] + rest;
      assert seq(|pages|, i => table)[1..] == seq(|rest|, i => table) && pages[1..] == rest;
    }
  }

  /** Dates and numbers: a walk exists, of exactly as many pages as the rows need. */
  lemma WalkExists(table: set<Row>, limit: nat, o: Options) returns (pages: seq<Page>)
    requires limit >= 1 && !o.kind.TextKind? && Plain(o.sort) && |o.sort| <= 64
    requires forall r :: r in table ==> HasKind(r.value, o.kind) && Plain(r.id) && |r.id| <= 64
    requires forall r :: r in table && r.value.BigInt? ==> r.value.n < 0x8000_0000_0000_0000
    ensures IsWalk(seq(|pages|, i => table), pages, None, limit, o)
    ensures |pages| == Max(1, CeilDiv(|table|, limit))
  {
    forall r | r in table ensures Fits(r, o) { DateAndNumberCursorsFit(r, o); }
    assert Selected(table, None, o) == table;
    hide Plain, HasKind, IsWalk, Fits, Selected, CeilDiv;
    pages := WalkFrom(table, None, limit, o);
    PageCountIsTheQuotient(|table|, limit);
  }

  /** A walk has passed only rows whose cursors can be read back. */
  lemma {:induction false} WalkReadsItsCursors(tables: seq<set<Row>>, pages: seq<Page>, cursor: Option<Row>,
      limit: nat, o: Options, k: nat)
    requires limit >= 1 && IsWalk(tables, pages, cursor, limit, o) && k + 1 < |pages|
    ensures |pages[k].items| == limit && Fits(pages[k].items[limit - 1], o)
    decreases |pages|
  {
    PageHolds(tables[0], cursor, limit, o);
    if k > 0 {
      hide FetchPage;
      var next := DecodeCursor(pages[0].nextCursor.value, o);
      WalkReadsItsCursors(tables[1..], pages[1..], Some(next.value), limit, o, k - 1);
      assert pages[1..][k - 1] == pages[k];
    }
  }

  /** So no walk sorted by name goes on after a page that ends in a name of 255 Chinese characters. */
  lemma LongNamesEndTheWalk(tables: seq<set<Row>>, pages: seq<Page>, limit: nat, order: Order, id: string, k: nat)
    requires limit >= 1 && IsWalk(tables, pages, None, limit, Options("originalName", order, TextKind))
    requires k < |pages| && |pages[k].items| == limit
    requires pages[k].items[limit - 1] == Row(id, Text(seq(255, i => '\U{4E2D}')))
    ensures k == |pages| - 1
  {
    var o, name := Options("originalName", order, TextKind), seq(255, i => '\U{4E2D}');
    WideBytes(name);
    hide JsonBytes, IsWalk;
    OwnCursorIsReadBack(Row(id, Text(name)), o);
    if k + 1 < |pages| { WalkReadsItsCursors(tables, pages, None, limit, o, k); }
  }
}
