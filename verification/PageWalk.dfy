/**
 * Following `next_cursor` as text: each page's last row is encoded, sent back by the client, and decoded for the next
 * page (src/modules/payments/payments.repository.ts, src/modules/payments/payments.service.ts).
 */
module PageWalks {
  import opened Wrappers
  import opened Bytes
  import opened Pagination
  import opened Cursors

  // ---------- row ids as text ----------

  /** A number as `digits` hex digits: the text of an ObjectId has 24, and ids are ordered as the numbers are. */
  function HexText(n: nat, digits: nat): (s: string)
    ensures |s| == digits && Plain(s)
  {
    if digits == 0 then "" else HexText(n / 16, digits - 1) + [HexDigit(n % 16)]
  }

  function HexNumber(s: string): Option<nat> {
    if s == "" then Some(0)
    else
      var high, low := HexNumber(s[..|s| - 1]), HexValue(s[|s| - 1]);
      if high.None? || low < 0 then None else Some(16 * high.value + low)
  }

  function Pow16(digits: nat): nat {
    if digits == 0 then 1 else 16 * Pow16(digits - 1)
  }

  lemma {:induction false} NumberOfText(n: nat, digits: nat)
    requires n < Pow16(digits)
    ensures HexNumber(HexText(n, digits)) == Some(n)
  {
    if digits > 0 {
      NumberOfText(n / 16, digits - 1);
      var s := HexText(n, digits);
      assert s[..|s| - 1] == HexText(n / 16, digits - 1);
    }
  }

  /** The database refuses an id that is not 24 hex digits. */
  function ParseId(s: string): Option<nat> {
    if |s| == 24 then HexNumber(s) else None
  }

  /** A row the database can hold: its time fits a Date, its id an ObjectId. */
  predicate Storable(r: Row) {
    IsTime(r.createdAt) && r.id < Pow16(24)
  }

  // ---------- a page, from text to text ----------

  datatype TextPage = TextPage(data: seq<Row>, hasMore: bool, nextCursor: Option<string>)

  /** The query throws on an invalid date or a malformed id. */
  datatype QueryError = InvalidDate | MalformedId

  ghost predicate TableOk(table: set<Row>) {
    forall r | r in table :: Storable(r)
  }

  function CursorText(js: Runtime, r: Row): string
    requires Plain(js.iso(r.createdAt))
  {
    EncodeCursor(js, r.createdAt, HexText(r.id, 24))
  }

  /** The `cursor` parameter: none or empty text, and text that decodes to null, ask for the first page. */
  function CursorRow(js: Runtime, cursor: Option<string>): Result<Option<Row>, QueryError> {
    if cursor.None? || cursor.value == "" then Ok(None)
    else
      match DecodeCursor(js, cursor.value)
      case None => Ok(None)
      case Some((None, _)) => Err(InvalidDate)
      case Some((Some(t), id)) => if ParseId(id).None? then Err(MalformedId) else Ok(Some(Row(t, ParseId(id).value)))
  }

  ghost function TextOf(js: Runtime, page: Page): TextPage
    requires page.nextCursor.Some? ==> Plain(js.iso(page.nextCursor.value.createdAt))
  {
    TextPage(page.data, page.hasMore, if page.nextCursor.None? then None else Some(CursorText(js, page.nextCursor.value)))
  }

  lemma NextIsPlain(js: Runtime, table: set<Row>, cursor: Option<Row>, limit: nat)
    requires Lawful(js) && TableOk(table) && limit >= 1
    ensures var next := FindAll(table, cursor, limit).nextCursor;
      next.Some? ==> Storable(next.value) && Plain(js.iso(next.value.createdAt))
  {
    PageIsNextBlock(table, cursor, limit);
    var page := FindAll(table, cursor, limit);
    if page.nextCursor.Some? {
      assert page.data[limit - 1] in page.data;
      IsoIsPlain(js, page.nextCursor.value.createdAt);
    }
  }

  lemma IsoIsPlain(js: Runtime, t: int)
    requires Lawful(js) && IsTime(t)
    ensures Plain(js.iso(t))
  {
  }

  /** `findAll` behind `decodeCursor`. */
  ghost function FindAllText(js: Runtime, table: set<Row>, cursor: Option<string>, limit: nat): Result<TextPage, QueryError>
    requires Lawful(js) && TableOk(table) && limit >= 1
  {
    match CursorRow(js, cursor)
    case Err(e) => Err(e)
    case Ok(row) =>
      NextIsPlain(js, table, row, limit);
      Ok(TextOf(js, FindAll(table, row, limit)))
  }

  /** The cursor made from a row asks for what comes after that row. */
  lemma CursorFindsRow(js: Runtime, r: Row)
    requires Lawful(js) && Storable(r)
    ensures CursorRow(js, Some(CursorText(js, r))) == Ok(Some(r))
  {
    var id := HexText(r.id, 24);
    DecodeUndoesEncode(js, r.createdAt, id);
    NumberOfText(r.id, 24);
    NotEmpty(js, r.createdAt, id);
  }

  lemma NotEmpty(js: Runtime, t: int, id: string)
    requires Plain(js.iso(t)) && Plain(id)
    ensures EncodeCursor(js, t, id) != ""
  {
    assert |Encoded(Json(js.iso(t), id))| >= 3;
  }

  /** A malformed cursor restarts the listing: the client gets the first page, not an error. */
  lemma MalformedGivesFirstPage(js: Runtime, table: set<Row>, cursor: string, limit: nat)
    requires Lawful(js) && TableOk(table) && limit >= 1 && DecodeCursor(js, cursor).None?
    ensures FindAllText(js, table, Some(cursor), limit) == FindAllText(js, table, None, limit)
  {
  }

  // ---------- the walk ----------

  /** The pages a client reads by sending each page's cursor back; page k is asked of the table as it is then. */
  ghost function TextWalk(js: Runtime, tables: seq<set<Row>>, cursor: Option<string>, limit: nat): seq<Result<TextPage, QueryError>>
    requires Lawful(js) && limit >= 1 && forall table | table in tables :: TableOk(table)
    decreases |tables|
  {
    if tables == [] then []
    else
      var page := FindAllText(js, tables[0], cursor, limit);
      [page] + if page.Ok? && page.value.nextCursor.Some? then TextWalk(js, tables[1..], page.value.nextCursor, limit) else []
  }

  function RowsRead(pages: seq<Result<TextPage, QueryError>>): seq<Row> {
    if pages == [] then [] else (if pages[0].Ok? then pages[0].value.data else []) + RowsRead(pages[1..])
  }

  /** The last page read says there is no more. */
  predicate Finished(pages: seq<Result<TextPage, QueryError>>) {
    pages != [] && pages[|pages| - 1].Ok? && pages[|pages| - 1].value.nextCursor.None?
  }

  function CursorOf(js: Runtime, cursor: Option<Row>): Option<string>
    requires cursor.Some? ==> Plain(js.iso(cursor.value.createdAt))
  {
    if cursor.None? then None else Some(CursorText(js, cursor.value))
  }

  lemma PageAgrees(js: Runtime, table: set<Row>, cursor: Option<Row>, limit: nat)
    requires Lawful(js) && TableOk(table) && limit >= 1 && (cursor.Some? ==> Storable(cursor.value))
    ensures cursor.Some? ==> Plain(js.iso(cursor.value.createdAt))
    ensures var page := FindAll(table, cursor, limit);
      && (page.nextCursor.Some? ==> Storable(page.nextCursor.value) && Plain(js.iso(page.nextCursor.value.createdAt)))
      && FindAllText(js, table, CursorOf(js, cursor), limit) == Ok(TextOf(js, page))
  {
    if cursor.Some? {
      IsoIsPlain(js, cursor.value.createdAt);
      CursorFindsRow(js, cursor.value);
    }
    NextIsPlain(js, table, cursor, limit);
  }

  predicate CursorOk(js: Runtime, cursor: Option<Row>) {
    cursor.Some? ==> Storable(cursor.value) && Plain(js.iso(cursor.value.createdAt))
  }

  /** The walk over texts reads what the walk over rows reads, page by page: the text loses nothing. */
  lemma {:induction false} TextWalkAgrees(js: Runtime, tables: seq<set<Row>>, cursor: Option<Row>, limit: nat)
    requires Lawful(js) && limit >= 1 && (forall table | table in tables :: TableOk(table)) && CursorOk(js, cursor)
    ensures Agree(TextWalk(js, tables, CursorOf(js, cursor), limit), Walk(tables, cursor, limit))
    decreases |tables|
  {
    if tables != [] {
      assert tables[0] in tables;
      PageAgrees(js, tables[0], cursor, limit);
      var page := FindAll(tables[0], cursor, limit);
      var pages, rows := TextWalk(js, tables, CursorOf(js, cursor), limit), Walk(tables, cursor, limit);
      if page.nextCursor.Some? {
        TextWalkAgrees(js, tables[1..], page.nextCursor, limit);
        OnePageMore(Ok(TextOf(js, page)), page, TextWalk(js, tables[1..], CursorOf(js, page.nextCursor), limit),
                    Walk(tables[1..], page.nextCursor, limit));
      } else {
        OnePageMore(Ok(TextOf(js, page)), page, [], []);
      }
    }
  }

  ghost predicate Agree(pages: seq<Result<TextPage, QueryError>>, rows: seq<Page>) {
    && |pages| == |rows| && RowsRead(pages) == Rows(rows) && (Finished(pages) <==> Complete(rows))
    && forall k | 0 <= k < |pages| :: pages[k].Ok?
  }

  lemma OnePageMore(first: Result<TextPage, QueryError>, page: Page, pages: seq<Result<TextPage, QueryError>>, rows: seq<Page>)
    requires Agree(pages, rows) && first.Ok? && first.value.data == page.data &&
      (first.value.nextCursor.Some? <==> page.nextCursor.Some?)
    ensures Agree([first] + pages, [page] + rows)
  {
    assert ([first] + pages)[1..] == pages && ([page] + rows)[1..] == rows;
  }

  /**
   * Whatever rows are inserted between pages, the rows read by sending the cursors back are in strictly descending
   * order, so none is read twice; no page is refused; and a walk that finishes has read every row that was there at
   * its first page.
   */
  lemma PagesAreComplete(js: Runtime, tables: seq<set<Row>>, limit: nat)
    requires Lawful(js) && limit >= 1 && tables != [] && OnlyInserts(tables) && forall table | table in tables :: TableOk(table)
    ensures var pages := TextWalk(js, tables, None, limit); var read := RowsRead(pages);
      && NewestFirst(read) && (forall i, j | 0 <= i < j < |read| :: read[i] != read[j])
      && (forall k | 0 <= k < |pages| :: pages[k].Ok?)
      && (Finished(pages) ==> forall r | r in tables[0] :: r in read)
  {
    TextWalkAgrees(js, tables, None, limit);
    RowWalkIsComplete(tables, limit);
  }

  /** Without inserts the walk finishes within the pages that cover the rows. */
  lemma WalkEnds(js: Runtime, table: set<Row>, pages: nat, limit: nat)
    requires Lawful(js) && TableOk(table) && limit >= 1 && pages >= 1 && pages * limit >= |table|
    ensures Finished(TextWalk(js, seq(pages, _ => table), None, limit))
    ensures forall r :: r in RowsRead(TextWalk(js, seq(pages, _ => table), None, limit)) <==> r in table
  {
    var tables := seq(pages, _ => table);
    assert Remaining(table, None) == table;
    RowWalkEnds(table, pages, None, limit);
    TextWalkAgrees(js, tables, None, limit);
    PagesAreComplete(js, tables, limit);
    assert tables[0] == table;
    OnlyRowsOf(tables, table, None, limit);
  }

  lemma {:induction false} OnlyRowsOf(tables: seq<set<Row>>, table: set<Row>, cursor: Option<Row>, limit: nat)
    requires limit >= 1 && forall i | 0 <= i < |tables| :: tables[i] == table
    ensures forall r | r in Rows(Walk(tables, cursor, limit)) :: r in table
    decreases |tables|
  {
    if tables != [] {
      var page := FindAll(tables[0], cursor, limit);
      PageIsNextBlock(tables[0], cursor, limit);
      var rows := Walk(tables, cursor, limit);
      if page.nextCursor.Some? {
        OnlyRowsOf(tables[1..], table, page.nextCursor, limit);
        assert rows[1..] == Walk(tables[1..], page.nextCursor, limit);
      } else {
        assert rows[1..] == [];
      }
    }
  }
}
