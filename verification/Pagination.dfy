/** Keyset pages of payments, newest first (src/modules/payments/payments.repository.ts). */
module Pagination {
  import opened Wrappers

  /** The two sort columns; ids are unique, so rows are identified by them. */
  datatype Row = Row(createdAt: int, id: nat)

  /** `createdAt desc, id desc`: `a` is listed before `b`. */
  predicate Precedes(a: Row, b: Row) {
    a.createdAt > b.createdAt || (a.createdAt == b.createdAt && a.id > b.id)
  }

  /** The cursor filter: `createdAt < c.createdAt OR (createdAt = c.createdAt AND id < c.id)`. */
  predicate Past(cursor: Option<Row>, r: Row) {
    cursor.None? || r.createdAt < cursor.value.createdAt || (r.createdAt == cursor.value.createdAt && r.id < cursor.value.id)
  }

  function Remaining(table: set<Row>, cursor: Option<Row>): set<Row> {
    set r | r in table && Past(cursor, r)
  }

  datatype Page = Page(data: seq<Row>, hasMore: bool, nextCursor: Option<Row>)

  predicate Descending(rows: seq<Row>) {
    forall i, j | 0 <= i < j < |rows| :: Precedes(rows[i], rows[j])
  }

  /** The row listed first. */
  ghost function Newest(rows: set<Row>): (r: Row)
    requires rows != {}
    ensures r in rows && forall x | x in rows && x != r :: Precedes(r, x)
  {
    var x :| x in rows;
    var rest := rows - {x};
    assert forall z | z in rows :: z == x || z in rest;
    if rest == {} then x
    else
      var y := Newest(rest);
      if Precedes(x, y) then x else y
  }

  /** `orderBy ... desc`, `take`: the first `take` rows of a set in list order. */
  ghost function Top(rows: set<Row>, take: nat): (s: seq<Row>)
    ensures Descending(s) && |s| == (if take < |rows| then take else |rows|)
    ensures forall r | r in s :: r in rows
    ensures forall r, x | r in s && x in rows && x !in s :: Precedes(r, x)
    decreases take
  {
    if take == 0 || rows == {} then []
    else
      var first := Newest(rows);
      [first] + Top(rows - {first}, take - 1)
  }

  /** `findAll`, on the rows of one merchant and environment. */
  ghost function FindAll(table: set<Row>, cursor: Option<Row>, limit: nat): Page {
    var rows := Top(Remaining(table, cursor), limit + 1);
    var hasMore := |rows| > limit;
    var data := if hasMore then rows[..limit] else rows;
    Page(data, hasMore, if hasMore && data != [] then Some(data[|data| - 1]) else None)
  }

  /** Newest first; rows of one moment by falling id. */
  predicate NewestFirst(rows: seq<Row>) {
    forall i, j | 0 <= i < j < |rows| ::
      rows[i].createdAt > rows[j].createdAt || (rows[i].createdAt == rows[j].createdAt && rows[i].id > rows[j].id)
  }

  /** The row is older than the cursor's, or of its moment with a smaller id; without a cursor every row is meant. */
  predicate ComesAfter(cursor: Option<Row>, r: Row) {
    match cursor
    case None => true
    case Some(c) => c.createdAt > r.createdAt || (c.createdAt == r.createdAt && c.id > r.id)
  }

  /**
   * One page for a caller: at most `limit` rows after the cursor, newest first; a next cursor exactly when rows are left,
   * and then it is the last row of a full page and all rows left come after it.
   */
  lemma PageForCaller(table: set<Row>, cursor: Option<Row>, limit: nat)
    requires limit >= 1
    ensures var page := FindAll(table, cursor, limit);
      && NewestFirst(page.data) && |page.data| <= limit && (page.hasMore <==> page.nextCursor.Some?)
      && (forall r | r in page.data :: r in table && ComesAfter(cursor, r))
      && (page.nextCursor.Some? <==> exists r :: r in table && ComesAfter(cursor, r) && r !in page.data)
      && (page.nextCursor.Some? ==> |page.data| == limit && page.nextCursor == Some(page.data[limit - 1]))
      && (page.nextCursor.Some? ==>
            forall r | r in table && ComesAfter(cursor, r) && r !in page.data :: ComesAfter(page.nextCursor, r))
  {
    PageIsNextBlock(table, cursor, limit);
    assert forall r :: ComesAfter(cursor, r) <==> Past(cursor, r);
    var page := FindAll(table, cursor, limit);
    if page.nextCursor.Some? {
      assert forall r :: ComesAfter(page.nextCursor, r) <==> Past(page.nextCursor, r);
      NextRowIsLeft(table, cursor, limit);
    }
  }

  lemma NextRowIsLeft(table: set<Row>, cursor: Option<Row>, limit: nat)
    requires limit >= 1 && FindAll(table, cursor, limit).nextCursor.Some?
    ensures exists r :: r in table && Past(cursor, r) && r !in FindAll(table, cursor, limit).data
  {
    var rows := Top(Remaining(table, cursor), limit + 1);
    var r := rows[limit];
    assert r in rows;
    assert forall i | 0 <= i < limit :: rows[i] != r;
    assert r !in rows[..limit];
  }

  /** One page: the next `limit` rows past the cursor, in order, and whether anything is left after them. */
  lemma PageIsNextBlock(table: set<Row>, cursor: Option<Row>, limit: nat)
    requires limit >= 1
    ensures var page := FindAll(table, cursor, limit);
      && Descending(page.data) && |page.data| <= limit
      && (forall r | r in page.data :: r in table && Past(cursor, r))
      && (page.nextCursor.None? ==> forall r | r in table && Past(cursor, r) :: r in page.data)
      && (page.nextCursor.Some? ==> |page.data| == limit && page.nextCursor.value == page.data[limit - 1])
      && (page.nextCursor.Some? ==> forall r | r in table && Past(cursor, r) && r !in page.data :: Past(page.nextCursor, r))
      && (page.nextCursor.Some? <==> |Remaining(table, cursor)| > limit)
  {
    var left := Remaining(table, cursor);
    var rows := Top(left, limit + 1);
    if |rows| <= limit {
      AllTaken(left, rows);
    } else {
      assert forall r | r in rows[..limit] :: r in rows;
      BeyondPage(left, rows, limit);
    }
  }

  /** What is left out of the page comes after its last row. */
  lemma BeyondPage(left: set<Row>, rows: seq<Row>, limit: nat)
    requires 1 <= limit < |rows| && Descending(rows)
    requires forall r, x | r in rows && x in left && x !in rows :: Precedes(r, x)
    ensures forall r | r in left && r !in rows[..limit] :: Past(Some(rows[limit - 1]), r)
  {
    forall r | r in left && r !in rows[..limit] ensures Past(Some(rows[limit - 1]), r) {
      if r in rows {
        var k :| 0 <= k < |rows| && rows[k] == r;
        assert forall i | 0 <= i < limit :: rows[..limit][i] == rows[i];
      }
      assert Precedes(rows[limit - 1], r);
    }
  }

  /** A list of distinct rows of a set, as long as the set is large, holds all of it. */
  lemma AllTaken(left: set<Row>, rows: seq<Row>)
    requires Descending(rows) && |rows| == |left| && forall r | r in rows :: r in left
    ensures forall r | r in left :: r in rows
  {
    var taken := set r | r in rows;
    DistinctCount(rows);
    assert taken <= left;
    if exists r :: r in left && r !in rows {
      var r :| r in left && r !in rows;
      assert taken < left;
      SubsetSmaller(taken, left);
    }
  }

  lemma SubsetSmaller<T>(a: set<T>, b: set<T>)
    requires a < b
    ensures |a| < |b|
  {
    assert b == a + (b - a);
  }

  lemma {:induction false} DistinctCount(rows: seq<Row>)
    requires Descending(rows)
    ensures |(set r | r in rows)| == |rows|
  {
    if rows != [] {
      var n := |rows| - 1;
      DistinctCount(rows[..n]);
      assert (set r | r in rows) == (set r | r in rows[..n]) + {rows[n]};
      assert rows[n] !in rows[..n];
    }
  }

  // ---------- following nextCursor ----------

  /** The pages a client reads: page k is asked of the table as it is then. */
  ghost function Walk(tables: seq<set<Row>>, cursor: Option<Row>, limit: nat): seq<Page>
    decreases |tables|
  {
    if tables == [] then []
    else
      var page := FindAll(tables[0], cursor, limit);
      [page] + (if page.nextCursor.None? then [] else Walk(tables[1..], page.nextCursor, limit))
  }

  function Rows(pages: seq<Page>): seq<Row> {
    if pages == [] then [] else pages[0].data + Rows(pages[1..])
  }

  /** Rows are only ever inserted between pages. */
  predicate OnlyInserts(tables: seq<set<Row>>) {
    forall i, j | 0 <= i <= j < |tables| :: tables[i] <= tables[j]
  }

  ghost predicate Complete(pages: seq<Page>) {
    pages != [] && pages[|pages| - 1].nextCursor.None?
  }

  lemma {:induction false} WalkDescends(tables: seq<set<Row>>, cursor: Option<Row>, limit: nat)
    requires limit >= 1
    ensures Descending(Rows(Walk(tables, cursor, limit)))
    ensures forall r | r in Rows(Walk(tables, cursor, limit)) :: Past(cursor, r)
    decreases |tables|
  {
    if tables != [] {
      var page := FindAll(tables[0], cursor, limit);
      PageIsNextBlock(tables[0], cursor, limit);
      if page.nextCursor.Some? {
        WalkDescends(tables[1..], page.nextCursor, limit);
        assert Walk(tables, cursor, limit)[1..] == Walk(tables[1..], page.nextCursor, limit);
        Appended(page.data, Rows(Walk(tables[1..], page.nextCursor, limit)), cursor, page.nextCursor);
      } else {
        assert Walk(tables, cursor, limit)[1..] == [];
        assert Rows(Walk(tables, cursor, limit)) == page.data;
      }
    }
  }

  lemma Appended(data: seq<Row>, more: seq<Row>, cursor: Option<Row>, next: Option<Row>)
    requires Descending(data) && data != [] && next == Some(data[|data| - 1]) && Descending(more)
    requires forall r | r in data :: Past(cursor, r)
    requires forall r | r in more :: Past(next, r)
    ensures Descending(data + more) && forall r | r in data + more :: Past(cursor, r)
  {
    assert Past(cursor, next.value);
    forall i, j | 0 <= i < j < |data + more| ensures Precedes((data + more)[i], (data + more)[j]) {
      if i < |data| <= j {
        assert more[j - |data|] in more;
      }
    }
  }

  lemma {:induction false} WalkCovers(tables: seq<set<Row>>, cursor: Option<Row>, limit: nat, r: Row)
    requires limit >= 1 && tables != [] && OnlyInserts(tables) && Complete(Walk(tables, cursor, limit))
    requires r in tables[0] && Past(cursor, r)
    ensures r in Rows(Walk(tables, cursor, limit))
    decreases |tables|
  {
    var page := FindAll(tables[0], cursor, limit);
    PageIsNextBlock(tables[0], cursor, limit);
    var pages := Walk(tables, cursor, limit);
    if page.nextCursor.Some? {
      var rest := tables[1..];
      assert pages[1..] == Walk(rest, page.nextCursor, limit);
      assert |pages| > 1 by { assert pages[0] == page; }
      if r !in page.data {
        assert tables[0] <= tables[1];
        assert forall i | 0 <= i < |rest| :: rest[i] == tables[i + 1];
        WalkCovers(rest, page.nextCursor, limit, r);
      }
    }
  }

  /**
   * Whatever rows are inserted between pages, the rows read are in strictly descending order, so none is read
   * twice, and a walk that reaches the end has read every row that was there at its first page.
   */
  lemma RowWalkIsComplete(tables: seq<set<Row>>, limit: nat)
    requires limit >= 1 && tables != [] && OnlyInserts(tables)
    ensures var read := Rows(Walk(tables, None, limit));
      && Descending(read)
      && (forall i, j | 0 <= i < j < |read| :: read[i] != read[j])
      && (Complete(Walk(tables, None, limit)) ==> forall r | r in tables[0] :: r in read)
  {
    WalkDescends(tables, None, limit);
    if Complete(Walk(tables, None, limit)) {
      forall r | r in tables[0] ensures r in Rows(Walk(tables, None, limit)) {
        WalkCovers(tables, None, limit, r);
      }
    }
  }

  /** Without inserts the walk ends: every page but the last shrinks what is left by `limit` rows. */
  lemma {:induction false} RowWalkEnds(table: set<Row>, pages: nat, cursor: Option<Row>, limit: nat)
    requires limit >= 1 && pages * limit >= |Remaining(table, cursor)| && pages >= 1
    ensures Complete(Walk(seq(pages, _ => table), cursor, limit))
    decreases pages
  {
    var page := FindAll(table, cursor, limit);
    PageIsNextBlock(table, cursor, limit);
    if page.nextCursor.Some? {
      PageShrinks(table, cursor, limit);
      OnePageLess(pages, limit, |Remaining(table, cursor)|);
      RowWalkEnds(table, pages - 1, page.nextCursor, limit);
      WalkUnfold(table, pages, cursor, limit);
    }
  }

  lemma OnePageLess(pages: nat, limit: nat, left: nat)
    requires pages * limit >= left > limit
    ensures pages >= 2 && (pages - 1) * limit == pages * limit - limit
  {
    if pages <= 1 {
      AtMostOnePage(pages, limit);
    }
  }

  lemma AtMostOnePage(pages: nat, limit: nat)
    requires pages <= 1
    ensures pages * limit <= limit
  {
  }

  lemma WalkUnfold(table: set<Row>, pages: nat, cursor: Option<Row>, limit: nat)
    requires pages >= 1 && FindAll(table, cursor, limit).nextCursor.Some?
    ensures Walk(seq(pages, _ => table), cursor, limit)
      == [FindAll(table, cursor, limit)] + Walk(seq(pages - 1, _ => table), FindAll(table, cursor, limit).nextCursor, limit)
  {
    assert seq(pages, _ => table)[1..] == seq(pages - 1, _ => table);
  }

  lemma PageShrinks(table: set<Row>, cursor: Option<Row>, limit: nat)
    requires limit >= 1 && FindAll(table, cursor, limit).nextCursor.Some?
    ensures var page := FindAll(table, cursor, limit);
      |Remaining(table, page.nextCursor)| + limit <= |Remaining(table, cursor)|
  {
    var page := FindAll(table, cursor, limit);
    PageIsNextBlock(table, cursor, limit);
    TakenAndLater(table, cursor, page.data, page.nextCursor);
  }

  lemma TakenAndLater(table: set<Row>, cursor: Option<Row>, data: seq<Row>, next: Option<Row>)
    requires Descending(data) && data != [] && next == Some(data[|data| - 1]) && forall r | r in data :: r in table && Past(cursor, r)
    ensures |Remaining(table, next)| + |data| <= |Remaining(table, cursor)|
  {
    var left, later := Remaining(table, cursor), Remaining(table, next);
    var taken := set r | r in data;
    DistinctCount(data);
    assert later !! taken;
    assert next.value in data && Past(cursor, next.value);
    assert later + taken <= left;
    assert |later + taken| == |later| + |taken|;
    assert left == (later + taken) + (left - (later + taken));
  }
}
