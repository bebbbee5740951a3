/**
  Cursor lists and the clients that drain them: the server's page
  (apps/api/src/common/pagination/cursor-page.ts, apps/api/src/comment/comment.service.ts:48-67,
  apps/api/src/task/task.service.ts:48-81) and the walk over it (apps/web/lib/task-query.ts:171-205,
  apps/web/lib/member-query.ts:30-49).

  The table may change between two requests in any way; each request reads the table it finds.
*/
module CursorDrain {
  import opened Rows
  import opened Wrappers
  import Keyset

  datatype Row = Row(id: int, position: real, selected: bool)

  datatype CursorPage<K> = CursorPage(items: seq<Row>, nextCursor: Option<K>, hasMore: bool)

  type Table = seq<Row>

  function IdOf(r: Row): int { r.id }

  predicate IdBefore(a: int, b: int) { a < b }

  ghost predicate HasKeys(t: Table) {
    Distinct(Map(IdOf, t))
  }

  /** Splits an over-fetched result; the cursor is the key of the last row delivered. */
  function ToCursorPage<K>(rows: seq<Row>, limit: nat, key: Row -> K): CursorPage<K> {
    var hasMore := |rows| > limit;
    var page := if hasMore then rows[..limit] else rows;
    CursorPage(page, if hasMore && page != [] then Some(key(page[|page| - 1])) else None, hasMore)
  }

  function Selects(): Row -> bool { (r: Row) => r.selected }

  function PositionOf(): Row -> real { (r: Row) => r.position }

  function PositionBefore(): (real, real) -> bool { (a: real, b: real) => a < b }

  /** One request: the selected rows past the cursor, one more than a page of them. */
  function List<K>(t: Table, key: Row -> K, lt: (K, K) -> bool, cursor: Option<K>, limit: nat): CursorPage<K> {
    ToCursorPage(Keyset.Page(t, Selects(), key, lt, cursor, limit + 1), limit, key)
  }

  datatype Drained = Drained(items: seq<Row>, requests: nat, done: bool)

  /** The walk over an endpoint, one table for each request it may make. */
  function Drain<K(==)>(tables: seq<Table>, list: (Table, Option<K>) -> CursorPage<K>, cursor: Option<K>): Drained {
    if tables == [] then Drained([], 0, false)
    else
      var page := list(tables[0], cursor);
      if !page.hasMore || page.nextCursor.None? || page.nextCursor == cursor then Drained(page.items, 1, true)
      else
        var rest := Drain(tables[1..], list, page.nextCursor);
        Drained(page.items + rest.items, 1 + rest.requests, rest.done)
  }

  /** The loop of both clients, over any endpoint. */
  method DrainCursorPages<K(==)>(tables: seq<Table>, list: (Table, Option<K>) -> CursorPage<K>)
    returns (rows: seq<Row>, done: bool)
    ensures var d := Drain(tables, list, None); rows == d.items && done == d.done
  {
    rows := [];
    var cursor: Option<K> := None;
    var request := 0;
    assert tables[0..] == tables;
    while request < |tables|
      invariant 0 <= request <= |tables|
      invariant Drain(tables, list, None).items == rows + Drain(tables[request..], list, cursor).items
      invariant Drain(tables, list, None).done == Drain(tables[request..], list, cursor).done
    {
      var page := list(tables[request], cursor);
      assert tables[request..][0] == tables[request] && tables[request..][1..] == tables[request + 1..];
      rows := rows + page.items;
      if !page.hasMore || page.nextCursor.None? || page.nextCursor == cursor {
        return rows, true;
      }
      cursor := page.nextCursor;
      request := request + 1;
    }
    return rows, false;
  }

  // ---- The endpoints, keyed by id ----

  function ListById(t: Table, cursor: Option<int>, limit: nat): CursorPage<int> {
    List(t, IdOf, IdBefore, cursor, limit)
  }

  function ById(limit: nat): (Table, Option<int>) -> CursorPage<int> {
    (t: Table, cursor: Option<int>) => ListById(t, cursor, limit)
  }

  predicate Behind(cursor: Option<int>, x: int) {
    cursor.None? || cursor.value < x
  }

  /** x is the id of a selected row of t. */
  ghost predicate Holds(t: Table, x: int) {
    exists r :: r in t && r.id == x && r.selected
  }

  ghost predicate Ascending(rows: seq<Row>) {
    forall i, j | 0 <= i < j < |rows| :: rows[i].id < rows[j].id
  }

  ghost predicate Delivered(rows: seq<Row>, x: int) {
    exists i | 0 <= i < |rows| :: rows[i].id == x
  }

  /** A page by id, as its client can rely on it. */
  ghost predicate GoodPage(t: Table, cursor: Option<int>, limit: nat, page: CursorPage<int>) {
    && Ascending(page.items)
    && (forall r | r in page.items :: r in t && r.selected && Behind(cursor, r.id))
    && (page.hasMore ==> |page.items| == limit)
    && page.nextCursor == (if page.hasMore && page.items != [] then Some(page.items[|page.items| - 1].id) else None)
    && (forall x | Holds(t, x) && Behind(cursor, x) ::
          Delivered(page.items, x) || (page.hasMore && forall r | r in page.items :: r.id < x))
  }

  ghost predicate GoodRows(t: Table, cursor: Option<int>, take: nat, found: seq<Row>) {
    && Ascending(found) && |found| <= take
    && (forall r | r in found :: r in t && r.selected && Behind(cursor, r.id))
    && (forall x | Holds(t, x) && Behind(cursor, x) ::
          Delivered(found, x) || (|found| == take && forall r | r in found :: r.id < x))
  }

  lemma FoundIsGood(t: Table, cursor: Option<int>, take: nat)
    requires HasKeys(t)
    ensures GoodRows(t, cursor, take,
                     Keyset.Page(t, Selects(), IdOf, IdBefore, cursor, take))
  {
    var selects, key, lt := Selects(), IdOf, IdBefore;
    var found := Keyset.Page(t, selects, key, lt, cursor, take);
    Keyset.PageIsPage(t, selects, key, lt, cursor, take);
    forall x | Holds(t, x) && Behind(cursor, x)
      ensures Delivered(found, x) || (|found| == take && forall r | r in found :: r.id < x)
    {
      var r :| r in t && r.id == x && r.selected;
      if r in found {
        var k :| 0 <= k < |found| && found[k] == r;
      }
    }
  }

  lemma PrefixIsGood(found: seq<Row>, items: seq<Row>)
    requires Ascending(found) && items <= found
    ensures Ascending(items) && forall r | r in items :: r in found
  {
    assert forall k | 0 <= k < |items| :: items[k] == found[k];
  }

  lemma BeyondTheCut(found: seq<Row>, items: seq<Row>, x: int)
    requires Ascending(found) && items <= found && Delivered(found, x)
    ensures Delivered(items, x) || (|items| < |found| && forall r | r in items :: r.id < x)
  {
    var k :| 0 <= k < |found| && found[k].id == x;
    if k < |items| {
      assert items[k].id == x;
    } else {
      assert forall j | 0 <= j < |items| :: items[j] == found[j];
    }
  }

  lemma CutIsGood(t: Table, cursor: Option<int>, limit: nat, found: seq<Row>)
    requires GoodRows(t, cursor, limit + 1, found)
    ensures GoodPage(t, cursor, limit, ToCursorPage(found, limit, IdOf))
  {
    var page := ToCursorPage(found, limit, IdOf);
    var items := page.items;
    PrefixIsGood(found, items);
    forall x | Holds(t, x) && Behind(cursor, x)
      ensures Delivered(items, x) || (page.hasMore && forall r | r in items :: r.id < x)
    {
      if Delivered(found, x) {
        BeyondTheCut(found, items, x);
      }
    }
  }

  lemma ListIsGood(t: Table, cursor: Option<int>, limit: nat)
    requires HasKeys(t)
    ensures GoodPage(t, cursor, limit, ListById(t, cursor, limit))
  {
    FoundIsGood(t, cursor, limit + 1);
    CutIsGood(t, cursor, limit,
              Keyset.Page(t, Selects(), IdOf, IdBefore, cursor, limit + 1));
  }

  // ---- Whole walks ----

  ghost predicate AllKeyed(tables: seq<Table>) {
    forall i | 0 <= i < |tables| :: HasKeys(tables[i])
  }

  /** One request of a walk. */
  lemma DrainUnrolled(tables: seq<Table>, cursor: Option<int>, limit: nat)
    requires limit > 0 && tables != [] && GoodPage(tables[0], cursor, limit, ListById(tables[0], cursor, limit))
    ensures var page := ListById(tables[0], cursor, limit);
            var walk := Drain(tables, ById(limit), cursor);
            if page.hasMore then walk.items == page.items + Drain(tables[1..], ById(limit), page.nextCursor).items
            else walk.items == page.items
  {
    var page := ListById(tables[0], cursor, limit);
    if page.hasMore {
      assert page.items[limit - 1] in page.items;
    }
  }

  /** A walk, finished or not, delivers in id order and no row twice. */
  lemma {:induction false} DrainAscends(tables: seq<Table>, cursor: Option<int>, limit: nat)
    requires limit > 0 && AllKeyed(tables)
    ensures Ascending(Drain(tables, ById(limit), cursor).items)
    ensures forall r | r in Drain(tables, ById(limit), cursor).items :: Behind(cursor, r.id)
    decreases |tables|
  {
    if tables != [] {
      var page := ListById(tables[0], cursor, limit);
      ListIsGood(tables[0], cursor, limit);
      DrainUnrolled(tables, cursor, limit);
      if page.hasMore {
        var rest := Drain(tables[1..], ById(limit), page.nextCursor).items;
        DrainAscends(tables[1..], page.nextCursor, limit);
        PageThenRest(page, cursor, limit, rest);
      }
    }
  }

  lemma PageThenRest(page: CursorPage<int>, cursor: Option<int>, limit: nat, rest: seq<Row>)
    requires |page.items| == limit > 0 && page.nextCursor == Some(page.items[limit - 1].id)
    requires Ascending(page.items) && forall r | r in page.items :: Behind(cursor, r.id)
    requires Ascending(rest) && forall r | r in rest :: Behind(page.nextCursor, r.id)
    ensures Ascending(page.items + rest) && forall r | r in page.items + rest :: Behind(cursor, r.id)
  {
    assert page.items[limit - 1] in page.items;
    JoinPages(page.items, rest, page.items[limit - 1].id);
  }

  function Times(n: nat, limit: nat): nat {
    if n == 0 then 0 else limit + Times(n - 1, limit)
  }

  /** While a walk goes on, every request brings a full page. */
  lemma {:induction false} DrainInFullPages(tables: seq<Table>, cursor: Option<int>, limit: nat)
    requires limit > 0 && AllKeyed(tables) && !Drain(tables, ById(limit), cursor).done
    ensures Drain(tables, ById(limit), cursor).requests == |tables|
    ensures |Drain(tables, ById(limit), cursor).items| == Times(|tables|, limit)
    decreases |tables|
  {
    if tables != [] {
      var page := ListById(tables[0], cursor, limit);
      ListIsGood(tables[0], cursor, limit);
      DrainInFullPages(tables[1..], page.nextCursor, limit);
    }
  }

  /** Everything delivered was shown by some page. */
  lemma {:induction false} DrainShowsOnlyListed(tables: seq<Table>, cursor: Option<int>, limit: nat, r: Row)
    requires limit > 0 && AllKeyed(tables) && r in Drain(tables, ById(limit), cursor).items
    ensures exists i | 0 <= i < |tables| :: r in tables[i] && r.selected
    decreases |tables|
  {
    var page := ListById(tables[0], cursor, limit);
    ListIsGood(tables[0], cursor, limit);
    if r !in page.items {
      DrainShowsOnlyListed(tables[1..], page.nextCursor, limit, r);
      var i :| 0 <= i < |tables[1..]| && r in tables[1..][i];
      assert r in tables[i + 1];
    }
  }

  /** A row that stays in the list from the first request to the last is delivered, wherever it moves. */
  lemma {:induction false} DrainMissesNothing(tables: seq<Table>, cursor: Option<int>, limit: nat, x: int)
    requires limit > 0 && AllKeyed(tables) && Drain(tables, ById(limit), cursor).done
    requires Behind(cursor, x)
    requires Throughout(tables, Drain(tables, ById(limit), cursor).requests, x)
    ensures Delivered(Drain(tables, ById(limit), cursor).items, x)
    decreases |tables|
  {
    var page := ListById(tables[0], cursor, limit);
    ListIsGood(tables[0], cursor, limit);
    assert Holds(tables[0], x);
    if page.hasMore {
      var rest := Drain(tables[1..], ById(limit), page.nextCursor);
      if !Delivered(page.items, x) {
        forall i | 0 <= i < rest.requests && i < |tables[1..]| ensures Holds(tables[1..][i], x) {
          assert Holds(tables[i + 1], x);
        }
        assert page.items[limit - 1] in page.items;
        DrainMissesNothing(tables[1..], page.nextCursor, limit, x);
      }
      DeliveredBySome(page.items, rest.items, x);
    }
  }

  /** x was in the list at every request made. */
  ghost predicate Throughout(tables: seq<Table>, requests: nat, x: int) {
    forall i | 0 <= i < requests && i < |tables| :: Holds(tables[i], x)
  }

  ghost predicate DeliveredOnce(rows: seq<Row>, x: int) {
    exists i | 0 <= i < |rows| :: rows[i].id == x && forall j | 0 <= j < |rows| && rows[j].id == x :: j == i
  }

  /**
    A finished walk from the start: id order, and every row that stayed in the list throughout is
    there exactly once, whatever was inserted, deleted or moved between two requests.
  */
  lemma DrainIsExact(tables: seq<Table>, limit: nat)
    requires limit > 0 && AllKeyed(tables) && Drain(tables, ById(limit), None).done
    ensures var d := Drain(tables, ById(limit), None);
            && Ascending(d.items)
            && (forall r | r in d.items :: exists i | 0 <= i < |tables| :: r in tables[i] && r.selected)
            && (forall x | Throughout(tables, d.requests, x) :: DeliveredOnce(d.items, x))
  {
    var d := Drain(tables, ById(limit), None);
    DrainAscends(tables, None, limit);
    forall r | r in d.items ensures exists i | 0 <= i < |tables| :: r in tables[i] && r.selected {
      DrainShowsOnlyListed(tables, None, limit, r);
    }
    forall x | Throughout(tables, d.requests, x) ensures DeliveredOnce(d.items, x) {
      DrainMissesNothing(tables, None, limit, x);
      DeliveredIsOnce(d.items, x);
    }
  }

  lemma DeliveredIsOnce(rows: seq<Row>, x: int)
    requires Ascending(rows) && Delivered(rows, x)
    ensures DeliveredOnce(rows, x)
  {
    var i :| 0 <= i < |rows| && rows[i].id == x;
    assert forall j | 0 <= j < |rows| && rows[j].id == x :: j == i;
  }

  lemma JoinPages(a: seq<Row>, b: seq<Row>, last: int)
    requires Ascending(a) && Ascending(b) && a != [] && a[|a| - 1].id == last && forall r | r in b :: last < r.id
    ensures Ascending(a + b)
  {
    forall i, j | 0 <= i < j < |a + b| ensures (a + b)[i].id < (a + b)[j].id {
      if i < |a| <= j {
        assert b[j - |a|] in b;
        assert i < |a| - 1 ==> a[i].id < a[|a| - 1].id;
      }
    }
  }

  lemma DeliveredBySome(a: seq<Row>, b: seq<Row>, x: int)
    requires Delivered(a, x) || Delivered(b, x)
    ensures Delivered(a + b, x)
  {
    if i :| 0 <= i < |a| && a[i].id == x {
      assert (a + b)[i].id == x;
    } else {
      var j :| 0 <= j < |b| && b[j].id == x;
      assert (a + b)[|a| + j].id == x;
    }
  }

  /** A walk over lists with |ids| different ids between them ends once its requests could have carried more. */
  lemma DrainEnds(tables: seq<Table>, limit: nat, ids: set<int>)
    requires limit > 0 && AllKeyed(tables)
    requires forall i, r | 0 <= i < |tables| && r in tables[i] :: r.id in ids
    requires |tables| * limit > |ids|
    ensures Drain(tables, ById(limit), None).done
  {
    var d := Drain(tables, ById(limit), None);
    DrainAscends(tables, None, limit);
    if !d.done {
      DrainInFullPages(tables, None, limit);
    }
    forall i | 0 <= i < |d.items| ensures d.items[i].id in ids {
      assert d.items[i] in d.items;
      DrainShowsOnlyListed(tables, None, limit, d.items[i]);
    }
    AscendingFits(d.items, ids);
    TimesIsProduct(|tables|, limit);
  }

  lemma {:induction false} TimesIsProduct(n: nat, limit: nat)
    ensures Times(n, limit) == n * limit
  {
    if n > 0 {
      TimesIsProduct(n - 1, limit);
    }
  }

  lemma {:induction false} AscendingFits(rows: seq<Row>, ids: set<int>)
    requires Ascending(rows) && forall i | 0 <= i < |rows| :: rows[i].id in ids
    ensures |rows| <= |ids|
    decreases |rows|
  {
    if rows != [] {
      var n := |rows| - 1;
      AscendingFits(rows[..n], ids - {rows[n].id});
    }
  }

  // ---- Why the cursor is the id ----

  function ByPosition(limit: nat): (Table, Option<real>) -> CursorPage<real> {
    (t: Table, cursor: Option<real>) =>
      List(t, PositionOf(), PositionBefore(), cursor, limit)
  }

  function RowA(): Row { Row(1, 1.0, true) }

  function RowB(): Row { Row(2, 2.0, true) }

  function RowC(): Row { Row(3, 3.0, true) }

  /** The third row after it was dragged to the front. */
  function Dragged(): Row { Row(3, 0.5, true) }

  function BeforeDrag(): Table { [RowA(), RowB(), RowC()] }

  function AfterDrag(): Table { [Dragged(), RowA(), RowB()] }

  lemma DragKeepsKeys()
    ensures HasKeys(BeforeDrag()) && HasKeys(AfterDrag())
    ensures Distinct(Map(PositionOf(), BeforeDrag())) && Distinct(Map(PositionOf(), AfterDrag()))
  {
  }

  lemma DragKeepsRow()
    ensures Holds(BeforeDrag(), 3) && Holds(AfterDrag(), 3)
  {
    assert RowC() in BeforeDrag() && Dragged() in AfterDrag();
  }

  lemma WalkPastDrag()
    ensures Drain([BeforeDrag(), AfterDrag()], ByPosition(1), None) == Drained([RowA(), RowB()], 2, true)
  {
    DragKeepsKeys();
    FirstByPosition(RowA(), RowB(), RowC());
    SecondByPosition(Dragged(), RowA(), RowB());
    DrainTwo(BeforeDrag(), AfterDrag(), ByPosition(1), RowA(), RowB(), 1.0);
  }

  /**
    With the position as the cursor, a row dragged behind it while the walk runs is lost although
    it never left the list.
  */
  lemma PositionCursorLosesRows()
    ensures exists tables: seq<Table>, x: int ::
              && AllKeyed(tables) && (forall i | 0 <= i < |tables| :: Holds(tables[i], x))
              && Drain(tables, ByPosition(1), None).done && !Delivered(Drain(tables, ByPosition(1), None).items, x)
  {
    var tables := DragTables();
    assert !Delivered(Drain(tables, ByPosition(1), None).items, 3);
  }

  lemma DragTables() returns (tables: seq<Table>)
    ensures AllKeyed(tables) && forall i | 0 <= i < |tables| :: Holds(tables[i], 3)
    ensures Drain(tables, ByPosition(1), None) == Drained([RowA(), RowB()], 2, true)
  {
    DragKeepsKeys();
    DragKeepsRow();
    WalkPastDrag();
    TwoTables(BeforeDrag(), AfterDrag(), 3);
    tables := [BeforeDrag(), AfterDrag()];
  }

  lemma TwoTables(a: Table, b: Table, x: int)
    requires HasKeys(a) && HasKeys(b) && Holds(a, x) && Holds(b, x)
    ensures AllKeyed([a, b]) && forall i | 0 <= i < |[a, b]| :: Holds([a, b][i], x)
  {
  }

  /** A walk of two requests. */
  lemma DrainTwo<K>(t0: Table, t1: Table, list: (Table, Option<K>) -> CursorPage<K>, a: Row, b: Row, k: K)
    requires list(t0, None) == CursorPage([a], Some(k), true) && list(t1, Some(k)) == CursorPage([b], None, false)
    ensures Drain([t0, t1], list, None) == Drained([a, b], 2, true)
  {
    assert [t0, t1][1..] == [t1];
    assert Drain([t1], list, Some(k)) == Drained([b], 1, true);
    assert [a] + [b] == [a, b];
  }

  ghost predicate IsPositionPage(t: Table, cursor: Option<real>, take: nat, found: seq<Row>) {
    Keyset.IsPage(t, Selects(), PositionOf(), PositionBefore(), cursor, take, found)
  }

  lemma FirstTwo(a: Row, b: Row, c: Row, found: seq<Row>)
    requires a.selected && b.selected && c.selected && a.position < b.position < c.position
    requires IsPositionPage([a, b, c], None, 2, found)
    ensures found == [a, b]
  {
    var t := [a, b, c];
    assert a in t && b in t && c in t;
    assert a in found && b in found && |found| == 2;
    assert found[0] in found && found[1] in found;
  }

  lemma OnlyLast(moved: Row, a: Row, b: Row, found: seq<Row>)
    requires moved.selected && a.selected && b.selected && moved.position < a.position < b.position
    requires IsPositionPage([moved, a, b], Some(a.position), 2, found)
    ensures found == [b]
  {
    forall i | 0 <= i < |found| ensures found[i] == b {
      assert found[i] in found;
    }
    assert b in [moved, a, b];
    assert |found| == 2 ==> found[0].position < found[1].position;
    assert b in found;
  }

  lemma ListsPage(t: Table, cursor: Option<real>) returns (found: seq<Row>)
    requires Distinct(Map(PositionOf(), t))
    ensures IsPositionPage(t, cursor, 2, found) && ByPosition(1)(t, cursor) == ToCursorPage(found, 1, PositionOf())
  {
    found := Keyset.Page(t, Selects(), PositionOf(), PositionBefore(), cursor, 2);
    Keyset.PageIsPage(t, Selects(), PositionOf(), PositionBefore(), cursor, 2);
  }

  lemma FirstByPosition(a: Row, b: Row, c: Row)
    requires Distinct(Map(PositionOf(), [a, b, c]))
    requires a.selected && b.selected && c.selected && a.position < b.position < c.position
    ensures ByPosition(1)([a, b, c], None) == CursorPage([a], Some(a.position), true)
  {
    var found := ListsPage([a, b, c], None);
    FirstTwo(a, b, c, found);
    assert found[..1] == [a];
  }

  lemma SecondByPosition(moved: Row, a: Row, b: Row)
    requires Distinct(Map(PositionOf(), [moved, a, b]))
    requires moved.selected && a.selected && b.selected && moved.position < a.position < b.position
    ensures ByPosition(1)([moved, a, b], Some(a.position)) == CursorPage([b], None, false)
  {
    var found := ListsPage([moved, a, b], Some(a.position));
    OnlyLast(moved, a, b, found);
  }
}
