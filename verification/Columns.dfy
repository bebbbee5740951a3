/**
  Column ordering (apps/api/src/board/column.service.ts, apps/api/src/common/position): rows carry
  a fractional position, and a create or a move lands in the gap between two neighbours, or
  renumbers the whole board when that gap is used up.

  An absent neighbour id and an empty one mean the same to the service, so both are None here.
*/
module Columns {
  import opened Rows
  import opened Wrappers

  const POSITION_GAP := 1000.0
  const MIN_GAP := 0.000001

  datatype Column = Column(id: int, position: real)
  type Table = seq<Column>

  datatype Error = NotFound | BadRequest | Conflict

  /** `ORDER BY position, id`. */
  predicate Precedes(a: Column, b: Column) {
    a.position < b.position || (a.position == b.position && a.id <= b.id)
  }

  function IdOf(c: Column): int {
    c.id
  }

  ghost predicate Valid(t: Table) {
    Distinct(Map(IdOf, t))
  }

  function Listed(t: Table): seq<Column> {
    Sort(Precedes, t)
  }

  /** The board as its users see it. */
  function Order(t: Table): seq<int> {
    Map(IdOf, Listed(t))
  }

  // ---- Position arithmetic ----

  function Midpoint(prev: Option<real>, next: Option<real>): real {
    if prev.None? then if next.None? then POSITION_GAP else next.value - POSITION_GAP
    else if next.None? then prev.value + POSITION_GAP
    else (prev.value + next.value) / 2.0
  }

  predicate NeedsRebalance(prev: Option<real>, next: Option<real>) {
    prev.Some? && next.Some? && next.value - prev.value < MIN_GAP
  }

  function RebalancedAt(index: nat): real {
    (index + 1) as real * POSITION_GAP
  }

  function PositionAt(s: seq<Column>, i: int): Option<real> {
    if 0 <= i < |s| then Some(s[i].position) else None
  }

  /** `findIndex`, minus one when there is none. */
  function IndexOf(ids: seq<int>, id: int): (k: int)
    ensures -1 <= k < |ids|
    ensures 0 <= k ==> ids[k] == id
    ensures k < 0 ==> id !in ids
  {
    if ids == [] then -1
    else if ids[0] == id then 0
    else
      var k := IndexOf(ids[1..], id);
      assert ids == [ids[0]] + ids[1..];
      if k < 0 then -1 else k + 1
  }

  function ResolveCreate(siblings: seq<int>, prev: Option<int>): (r: Result<nat, Error>)
    ensures r.Ok? ==> r.value <= |siblings|
  {
    if prev.None? then Ok(|siblings|)
    else if IndexOf(siblings, prev.value) < 0 then Err(NotFound)
    else Ok(IndexOf(siblings, prev.value) + 1)
  }

  function ResolveMove(remaining: seq<int>, prev: Option<int>, next: Option<int>): (r: Result<nat, Error>)
    ensures r.Ok? ==> r.value <= |remaining|
  {
    var prevIndex := if prev.None? then -1 else IndexOf(remaining, prev.value);
    var nextIndex := if next.None? then -1 else IndexOf(remaining, next.value);
    if || (prev.Some? && prevIndex < 0)
       || (next.Some? && nextIndex < 0)
       || (0 <= prevIndex && 0 <= nextIndex && nextIndex != prevIndex + 1)
    then Err(NotFound)
    else Ok(if 0 <= prevIndex then prevIndex + 1 else if 0 <= nextIndex then nextIndex else |remaining|)
  }

  // ---- What a transaction writes ----

  /** Positions set by id, then rows inserted. */
  datatype Writes = Writes(updates: seq<Column>, inserted: seq<Column>)

  function Rewritten(updates: seq<Column>, c: Column): Column {
    var k := IndexOf(Map(IdOf, updates), c.id);
    if k < 0 then c else c.(position := updates[k].position)
  }

  function Rewriting(updates: seq<Column>): Column -> Column {
    (c: Column) => Rewritten(updates, c)
  }

  function Apply(t: Table, w: Writes): Table {
    Map(Rewriting(w.updates), t) + w.inserted
  }

  function InsertAt<T>(s: seq<T>, i: nat, x: T): seq<T>
    requires i <= |s|
  {
    s[..i] + [x] + s[i..]
  }

  /** Evenly spaced positions for the given order. */
  function Renumbered(ids: seq<int>): (r: seq<Column>)
    ensures |r| == |ids|
    ensures forall k | 0 <= k < |r| :: r[k] == Column(ids[k], RebalancedAt(k))
  {
    seq(|ids|, k requires 0 <= k < |ids| => Column(ids[k], RebalancedAt(k)))
  }

  function PlanCreate(t: Table, id: int, prev: Option<int>): Result<Writes, Error> {
    var columns := Listed(t);
    match ResolveCreate(Map(IdOf, columns), prev)
    case Err(e) => Err(e)
    case Ok(i) =>
      var before, behind := PositionAt(columns, i - 1), PositionAt(columns, i);
      if NeedsRebalance(before, behind)
      then
        var updates := seq(|columns|, k requires 0 <= k < |columns| =>
                             Column(columns[k].id, RebalancedAt(if k < i then k else k + 1)));
        Ok(Writes(updates, [Column(id, RebalancedAt(i))]))
      else Ok(Writes([], [Column(id, Midpoint(before, behind))]))
  }

  function OtherThan(id: int): Column -> bool {
    (c: Column) => c.id != id
  }

  function PlanMove(t: Table, id: int, prev: Option<int>, next: Option<int>): Result<Writes, Error> {
    var remaining := Filter(OtherThan(id), Listed(t));
    var ids := Map(IdOf, remaining);
    match ResolveMove(ids, prev, next)
    case Err(e) => Err(e)
    case Ok(i) =>
      var before, behind := PositionAt(remaining, i - 1), PositionAt(remaining, i);
      if NeedsRebalance(before, behind) then Ok(Writes(Renumbered(InsertAt(ids, i, id)), []))
      else Ok(Writes([Column(id, Midpoint(before, behind))], []))
  }

  function DefaultColumns(ids: (int, int, int)): seq<Column> {
    [Column(ids.0, 1000.0), Column(ids.1, 2000.0), Column(ids.2, 3000.0)]
  }

  function PlanDefaults(t: Table, ids: (int, int, int)): Result<Writes, Error> {
    if |t| > 0 then Err(Conflict) else Ok(Writes([], DefaultColumns(ids)))
  }

  // ---- The requests, run alone ----

  function Written(t: Table, plan: Result<Writes, Error>): Result<Table, Error> {
    match plan
    case Ok(w) => Ok(Apply(t, w))
    case Err(e) => Err(e)
  }

  predicate OwnNeighbour(id: int, prev: Option<int>, next: Option<int>) {
    prev == Some(id) || next == Some(id)
  }

  function Create(t: Table, id: int, prev: Option<int>): Result<Table, Error> {
    Written(t, PlanCreate(t, id, prev))
  }

  function Move(t: Table, id: int, prev: Option<int>, next: Option<int>): Result<Table, Error> {
    if id !in Map(IdOf, t) then Err(NotFound)
    else if OwnNeighbour(id, prev, next) then Err(BadRequest)
    else Written(t, PlanMove(t, id, prev, next))
  }

  function Defaults(t: Table, ids: (int, int, int)): Result<Table, Error> {
    Written(t, PlanDefaults(t, ids))
  }

  function Remove(t: Table, id: int, hasTasks: bool): Result<Table, Error> {
    if id !in Map(IdOf, t) then Err(NotFound)
    else if hasTasks then Err(Conflict)
    else Ok(Filter(OtherThan(id), t))
  }

  // ---- The same requests on a plain list ----

  function Without(o: seq<int>, id: int): seq<int> {
    Filter((x: int) => x != id, o)
  }

  /** In position order: the new id stands right behind the named one, or last. */
  ghost predicate LandsCreated(o: seq<int>, i: nat, prev: Option<int>) {
    && i <= |o|
    && (prev.None? ==> i == |o|)
    && (prev.Some? ==> 0 < i && o[i - 1] == prev.value)
  }

  /** Right behind the one, right before the other, last when neither is named. */
  ghost predicate LandsMoved(rest: seq<int>, i: nat, prev: Option<int>, next: Option<int>) {
    && i <= |rest|
    && (prev.Some? ==> 0 < i && rest[i - 1] == prev.value)
    && (next.Some? ==> i < |rest| && rest[i] == next.value)
    && (prev.None? && next.None? ==> i == |rest|)
  }

  lemma CreateSlot(o: seq<int>, prev: Option<int>)
    requires Distinct(o)
    ensures ResolveCreate(o, prev) == Err(NotFound) || ResolveCreate(o, prev).Ok?
    ensures ResolveCreate(o, prev).Ok? ==> LandsCreated(o, ResolveCreate(o, prev).value, prev)
    ensures forall i: nat | LandsCreated(o, i, prev) :: ResolveCreate(o, prev) == Ok(i)
  {
  }

  lemma MoveSlot(rest: seq<int>, prev: Option<int>, next: Option<int>)
    requires Distinct(rest)
    ensures ResolveMove(rest, prev, next) == Err(NotFound) || ResolveMove(rest, prev, next).Ok?
    ensures ResolveMove(rest, prev, next).Ok? ==> LandsMoved(rest, ResolveMove(rest, prev, next).value, prev, next)
    ensures forall i: nat | LandsMoved(rest, i, prev, next) :: ResolveMove(rest, prev, next) == Ok(i)
  {
  }

  function ListCreate(o: seq<int>, id: int, prev: Option<int>): Result<seq<int>, Error> {
    match ResolveCreate(o, prev)
    case Err(e) => Err(e)
    case Ok(i) => Ok(InsertAt(o, i, id))
  }

  function ListMove(o: seq<int>, id: int, prev: Option<int>, next: Option<int>): Result<seq<int>, Error> {
    if id !in o then Err(NotFound)
    else if OwnNeighbour(id, prev, next) then Err(BadRequest)
    else
      match ResolveMove(Without(o, id), prev, next)
      case Err(e) => Err(e)
      case Ok(i) => Ok(InsertAt(Without(o, id), i, id))
  }

  function ListDefaults(o: seq<int>, ids: (int, int, int)): Result<seq<int>, Error> {
    if |o| > 0 then Err(Conflict) else Ok([ids.0, ids.1, ids.2])
  }

  function ListRemove(o: seq<int>, id: int, hasTasks: bool): Result<seq<int>, Error> {
    if id !in o then Err(NotFound) else if hasTasks then Err(Conflict) else Ok(Without(o, id))
  }

  /** The table request and the list request end alike, and the table then lists that list. */
  ghost predicate Shows(r: Result<Table, Error>, l: Result<seq<int>, Error>) {
    match (r, l)
    case (Ok(t), Ok(o)) => Valid(t) && Order(t) == o
    case (Err(e), Err(f)) => e == f
    case _ => false
  }

  // ---- Reading back what was written ----

  lemma PrecedesIsTotal()
    ensures TotalPreorder(Precedes)
  {
  }

  lemma ListedFacts(t: Table)
    requires Valid(t)
    ensures Sorted(Precedes, Listed(t)) && multiset(Listed(t)) == multiset(t)
    ensures Distinct(Order(t)) && |Order(t)| == |Listed(t)| == |t|
    ensures forall id :: id in Order(t) <==> id in Map(IdOf, t)
  {
    PrecedesIsTotal();
    SortPermutation(Precedes, t);
    SortSorted(Precedes, t);
    DistinctPermutation(IdOf, t, Listed(t));
    MapMultiset(IdOf, Listed(t), t);
    forall id ensures id in Order(t) <==> id in Map(IdOf, t) {
      assert id in multiset(Order(t)) <==> id in multiset(Map(IdOf, t));
    }
  }

  /** Any sorted arrangement of the written rows is what the next reader lists. */
  lemma ListedAfter(t: Table, w: Writes, s: seq<Column>)
    requires Sorted(Precedes, s)
    requires multiset(s) == multiset(Map(Rewriting(w.updates), Listed(t))) + multiset(w.inserted)
    ensures Listed(Apply(t, w)) == s
  {
    PrecedesIsTotal();
    SortPermutation(Precedes, t);
    MapMultiset(Rewriting(w.updates), Listed(t), t);
    SortIs(Precedes, Apply(t, w), s);
  }

  lemma InsertAtFacts<T>(s: seq<T>, i: nat, x: T)
    requires i <= |s|
    ensures |InsertAt(s, i, x)| == |s| + 1
    ensures forall k | 0 <= k <= |s| :: InsertAt(s, i, x)[k] == if k < i then s[k] else if k == i then x else s[k - 1]
    ensures multiset(InsertAt(s, i, x)) == multiset(s) + multiset{x}
  {
    assert s == s[..i] + s[i..];
  }

  lemma MapInsertAt<T, U>(f: T -> U, s: seq<T>, i: nat, x: T)
    requires i <= |s|
    ensures Map(f, InsertAt(s, i, x)) == InsertAt(Map(f, s), i, f(x))
  {
    InsertAtFacts(s, i, x);
    InsertAtFacts(Map(f, s), i, f(x));
  }

  /** The neighbours' gap is open, so its midpoint sorts between them. */
  lemma MidpointSorts(s: seq<Column>, i: nat, id: int)
    requires i <= |s| && Sorted(Precedes, s)
    requires !NeedsRebalance(PositionAt(s, i - 1), PositionAt(s, i))
    ensures Sorted(Precedes, InsertAt(s, i, Column(id, Midpoint(PositionAt(s, i - 1), PositionAt(s, i)))))
  {
    var x := Column(id, Midpoint(PositionAt(s, i - 1), PositionAt(s, i)));
    InsertAtFacts(s, i, x);
    assert 0 < i ==> s[i - 1].position < x.position;
    assert i < |s| ==> x.position < s[i].position;
    forall k | 0 <= k < i ensures Precedes(s[k], x) { assert k < i - 1 ==> Precedes(s[k], s[i - 1]); }
    forall k | i <= k < |s| ensures Precedes(x, s[k]) { assert i < k ==> Precedes(s[i], s[k]); }
  }

  lemma RenumberedSorts(ids: seq<int>)
    ensures Sorted(Precedes, Renumbered(ids)) && Map(IdOf, Renumbered(ids)) == ids
  {
    assert Map(IdOf, Renumbered(ids)) == ids;
  }

  lemma IndexOfDistinct(ids: seq<int>, k: nat)
    requires Distinct(ids) && k < |ids|
    ensures IndexOf(ids, ids[k]) == k
  {
  }

  /** Renumbering reaches every row it names, and only those. */
  lemma RewritingAll(s: seq<Column>, updates: seq<Column>)
    requires Distinct(Map(IdOf, s)) && Map(IdOf, updates) == Map(IdOf, s)
    ensures Map(Rewriting(updates), s) == updates
  {
    forall k | 0 <= k < |s| ensures Rewritten(updates, s[k]) == updates[k] {
      assert Map(IdOf, s)[k] == s[k].id == Map(IdOf, updates)[k] == updates[k].id;
      IndexOfDistinct(Map(IdOf, updates), k);
    }
  }

  /** The listing after x was put into slot i of s: in the gap, or with every position redealt. */
  function Landed(s: seq<Column>, i: nat, id: int): seq<Column>
    requires i <= |s|
  {
    if NeedsRebalance(PositionAt(s, i - 1), PositionAt(s, i)) then Renumbered(InsertAt(Map(IdOf, s), i, id))
    else InsertAt(s, i, Column(id, Midpoint(PositionAt(s, i - 1), PositionAt(s, i))))
  }

  lemma LandedOrder(s: seq<Column>, i: nat, id: int)
    requires i <= |s| && Sorted(Precedes, s)
    ensures Sorted(Precedes, Landed(s, i, id))
    ensures Map(IdOf, Landed(s, i, id)) == InsertAt(Map(IdOf, s), i, id)
  {
    if NeedsRebalance(PositionAt(s, i - 1), PositionAt(s, i)) {
      RenumberedSorts(InsertAt(Map(IdOf, s), i, id));
    } else {
      MidpointSorts(s, i, id);
      MapInsertAt(IdOf, s, i, Column(id, Midpoint(PositionAt(s, i - 1), PositionAt(s, i))));
    }
  }

  lemma InsertAtMultiset<T>(s: seq<T>, i: nat, x: T)
    requires i <= |s|
    ensures multiset(InsertAt(s, i, x)) == multiset(s) + multiset([x])
  {
    InsertAtFacts(s, i, x);
  }

  /** Renumbering on a create: the old rows' new positions and the new row make up the new listing. */
  lemma CreateRenumbers(columns: seq<Column>, i: nat, id: int, updates: seq<Column>)
    requires i <= |columns| && Distinct(Map(IdOf, columns)) && |updates| == |columns|
    requires forall k | 0 <= k < |columns| ::
             updates[k] == Column(columns[k].id, RebalancedAt(if k < i then k else k + 1))
    ensures multiset(Renumbered(InsertAt(Map(IdOf, columns), i, id)))
            == multiset(Map(Rewriting(updates), columns)) + multiset([Column(id, RebalancedAt(i))])
  {
    var x := Column(id, RebalancedAt(i));
    assert Map(IdOf, updates) == Map(IdOf, columns);
    RewritingAll(columns, updates);
    assert Renumbered(InsertAt(Map(IdOf, columns), i, id)) == InsertAt(updates, i, x) by {
      InsertAtFacts(Map(IdOf, columns), i, id);
      InsertAtFacts(updates, i, x);
    }
    InsertAtMultiset(updates, i, x);
  }

  lemma RewritingNone(s: seq<Column>)
    ensures Map(Rewriting([]), s) == s
  {
  }

  lemma CreateListed(t: Table, id: int, prev: Option<int>)
    requires Valid(t) && ResolveCreate(Order(t), prev).Ok?
    ensures Create(t, id, prev).Ok?
    ensures Listed(Create(t, id, prev).value) == Landed(Listed(t), ResolveCreate(Order(t), prev).value, id)
  {
    ListedFacts(t);
    var columns := Listed(t);
    var i: nat := ResolveCreate(Order(t), prev).value;
    var w := PlanCreate(t, id, prev).value;
    LandedOrder(columns, i, id);
    if NeedsRebalance(PositionAt(columns, i - 1), PositionAt(columns, i)) {
      CreateRenumbers(columns, i, id, w.updates);
    } else {
      RewritingNone(columns);
      InsertAtMultiset(columns, i, w.inserted[0]);
    }
    ListedAfter(t, w, Landed(columns, i, id));
  }

  lemma OthersDiffer(a: seq<Column>, x: Column, b: seq<Column>)
    requires Distinct(Map(IdOf, a + [x] + b))
    ensures forall y | y in a :: y.id != x.id
    ensures forall y | y in b :: y.id != x.id
  {
    var s := a + [x] + b;
    var ids := Map(IdOf, s);
    assert s[|a|] == x;
    forall y | y in a ensures y.id != x.id {
      var k :| 0 <= k < |a| && a[k] == y;
      assert s[k] == y && ids[k] != ids[|a|];
    }
    forall y | y in b ensures y.id != x.id {
      var k :| 0 <= k < |b| && b[k] == y;
      assert s[|a| + 1 + k] == y && ids[|a| + 1 + k] != ids[|a|];
    }
  }

  lemma FilterOtherParts(a: seq<Column>, x: Column, b: seq<Column>)
    requires Distinct(Map(IdOf, a + [x] + b))
    ensures Filter(OtherThan(x.id), a + [x] + b) == a + b
  {
    OthersDiffer(a, x, b);
    FilterAllBut(OtherThan(x.id), a, x, b);
  }

  /** Leaving one row out of a listing. */
  lemma FilterOther(s: seq<Column>, m: nat)
    requires m < |s| && Distinct(Map(IdOf, s))
    ensures Filter(OtherThan(s[m].id), s) == s[..m] + s[m + 1..]
  {
    Around(s, m);
    FilterOtherParts(s[..m], s[m], s[m + 1..]);
  }

  lemma FilterOtherIds(s: seq<Column>, id: int)
    ensures Map(IdOf, Filter(OtherThan(id), s)) == Without(Map(IdOf, s), id)
  {
    if s != [] {
      FilterOtherIds(s[..|s| - 1], id);
      assert Map(IdOf, s)[..|s| - 1] == Map(IdOf, s[..|s| - 1]);
    }
  }

  lemma FilterKeepsSorted(s: seq<Column>, id: int)
    requires Sorted(Precedes, s) && Distinct(Map(IdOf, s))
    ensures Sorted(Precedes, Filter(OtherThan(id), s))
  {
    if id in Map(IdOf, s) {
      var m := IndexOf(Map(IdOf, s), id);
      FilterOther(s, m);
    } else {
      forall c | c in s ensures OtherThan(id)(c) {
        var k :| 0 <= k < |s| && s[k] == c;
        assert Map(IdOf, s)[k] == c.id;
      }
      FilterAll(OtherThan(id), s);
    }
  }

  lemma RewritingOne(s: seq<Column>, m: nat, x: Column)
    requires m < |s| && Distinct(Map(IdOf, s)) && x.id == s[m].id
    ensures Map(Rewriting([x]), s) == s[m := x]
  {
    forall k | 0 <= k < |s| ensures Rewritten([x], s[k]) == s[m := x][k] {
      assert Map(IdOf, [x]) == [x.id];
      assert k != m ==> Map(IdOf, s)[k] != Map(IdOf, s)[m];
    }
  }

  lemma RewritingReordered(s: seq<Column>, updates: seq<Column>)
    requires Distinct(Map(IdOf, s)) && multiset(Map(IdOf, updates)) == multiset(Map(IdOf, s))
    ensures multiset(Map(Rewriting(updates), s)) == multiset(updates)
  {
    var ids := Map(IdOf, updates);
    DistinctPermutation((x: int) => x, Map(IdOf, s), ids) by {
      assert Map((x: int) => x, Map(IdOf, s)) == Map(IdOf, s);
    }
    assert Map((x: int) => x, ids) == ids;
    var at := (id: int) => Rewritten(updates, Column(id, 0.0));
    assert Map(at, ids) == updates by {
      forall k | 0 <= k < |ids| ensures at(ids[k]) == updates[k] { IndexOfDistinct(ids, k); }
    }
    assert Map(at, Map(IdOf, s)) == Map(Rewriting(updates), s) by {
      forall k | 0 <= k < |s| ensures at(s[k].id) == Rewritten(updates, s[k]) {
        assert s[k].id == Map(IdOf, s)[k] && s[k].id in Map(IdOf, s);
        assert s[k].id in multiset(Map(IdOf, s)) && s[k].id in ids;
      }
    }
    MapMultiset(at, ids, Map(IdOf, s));
  }

  lemma MoveRenumbers(a: seq<Column>, c: Column, b: seq<Column>, i: nat)
    requires i <= |a + b| && Distinct(Map(IdOf, a + [c] + b))
    ensures multiset(Map(Rewriting(Renumbered(InsertAt(Map(IdOf, a + b), i, c.id))), a + [c] + b))
            == multiset(Renumbered(InsertAt(Map(IdOf, a + b), i, c.id)))
  {
    var ids := Map(IdOf, a + b);
    InsertAtFacts(ids, i, c.id);
    assert Map(IdOf, a + [c] + b) == Map(IdOf, a) + [c.id] + Map(IdOf, b);
    assert ids == Map(IdOf, a) + Map(IdOf, b);
    RenumberedSorts(InsertAt(ids, i, c.id));
    RewritingReordered(a + [c] + b, Renumbered(InsertAt(ids, i, c.id)));
  }

  lemma MoveRewrites(a: seq<Column>, c: Column, b: seq<Column>, i: nat, x: Column)
    requires i <= |a + b| && Distinct(Map(IdOf, a + [c] + b)) && x.id == c.id
    ensures multiset(Map(Rewriting([x]), a + [c] + b)) == multiset(InsertAt(a + b, i, x))
  {
    var s := a + [c] + b;
    RewritingOne(s, |a|, x);
    assert s[|a| := x] == a + [x] + b;
    InsertAtMultiset(a + b, i, x);
  }

  lemma MoveRearranges(columns: seq<Column>, id: int, i: nat, updates: seq<Column>)
    requires Distinct(Map(IdOf, columns)) && id in Map(IdOf, columns)
    requires i <= |Filter(OtherThan(id), columns)|
    requires var rest := Filter(OtherThan(id), columns);
             updates == if NeedsRebalance(PositionAt(rest, i - 1), PositionAt(rest, i))
                        then Renumbered(InsertAt(Map(IdOf, rest), i, id))
                        else [Column(id, Midpoint(PositionAt(rest, i - 1), PositionAt(rest, i)))]
    ensures multiset(Map(Rewriting(updates), columns)) == multiset(Landed(Filter(OtherThan(id), columns), i, id))
  {
    var m := IndexOf(Map(IdOf, columns), id);
    var a, c, b := columns[..m], columns[m], columns[m + 1..];
    FilterOther(columns, m);
    Around(columns, m);
    if NeedsRebalance(PositionAt(a + b, i - 1), PositionAt(a + b, i)) {
      MoveRenumbers(a, c, b, i);
    } else {
      MoveRewrites(a, c, b, i, updates[0]);
    }
  }

  lemma MoveListed(t: Table, id: int, prev: Option<int>, next: Option<int>)
    requires Valid(t) && id in Map(IdOf, t) && !OwnNeighbour(id, prev, next)
    requires ResolveMove(Without(Order(t), id), prev, next).Ok?
    ensures Move(t, id, prev, next).Ok?
    ensures |Filter(OtherThan(id), Listed(t))| == |Without(Order(t), id)|
    ensures Listed(Move(t, id, prev, next).value)
            == Landed(Filter(OtherThan(id), Listed(t)), ResolveMove(Without(Order(t), id), prev, next).value, id)
  {
    ListedFacts(t);
    var columns := Listed(t);
    var remaining := Filter(OtherThan(id), columns);
    FilterOtherIds(columns, id);
    var i: nat := ResolveMove(Map(IdOf, remaining), prev, next).value;
    var w := PlanMove(t, id, prev, next).value;
    FilterKeepsSorted(columns, id);
    LandedOrder(remaining, i, id);
    MoveRearranges(columns, id, i, w.updates);
    ListedAfter(t, w, Landed(remaining, i, id));
  }

  // ---- Refinement ----

  lemma ValidFromOrder(t: Table)
    requires Distinct(Order(t))
    ensures Valid(t)
  {
    SortPermutation(Precedes, t);
    DistinctPermutation(IdOf, Listed(t), t);
  }

  lemma {:induction false} WithoutFacts(o: seq<int>, id: int)
    requires Distinct(o)
    ensures Distinct(Without(o, id)) && id !in Without(o, id)
    ensures forall x :: x in Without(o, id) <==> x in o && x != id
  {
    FilterIn((x: int) => x != id, o);
    if o != [] {
      WithoutFacts(o[..|o| - 1], id);
      assert o[|o| - 1] !in o[..|o| - 1];
    }
  }

  lemma InsertDistinct(o: seq<int>, i: nat, id: int)
    requires i <= |o| && Distinct(o) && id !in o
    ensures Distinct(InsertAt(o, i, id))
  {
    InsertAtFacts(o, i, id);
  }

  /**
    A create is an insertion into the list of columns at the slot the caller named, whether the
    gap was halved or the board renumbered, and it fails exactly when that insertion would.
  */
  lemma CreateRefines(t: Table, id: int, prev: Option<int>)
    requires Valid(t) && id !in Map(IdOf, t)
    ensures Shows(Create(t, id, prev), ListCreate(Order(t), id, prev))
  {
    ListedFacts(t);
    if ResolveCreate(Order(t), prev).Ok? {
      var i := ResolveCreate(Order(t), prev).value;
      CreateListed(t, id, prev);
      LandedOrder(Listed(t), i, id);
      InsertDistinct(Order(t), i, id);
      ValidFromOrder(Create(t, id, prev).value);
    }
  }

  /** A move takes the column out of the list and puts it back between the neighbours named. */
  lemma MoveRefines(t: Table, id: int, prev: Option<int>, next: Option<int>)
    requires Valid(t)
    ensures Shows(Move(t, id, prev, next), ListMove(Order(t), id, prev, next))
  {
    ListedFacts(t);
    FilterOtherIds(Listed(t), id);
    var rest := Without(Order(t), id);
    if id in Map(IdOf, t) && !OwnNeighbour(id, prev, next) && ResolveMove(rest, prev, next).Ok? {
      var i := ResolveMove(rest, prev, next).value;
      MoveListed(t, id, prev, next);
      FilterKeepsSorted(Listed(t), id);
      LandedOrder(Filter(OtherThan(id), Listed(t)), i, id);
      WithoutFacts(Order(t), id);
      InsertDistinct(rest, i, id);
      ValidFromOrder(Move(t, id, prev, next).value);
    }
  }

  lemma RemoveListed(t: Table, id: int)
    requires Valid(t)
    ensures Listed(Filter(OtherThan(id), t)) == Filter(OtherThan(id), Listed(t))
  {
    ListedFacts(t);
    PrecedesIsTotal();
    FilterPermutation(OtherThan(id), Listed(t), t);
    FilterKeepsSorted(Listed(t), id);
    SortIs(Precedes, Filter(OtherThan(id), t), Filter(OtherThan(id), Listed(t)));
  }

  lemma RemoveRefines(t: Table, id: int, hasTasks: bool)
    requires Valid(t)
    ensures Shows(Remove(t, id, hasTasks), ListRemove(Order(t), id, hasTasks))
  {
    ListedFacts(t);
    if id in Map(IdOf, t) && !hasTasks {
      RemoveListed(t, id);
      FilterOtherIds(Listed(t), id);
      WithoutFacts(Order(t), id);
      ValidFromOrder(Filter(OtherThan(id), t));
    }
  }

  lemma DefaultsApplied(ids: (int, int, int))
    ensures Defaults([], ids) == Ok(DefaultColumns(ids))
  {
    var none: Table := [];
    assert Map(Rewriting([]), none) == none;
    assert none + DefaultColumns(ids) == DefaultColumns(ids);
  }

  lemma DefaultsListed(ids: (int, int, int))
    ensures Listed(DefaultColumns(ids)) == DefaultColumns(ids)
    ensures Order(DefaultColumns(ids)) == [ids.0, ids.1, ids.2] == Map(IdOf, DefaultColumns(ids))
  {
    SortFixpoint(Precedes, DefaultColumns(ids));
    assert Map(IdOf, DefaultColumns(ids)) == [ids.0, ids.1, ids.2];
  }

  lemma DefaultsValid(ids: (int, int, int))
    requires Different(ids)
    ensures Valid(DefaultColumns(ids))
  {
  }

  predicate Different(ids: (int, int, int)) {
    ids.0 != ids.1 && ids.1 != ids.2 && ids.0 != ids.2
  }

  lemma DefaultsRefused(t: Table, ids: (int, int, int))
    requires |t| > 0 && |Order(t)| > 0
    ensures Shows(Defaults(t, ids), ListDefaults(Order(t), ids))
  {
  }

  lemma DefaultsOnEmpty(ids: (int, int, int))
    requires Different(ids)
    ensures Shows(Defaults([], ids), ListDefaults(Order([]), ids))
    ensures Defaults([], ids).Ok? ==> Listed(Defaults([], ids).value) == DefaultColumns(ids)
  {
    DefaultsApplied(ids);
    DefaultsListed(ids);
    DefaultsValid(ids);
    DefaultsShow(DefaultColumns(ids), ids);
  }

  lemma DefaultsShow(t: Table, ids: (int, int, int))
    requires Valid(t) && Order(t) == [ids.0, ids.1, ids.2]
    ensures Shows(Ok(t), ListDefaults(Order([]), ids))
  {
    assert Order([]) == [];
  }

  lemma DefaultsRefines(t: Table, ids: (int, int, int))
    requires Valid(t) && Different(ids)
    ensures Shows(Defaults(t, ids), ListDefaults(Order(t), ids))
    ensures Defaults(t, ids).Ok? ==> Listed(Defaults(t, ids).value) == DefaultColumns(ids)
  {
    if |t| > 0 {
      ListedFacts(t);
      DefaultsRefused(t, ids);
    } else {
      assert t == [];
      DefaultsOnEmpty(ids);
    }
  }

  // ---- Gaps ----

  /** No two columns are closer than half the rebalance threshold. */
  ghost predicate Gapped(s: seq<Column>) {
    forall j, k | 0 <= j < k < |s| :: s[k].position - s[j].position >= MIN_GAP / 2.0
  }

  lemma MidpointGaps(s: seq<Column>, i: nat)
    requires i <= |s| && Gapped(s) && !NeedsRebalance(PositionAt(s, i - 1), PositionAt(s, i))
    ensures var x := Midpoint(PositionAt(s, i - 1), PositionAt(s, i));
            && (forall k | 0 <= k < i :: x - s[k].position >= MIN_GAP / 2.0)
            && (forall k | i <= k < |s| :: s[k].position - x >= MIN_GAP / 2.0)
  {
    var x := Midpoint(PositionAt(s, i - 1), PositionAt(s, i));
    assert 0 < i ==> x - s[i - 1].position >= MIN_GAP / 2.0;
    assert i < |s| ==> s[i].position - x >= MIN_GAP / 2.0;
    forall k | 0 <= k < i ensures x - s[k].position >= MIN_GAP / 2.0 {
      assert k < i - 1 ==> s[i - 1].position - s[k].position >= MIN_GAP / 2.0;
    }
    forall k | i <= k < |s| ensures s[k].position - x >= MIN_GAP / 2.0 {
      assert i < k ==> s[k].position - s[i].position >= MIN_GAP / 2.0;
    }
  }

  lemma InsertGapped(s: seq<Column>, i: nat, x: Column)
    requires i <= |s| && Gapped(s)
    requires forall k | 0 <= k < i :: x.position - s[k].position >= MIN_GAP / 2.0
    requires forall k | i <= k < |s| :: s[k].position - x.position >= MIN_GAP / 2.0
    ensures Gapped(InsertAt(s, i, x))
  {
    InsertAtFacts(s, i, x);
  }

  lemma LandedGapped(s: seq<Column>, i: nat, id: int)
    requires i <= |s| && Gapped(s)
    ensures Gapped(Landed(s, i, id))
  {
    if !NeedsRebalance(PositionAt(s, i - 1), PositionAt(s, i)) {
      MidpointGaps(s, i);
      InsertGapped(s, i, Column(id, Midpoint(PositionAt(s, i - 1), PositionAt(s, i))));
    }
  }

  lemma FilterGapped(s: seq<Column>, id: int)
    requires Gapped(s) && Distinct(Map(IdOf, s)) && id in Map(IdOf, s)
    ensures Gapped(Filter(OtherThan(id), s))
  {
    FilterOther(s, IndexOf(Map(IdOf, s), id));
  }

  /** Every request leaves gaps of at least half the threshold where it found them. */
  lemma CreateGapped(t: Table, id: int, prev: Option<int>)
    requires Valid(t) && Gapped(Listed(t))
    ensures Create(t, id, prev).Ok? ==> Gapped(Listed(Create(t, id, prev).value))
  {
    if Create(t, id, prev).Err? {
      return;
    }
    ListedFacts(t);
    CreateListed(t, id, prev);
    LandedGapped(Listed(t), ResolveCreate(Order(t), prev).value, id);
  }

  lemma MoveGapped(t: Table, id: int, prev: Option<int>, next: Option<int>)
    requires Valid(t) && Gapped(Listed(t))
    ensures Move(t, id, prev, next).Ok? ==> Gapped(Listed(Move(t, id, prev, next).value))
  {
    if Move(t, id, prev, next).Err? {
      return;
    }
    ListedFacts(t);
    FilterOtherIds(Listed(t), id);
    FilterGapped(Listed(t), id);
    MoveListed(t, id, prev, next);
    LandedGapped(Filter(OtherThan(id), Listed(t)), ResolveMove(Without(Order(t), id), prev, next).value, id);
  }

  lemma RemoveGapped(t: Table, id: int, hasTasks: bool)
    requires Valid(t) && Gapped(Listed(t))
    ensures Remove(t, id, hasTasks).Ok? ==> Gapped(Listed(Remove(t, id, hasTasks).value))
  {
    if Remove(t, id, hasTasks).Err? {
      return;
    }
    ListedFacts(t);
    RemoveListed(t, id);
    FilterGapped(Listed(t), id);
  }

  // ---- Which rows a request writes ----

  /**
    The listing after a column came to stand at the i-th place among `rest`. With an open gap, or
    with no column on one side, only its own row is written: halfway, or one gap beyond the only
    neighbour, or at the first gap of an empty board. In a used-up gap everything is dealt anew.
  */
  ghost predicate StandsAt(rest: seq<Column>, i: nat, id: int, after: seq<Column>)
    requires i <= |rest|
  {
    if i == 0 || i == |rest| || rest[i].position - rest[i - 1].position >= 0.000001 then
      var own := if |rest| == 0 then 1000.0
                 else if i == 0 then rest[0].position - 1000.0
                 else if i == |rest| then rest[i - 1].position + 1000.0
                 else (rest[i - 1].position + rest[i].position) / 2.0;
      after == rest[..i] + [Column(id, own)] + rest[i..]
    else
      && |after| == |rest| + 1
      && (forall k | 0 <= k < |after| ::
            after[k] == Column(if k < i then rest[k].id else if k == i then id else rest[k - 1].id,
                               (k + 1) as real * 1000.0))
  }

  lemma GapUsedUpIff(s: seq<Column>, i: nat)
    requires i <= |s|
    ensures NeedsRebalance(PositionAt(s, i - 1), PositionAt(s, i))
            <==> !(i == 0 || i == |s| || s[i].position - s[i - 1].position >= 0.000001)
  {
  }

  lemma DealtAnew(s: seq<Column>, i: nat, id: int)
    requires i <= |s|
    ensures var after := Renumbered(InsertAt(Map(IdOf, s), i, id));
            && |after| == |s| + 1
            && forall k | 0 <= k < |after| ::
                 after[k] == Column(if k < i then s[k].id else if k == i then id else s[k - 1].id,
                                    (k + 1) as real * 1000.0)
  {
    InsertAtFacts(Map(IdOf, s), i, id);
  }

  lemma HalfwayStands(s: seq<Column>, i: nat, id: int, after: seq<Column>)
    requires i <= |s| && (i == 0 || i == |s| || s[i].position - s[i - 1].position >= 0.000001)
    requires after == InsertAt(s, i, Column(id, Midpoint(PositionAt(s, i - 1), PositionAt(s, i))))
    ensures StandsAt(s, i, id, after)
  {
  }

  lemma AnewStands(s: seq<Column>, i: nat, id: int, after: seq<Column>)
    requires i <= |s| && !(i == 0 || i == |s| || s[i].position - s[i - 1].position >= 0.000001)
    requires after == Renumbered(InsertAt(Map(IdOf, s), i, id))
    ensures StandsAt(s, i, id, after)
  {
    DealtAnew(s, i, id);
  }

  lemma LandedStands(s: seq<Column>, i: nat, id: int)
    requires i <= |s|
    ensures StandsAt(s, i, id, Landed(s, i, id))
  {
    GapUsedUpIff(s, i);
    if NeedsRebalance(PositionAt(s, i - 1), PositionAt(s, i)) {
      AnewStands(s, i, id, Landed(s, i, id));
    } else {
      HalfwayStands(s, i, id, Landed(s, i, id));
    }
  }

  /** A create, row by row: where it stands, and what happens to the other rows. */
  lemma CreateWrites(t: Table, id: int, prev: Option<int>) returns (i: nat)
    requires Valid(t) && Create(t, id, prev).Ok?
    ensures i <= |Listed(t)| && StandsAt(Listed(t), i, id, Listed(Create(t, id, prev).value))
    ensures if prev.Some? then 0 < i && Listed(t)[i - 1].id == prev.value else i == |Listed(t)|
  {
    ListedFacts(t);
    CreateSlot(Order(t), prev);
    i := ResolveCreate(Order(t), prev).value;
    CreateListed(t, id, prev);
    LandedStands(Listed(t), i, id);
  }

  /** A move, row by row. */
  lemma MoveWrites(t: Table, id: int, prev: Option<int>, next: Option<int>) returns (i: nat)
    requires Valid(t) && Move(t, id, prev, next).Ok?
    ensures var rest := Filter((c: Column) => c.id != id, Listed(t));
            && i <= |rest| && StandsAt(rest, i, id, Listed(Move(t, id, prev, next).value))
            && (prev.Some? ==> 0 < i && rest[i - 1].id == prev.value)
            && (next.Some? ==> i < |rest| && rest[i].id == next.value)
            && (prev.None? && next.None? ==> i == |rest|)
  {
    var rest := Filter(OtherThan(id), Listed(t));
    FilterAgree((c: Column) => c.id != id, OtherThan(id), Listed(t));
    ListedFacts(t);
    FilterOtherIds(Listed(t), id);
    WithoutFacts(Order(t), id);
    MoveSlot(Without(Order(t), id), prev, next);
    i := ResolveMove(Without(Order(t), id), prev, next).value;
    MoveListed(t, id, prev, next);
    LandedStands(rest, i, id);
  }

  /** A deletion takes out its own row and no other. */
  lemma RemoveWrites(t: Table, id: int, hasTasks: bool)
    requires Valid(t)
    ensures Remove(t, id, hasTasks).Ok? <==> !hasTasks && exists c :: c in t && c.id == id
    ensures Remove(t, id, hasTasks).Ok? ==> forall c :: c in Remove(t, id, hasTasks).value <==> c in t && c.id != id
  {
    FilterIn(OtherThan(id), t);
    if id in Map(IdOf, t) {
      var k :| 0 <= k < |t| && Map(IdOf, t)[k] == id;
      assert t[k] in t && t[k].id == id;
    }
    if c :| c in t && c.id == id {
      var k :| 0 <= k < |t| && t[k] == c;
      assert Map(IdOf, t)[k] == id;
    }
  }

  /** Seeding goes through on an empty board only, and writes these rows. */
  lemma SeedingWrites(t: Table, ids: (int, int, int))
    ensures Defaults(t, ids).Ok? <==> t == []
    ensures t == [] ==> Defaults(t, ids).value == [Column(ids.0, 1000.0), Column(ids.1, 2000.0), Column(ids.2, 3000.0)]
  {
    DefaultsApplied(ids);
  }

  /** A board is listed by position, equal positions by id, each row once. */
  lemma ListingOrder(t: Table)
    requires Valid(t)
    ensures multiset(Listed(t)) == multiset(t)
    ensures forall i, j | 0 <= i < j < |Listed(t)| ::
              || Listed(t)[i].position < Listed(t)[j].position
              || (Listed(t)[i].position == Listed(t)[j].position && Listed(t)[i].id < Listed(t)[j].id)
  {
    ListedFacts(t);
    forall i, j | 0 <= i < j < |Listed(t)| ensures Listed(t)[i].id != Listed(t)[j].id {
      assert Order(t)[i] != Order(t)[j];
    }
  }

  // ---- The service ----

  lemma RewritingInTwo(a: seq<Column>, x: Column, b: seq<Column>, c: Column)
    requires Distinct(Map(IdOf, a + [x] + b))
    ensures Rewritten(a + b, Rewritten([x], c)) == Rewritten(a + [x] + b, c)
  {
    var both, rest := a + [x] + b, a + b;
    var ids, others := Map(IdOf, both), Map(IdOf, rest);
    OthersDiffer(a, x, b);
    assert both[|a|] == x && Map(IdOf, [x]) == [x.id];
    if c.id == x.id {
      IndexOfDistinct(ids, |a|);
      assert c.id !in others;
    } else if c.id in others {
      var k := IndexOf(others, c.id);
      IndexOfDistinct(ids, if k < |a| then k else k + 1);
    } else {
      assert forall k | 0 <= k < |both| :: k != |a| ==> both[k] == rest[if k < |a| then k else k - 1];
      assert c.id !in ids;
    }
  }

  lemma NoneInserted(t: Table)
    ensures t + [] == t
  {
  }

  /** What a move writes, from its slot. */
  lemma MoveIs(t: Table, id: int, prev: Option<int>, next: Option<int>, rest: seq<Column>)
    requires id in Map(IdOf, t) && prev != Some(id) && next != Some(id) && rest == Filter(OtherThan(id), Listed(t))
    ensures var slot := ResolveMove(Map(IdOf, rest), prev, next);
            if slot.Err? then Move(t, id, prev, next) == Err(slot.error)
            else
              var before, behind := PositionAt(rest, slot.value - 1), PositionAt(rest, slot.value);
              Move(t, id, prev, next)
              == Ok(Map(Rewriting(if NeedsRebalance(before, behind)
                                  then Renumbered(InsertAt(Map(IdOf, rest), slot.value, id))
                                  else [Column(id, Midpoint(before, behind))]), t))
  {
    if ResolveMove(Map(IdOf, rest), prev, next).Ok? {
      NoneInserted(Map(Rewriting(PlanMove(t, id, prev, next).value.updates), t));
    }
  }

  /** One board's rows. An operation that fails leaves them as they were: its transaction rolls back. */
  class ColumnService {
    var columns: Table

    constructor ()
      ensures columns == []
    {
      columns := [];
    }

    method BatchUpdateColumnPositions(updates: seq<Column>)
      modifies this
      ensures columns == Map(Rewriting(updates), old(columns))
    {
      columns := Map(Rewriting(updates), columns);
      if updates == [] {
        RewritingNone(old(columns));
      }
    }

    method CreateColumn(id: int, prev: Option<int>) returns (r: Result<Column, Error>)
      requires Valid(columns) && id !in Map(IdOf, columns)
      modifies this
      ensures Create(old(columns), id, prev) == (if r.Ok? then Ok(columns) else Err(r.error))
      ensures r.Err? ==> columns == old(columns)
      ensures r.Ok? ==> r.value.id == id && r.value in columns
    {
      var siblings := Listed(columns);
      var slot := ResolveCreate(Map(IdOf, siblings), prev);
      if slot.Err? {
        return Err(slot.error);
      }
      var i: nat := slot.value;
      var before, behind := PositionAt(siblings, i - 1), PositionAt(siblings, i);
      var row := Column(id, Midpoint(before, behind));
      if NeedsRebalance(before, behind) {
        BatchUpdateColumnPositions(seq(|siblings|, k requires 0 <= k < |siblings| =>
                                         Column(siblings[k].id, RebalancedAt(if k < i then k else k + 1))));
        row := Column(id, RebalancedAt(i));
      } else {
        RewritingNone(columns);
      }
      columns := columns + [row];
      r := Ok(row);
    }

    /** The moved row first and the others in one statement. */
    method RebalanceMoved(id: int, remaining: seq<Column>, i: nat)
      requires Valid(columns) && remaining == Filter(OtherThan(id), Listed(columns)) && i <= |remaining|
      modifies this
      ensures columns == Map(Rewriting(Renumbered(InsertAt(Map(IdOf, remaining), i, id))), old(columns))
    {
      var reordered := Map(IdOf, remaining);
      reordered := InsertAt(reordered, i, id);
      var renumbered := Renumbered(reordered);
      TwoUpdates(columns, id, i);
      BatchUpdateColumnPositions([Column(id, RebalancedAt(i))]);
      BatchUpdateColumnPositions(renumbered[..i] + renumbered[i + 1..]);
    }

    method MoveColumn(id: int, prev: Option<int>, next: Option<int>) returns (r: Result<Table, Error>)
      requires Valid(columns)
      modifies this
      ensures r == Move(old(columns), id, prev, next)
      ensures columns == if r.Ok? then r.value else old(columns)
    {
      if id !in Map(IdOf, columns) {
        return Err(NotFound);
      }
      if prev == Some(id) || next == Some(id) {
        return Err(BadRequest);
      }
      var remaining := Filter(OtherThan(id), Listed(columns));
      MoveIs(columns, id, prev, next, remaining);
      var slot := ResolveMove(Map(IdOf, remaining), prev, next);
      if slot.Err? {
        return Err(slot.error);
      }
      var i: nat := slot.value;
      var before, behind := PositionAt(remaining, i - 1), PositionAt(remaining, i);
      if NeedsRebalance(before, behind) {
        RebalanceMoved(id, remaining, i);
      } else {
        BatchUpdateColumnPositions([Column(id, Midpoint(before, behind))]);
      }
      r := Ok(columns);
    }

    method CreateDefaults(ids: (int, int, int)) returns (r: Result<seq<Column>, Error>)
      requires Valid(columns) && Different(ids)
      modifies this
      ensures Defaults(old(columns), ids) == (if r.Ok? then Ok(columns) else Err(r.error))
      ensures r.Err? ==> columns == old(columns)
      ensures r.Ok? ==> r.value == DefaultColumns(ids)
    {
      if |columns| > 0 {
        return Err(Conflict);
      }
      columns := columns + DefaultColumns(ids);
      DefaultsRefines([], ids);
      r := Ok(Listed(columns));
    }

    method RemoveColumn(id: int, taskCount: nat) returns (r: Result<(), Error>)
      requires Valid(columns)
      modifies this
      ensures Remove(old(columns), id, taskCount > 0) == (if r.Ok? then Ok(columns) else Err(r.error))
      ensures r.Err? ==> columns == old(columns)
    {
      if id !in Map(IdOf, columns) {
        return Err(NotFound);
      }
      if taskCount > 0 {
        return Err(Conflict);
      }
      columns := Filter(OtherThan(id), columns);
      r := Ok(());
    }
  }

  /** The moved row first and the others in one statement are the renumbering in one go. */
  lemma TwoUpdates(t: Table, id: int, i: nat)
    requires Valid(t) && i <= |Filter(OtherThan(id), Listed(t))|
    ensures var all := Renumbered(InsertAt(Map(IdOf, Filter(OtherThan(id), Listed(t))), i, id));
            i < |all|
            && Map(Rewriting(all[..i] + all[i + 1..]), Map(Rewriting([Column(id, RebalancedAt(i))]), t))
               == Map(Rewriting(all), t)
  {
    ListedFacts(t);
    FilterOtherIds(Listed(t), id);
    WithoutFacts(Order(t), id);
    var ids := InsertAt(Map(IdOf, Filter(OtherThan(id), Listed(t))), i, id);
    InsertDistinct(Map(IdOf, Filter(OtherThan(id), Listed(t))), i, id);
    RenumberedSorts(ids);
    var all := Renumbered(ids);
    Around(all, i);
    forall k | 0 <= k < |t|
      ensures Rewritten(all[..i] + all[i + 1..], Rewritten([all[i]], t[k])) == Rewritten(all, t[k])
    {
      RewritingInTwo(all[..i], all[i], all[i + 1..], t[k]);
    }
  }
}
