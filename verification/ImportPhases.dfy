/**
  The phases of the import planner (apps/api/src/import/trello-import-planner.ts): lists to columns,
  labels, cards to tasks, checklists and their items. Nothing here can fail.

  Ids come off a counter. URL and date parsing and the colour table are parameters.
*/
module ImportPhases {
  import opened ImportSkip
  import opened Rows
  import opened Text
  import opened TrelloExport
  import opened Wrappers
  import Columns

  const BOARD_NAME_FALLBACK := "Imported board"
  const LABEL_NAME_FALLBACK := "Label"

  datatype UrlVerdict = Storable(url: string) | Refused(reason: Reason)

  datatype Parsers = Parsers(
    classifyUrl: string -> UrlVerdict,
    parseDueDate: string -> Option<int>,
    colorToSlot: Option<string> -> (int, bool))

  datatype ColumnRow = ColumnRow(id: nat, boardId: nat, name: string, position: real)

  datatype LabelRow = LabelRow(id: nat, boardId: nat, name: string, color: int)

  datatype TaskRow = TaskRow(id: nat, boardId: nat, columnId: nat, title: string, description: Option<string>,
                             position: real, dueDate: Option<int>)

  datatype TaskLabelRow = TaskLabelRow(id: nat, taskId: nat, labelId: nat)

  datatype ChecklistRow = ChecklistRow(id: nat, taskId: nat, title: string, position: real)

  datatype ItemRow = ItemRow(id: nat, checklistId: nat, content: string, isDone: bool, position: real)

  datatype AttachmentRow = AttachmentRow(id: nat, taskId: nat, filename: string, url: string)

  datatype Plan = Plan(
    boardId: nat, boardName: string, description: Option<string>,
    columns: seq<ColumnRow>, labels: seq<LabelRow>, tasks: seq<TaskRow>, taskLabels: seq<TaskLabelRow>,
    checklists: seq<ChecklistRow>, checklistItems: seq<ItemRow>, attachments: seq<AttachmentRow>,
    skipped: seq<Group>)

  // ---- Ordering ----

  /** JavaScript's `<=` on strings. */
  predicate LexLe(a: string, b: string) {
    a == [] || (b != [] && (a[0] < b[0] || (a[0] == b[0] && LexLe(a[1..], b[1..]))))
  }

  lemma {:induction false} LexTotal(a: string, b: string)
    ensures LexLe(a, b) || LexLe(b, a)
    ensures LexLe(a, b) && LexLe(b, a) ==> a == b
  {
    if a != [] && b != [] && a[0] == b[0] {
      LexTotal(a[1..], b[1..]);
      assert a == [a[0]] + a[1..] && b == [b[0]] + b[1..];
    }
  }

  lemma {:induction false} LexTransitive(a: string, b: string, c: string)
    requires LexLe(a, b) && LexLe(b, c)
    ensures LexLe(a, c)
  {
    if a != [] && a[0] == b[0] && b[0] == c[0] {
      LexTransitive(a[1..], b[1..], c[1..]);
    }
  }

  predicate KeyLe(p: Option<real>, x: string, q: Option<real>, y: string) {
    if p.Some? && q.Some? && p.value != q.value then p.value < q.value
    else if p.Some? && q.None? then true
    else if p.None? && q.Some? then false
    else LexLe(x, y)
  }

  /** Numeric positions first and ascending, entries without one last, ties by id. */
  function PosOrder<T>(id: T -> string, pos: T -> Option<real>): (T, T) -> bool {
    (a: T, b: T) => KeyLe(pos(a), id(a), pos(b), id(b))
  }

  function OrderedByPos<T>(id: T -> string, pos: T -> Option<real>, rows: seq<T>): seq<T> {
    Sort(PosOrder(id, pos), rows)
  }

  lemma PosOrderIsTotal<T(!new)>(id: T -> string, pos: T -> Option<real>)
    ensures TotalPreorder(PosOrder(id, pos))
  {
    var le := PosOrder(id, pos);
    forall a, b ensures le(a, b) || le(b, a) { LexTotal(id(a), id(b)); }
    forall a, b, c ensures le(a, b) && le(b, c) ==> le(a, c) {
      if LexLe(id(a), id(b)) && LexLe(id(b), id(c)) { LexTransitive(id(a), id(b), id(c)); }
    }
  }

  /** Two entries tie exactly when position and id are both the same. */
  lemma TiesAreTwins<T>(id: T -> string, pos: T -> Option<real>, a: T, b: T)
    ensures PosOrder(id, pos)(a, b) && PosOrder(id, pos)(b, a) <==> pos(a) == pos(b) && id(a) == id(b)
  {
    LexTotal(id(a), id(b));
    LexTotal(id(a), id(a));
  }

  /**
    The order is a sorted permutation, and it is the same for every arrangement of the entries
    exactly when no two different entries share both position and id.
  */
  lemma OrderIsCanonical<T(!new)>(id: T -> string, pos: T -> Option<real>, rows: seq<T>)
    ensures multiset(OrderedByPos(id, pos, rows)) == multiset(rows)
    ensures Sorted(PosOrder(id, pos), OrderedByPos(id, pos, rows))
    ensures (forall other: seq<T> | multiset(other) == multiset(rows) ::
               OrderedByPos(id, pos, other) == OrderedByPos(id, pos, rows))
            <==> forall a, b | a in rows && b in rows && pos(a) == pos(b) && id(a) == id(b) :: a == b
  {
    var le := PosOrder(id, pos);
    PosOrderIsTotal(id, pos);
    SortPermutation(le, rows);
    SortSorted(le, rows);
    CanonicalExactlyWithoutTies(le, rows);
    NoTwins(id, pos, rows);
    assert (forall other: seq<T> | multiset(other) == multiset(rows) :: Sort(le, other) == Sort(le, rows))
           <==> AntisymmetricOn(le, rows);
    assert forall other: seq<T> :: OrderedByPos(id, pos, other) == Sort(le, other);
  }

  lemma NoTwins<T(!new)>(id: T -> string, pos: T -> Option<real>, rows: seq<T>)
    ensures AntisymmetricOn(PosOrder(id, pos), rows)
            <==> forall a, b | a in rows && b in rows && pos(a) == pos(b) && id(a) == id(b) :: a == b
  {
    forall a, b ensures PosOrder(id, pos)(a, b) && PosOrder(id, pos)(b, a) <==> pos(a) == pos(b) && id(a) == id(b) {
      TiesAreTwins(id, pos, a, b);
    }
  }

  function ListId(l: TrelloList): string { l.id }
  function ListPos(l: TrelloList): Option<real> { l.pos }
  function CardId(c: TrelloCard): string { c.id }
  function CardPos(c: TrelloCard): Option<real> { c.pos }
  function ChecklistId(c: TrelloChecklist): string { c.id }
  function ChecklistPos(c: TrelloChecklist): Option<real> { c.pos }
  function ItemId(i: TrelloCheckItem): string { i.id }
  function ItemPos(i: TrelloCheckItem): Option<real> { i.pos }

  // ---- Small rules ----

  predicate IsUnnamed(value: string) {
    IsBlank(value)
  }

  function EmptyToNull(value: Option<string>): Option<string> {
    if value.None? || IsBlank(value.value) then None else value
  }

  function DueOf(parsers: Parsers, due: Option<string>): Option<int> {
    if due.None? then None else parsers.parseDueDate(due.value)
  }

  // ---- Ids ----

  /** These ids were issued from `from` up to `next`, each once. */
  ghost predicate Issued(ids: multiset<int>, from: int, next: int) {
    forall x :: ids[x] <= 1 && (x in ids ==> from <= x < next)
  }

  function ColumnId(r: ColumnRow): int { r.id }
  function LabelId(r: LabelRow): int { r.id }
  function TaskId(r: TaskRow): int { r.id }
  function TaskLabelId(r: TaskLabelRow): int { r.id }
  function ChecklistRowId(r: ChecklistRow): int { r.id }
  function ItemRowId(r: ItemRow): int { r.id }
  function AttachmentId(r: AttachmentRow): int { r.id }

  // ---- Lists ----

  predicate LiveList(l: TrelloList) {
    !l.closed && !IsUnnamed(l.name)
  }

  function ListSkip(l: TrelloList): seq<Event> {
    if l.closed then [Event(ListScope, Archived, 1, [Some(l.name)])]
    else if IsUnnamed(l.name) then [Event(ListScope, Malformed, 1, [])]
    else []
  }

  function ListSkips(lists: seq<TrelloList>): seq<Event> {
    if lists == [] then [] else ListSkips(lists[..|lists| - 1]) + ListSkip(lists[|lists| - 1])
  }

  function OrderedLists(lists: seq<TrelloList>): seq<TrelloList> {
    OrderedByPos(ListId, ListPos, Filter(LiveList, lists))
  }

  function ColumnRows(ordered: seq<TrelloList>, boardId: nat, first: nat): (r: seq<ColumnRow>)
    ensures |r| == |ordered|
    ensures forall k | 0 <= k < |r| :: r[k] == ColumnRow(first + k, boardId, ordered[k].name, Columns.RebalancedAt(k))
  {
    seq(|ordered|,
        k requires 0 <= k < |ordered| => ColumnRow(first + k, boardId, ordered[k].name, Columns.RebalancedAt(k)))
  }

  /** Trello id to issued id; a repeated id is claimed by its last bearer. */
  function ColumnIds(ordered: seq<TrelloList>, first: nat): map<string, nat> {
    if ordered == [] then map[]
    else ColumnIds(ordered[..|ordered| - 1], first)[ordered[|ordered| - 1].id := first + |ordered| - 1]
  }

  function ArchivedIds(lists: seq<TrelloList>): set<string> {
    set l | l in lists && l.closed :: l.id
  }

  function NameSample(r: ColumnRow): Option<string> {
    Some(r.name)
  }

  /** Archived and unnamed lists are left out. */
  method SiftLists(lists: seq<TrelloList>, skips: SkipCollector)
    returns (liveLists: seq<TrelloList>, archivedListIds: set<string>)
    requires skips.Valid()
    modifies skips
    ensures skips.Valid() && liveLists == Filter(LiveList, lists) && archivedListIds == ArchivedIds(lists)
    ensures skips.log == old(skips.log) + ListSkips(lists)
  {
    liveLists, archivedListIds := [], {};
    NothingLogged(skips.log);
    for i := 0 to |lists|
      invariant skips.Valid() && skips.log == old(skips.log) + ListSkips(lists[..i])
      invariant liveLists == Filter(LiveList, lists[..i])
      invariant archivedListIds == ArchivedIds(lists[..i])
    {
      PrefixMore(lists, i);
      var list := lists[i];
      SkipsMore(old(skips.log), ListSkips(lists[..i]), ListSkip(list));
      if list.closed {
        archivedListIds := archivedListIds + {list.id};
        skips.Add(ListScope, Archived, Some(list.name));
      } else if IsUnnamed(list.name) {
        skips.Add(ListScope, Malformed, None);
      } else {
        liveLists := liveLists + [list];
      }
    }
    PrefixMore(lists, |lists|);
  }

  lemma SkipsMore(log: seq<Event>, a: seq<Event>, b: seq<Event>)
    ensures log + a + b == log + (a + b) && (b == [] ==> a + b == a)
  {
  }

  lemma ColumnRowsMore(ordered: seq<TrelloList>, boardId: nat, first: nat, k: nat)
    requires k < |ordered|
    ensures ColumnRows(ordered[..k + 1], boardId, first)
            == ColumnRows(ordered[..k], boardId, first)
               + [ColumnRow(first + k, boardId, ordered[k].name, Columns.RebalancedAt(k))]
    ensures ColumnIds(ordered[..k + 1], first) == ColumnIds(ordered[..k], first)[ordered[k].id := first + k]
  {
    PrefixMore(ordered, k);
  }

  method NumberColumns(ordered: seq<TrelloList>, boardId: nat, nextId: nat)
    returns (columns: seq<ColumnRow>, columnIdByTrelloId: map<string, nat>, next: nat)
    ensures next == nextId + |columns|
    ensures columns == ColumnRows(ordered, boardId, nextId) && columnIdByTrelloId == ColumnIds(ordered, nextId)
  {
    columns, columnIdByTrelloId, next := [], map[], nextId;
    for k := 0 to |ordered|
      invariant next == nextId + k
      invariant columns == ColumnRows(ordered[..k], boardId, nextId)
      invariant columnIdByTrelloId == ColumnIds(ordered[..k], nextId)
    {
      ColumnRowsMore(ordered, boardId, nextId, k);
      columnIdByTrelloId := columnIdByTrelloId[ordered[k].id := next];
      columns := columns + [ColumnRow(next, boardId, ordered[k].name, Columns.RebalancedAt(k))];
      next := next + 1;
    }
    PrefixMore(ordered, |ordered|);
  }

  predicate Unfolded(k: int) {
    true
  }

  /**
    What planning the lists comes to. Like the other phases' results below it is stated so that
    only a proof that says Unfolded unfolds it.
  */
  ghost predicate ListsPlanned(lists: seq<TrelloList>, boardId: nat, nextId: nat, columns: seq<ColumnRow>,
                               columnIds: map<string, nat>, archived: set<string>, log: seq<Event>, log': seq<Event>)
  {
    forall k {:trigger Unfolded(k)} | Unfolded(k) ::
      && columns == ColumnRows(OrderedLists(lists), boardId, nextId)
      && columnIds == ColumnIds(OrderedLists(lists), nextId)
      && archived == ArchivedIds(lists)
      && log' == log + ListSkips(lists) + [Event(ColumnScope, Defaulted, |columns|, Map(NameSample, columns))]
  }

  method PlanLists(lists: seq<TrelloList>, boardId: nat, nextId: nat, skips: SkipCollector)
    returns (columns: seq<ColumnRow>, columnIdByTrelloId: map<string, nat>, archivedListIds: set<string>, next: nat)
    requires skips.Valid()
    modifies skips
    ensures skips.Valid() && next == nextId + |columns|
    ensures ListsPlanned(lists, boardId, nextId, columns, columnIdByTrelloId, archivedListIds, old(skips.log),
                         skips.log)
  {
    var liveLists;
    liveLists, archivedListIds := SiftLists(lists, skips);
    columns, columnIdByTrelloId, next := NumberColumns(OrderedByPos(ListId, ListPos, liveLists), boardId, nextId);
    skips.AddMany(ColumnScope, Defaulted, |columns|, Map(NameSample, columns));
  }

  // ---- Labels ----

  function LabelName(l: TrelloLabel): string {
    if !IsUnnamed(l.name) then l.name
    else if l.color.None? || Trim(l.color.value) == "" then LABEL_NAME_FALLBACK
    else Trim(l.color.value)
  }

  function LabelSkip(l: TrelloLabel, parsers: Parsers): seq<Event> {
    if parsers.colorToSlot(l.color).1 || IsUnnamed(l.name) then [Event(LabelScope, Defaulted, 1, [Some(LabelName(l))])]
        else []
  }

  function LabelSkips(labels: seq<TrelloLabel>, parsers: Parsers): seq<Event> {
    if labels == [] then [] else LabelSkips(labels[..|labels| - 1], parsers) + LabelSkip(labels[|labels| - 1], parsers)
  }

  function LabelRowOf(l: TrelloLabel, parsers: Parsers, boardId: nat, id: nat): LabelRow {
    LabelRow(id, boardId, LabelName(l), parsers.colorToSlot(l.color).0)
  }

  function LabelRows(labels: seq<TrelloLabel>, parsers: Parsers, boardId: nat, first: nat): (r: seq<LabelRow>)
    ensures |r| == |labels|
    ensures forall k | 0 <= k < |r| :: r[k] == LabelRowOf(labels[k], parsers, boardId, first + k)
  {
    seq(|labels|, k requires 0 <= k < |labels| => LabelRowOf(labels[k], parsers, boardId, first + k))
  }

  function LabelIds(labels: seq<TrelloLabel>, first: nat): map<string, nat> {
    if labels == [] then map[]
    else LabelIds(labels[..|labels| - 1], first)[labels[|labels| - 1].id := first + |labels| - 1]
  }

  datatype LabelState = LabelState(rows: seq<LabelRow>, ids: map<string, nat>, next: nat)

  function AddLabel(st: LabelState, l: TrelloLabel, parsers: Parsers, boardId: nat): LabelState {
    LabelState(st.rows + [LabelRowOf(l, parsers, boardId, st.next)], st.ids[l.id := st.next], st.next + 1)
  }

  function AddLabels(first: nat, labels: seq<TrelloLabel>, parsers: Parsers, boardId: nat): LabelState {
    if labels == [] then LabelState([], map[], first)
    else AddLabel(AddLabels(first, labels[..|labels| - 1], parsers, boardId), labels[|labels| - 1], parsers, boardId)
  }

  lemma LabelAdded(st: LabelState, before: seq<TrelloLabel>, l: TrelloLabel, parsers: Parsers, boardId: nat, first: nat)
    requires st.next == first + |before| && |st.rows| == |before|
    requires forall k | 0 <= k < |before| :: st.rows[k] == LabelRowOf(before[k], parsers, boardId, first + k)
    ensures var st', labels := AddLabel(st, l, parsers, boardId), before + [l];
            && st'.ids == st.ids[l.id := first + |before|] && st'.next == first + |labels| && |st'.rows| == |labels|
            && forall k | 0 <= k < |labels| :: st'.rows[k] == LabelRowOf(labels[k], parsers, boardId, first + k)
  {
  }

  lemma {:induction false} LabelsAdded(first: nat, labels: seq<TrelloLabel>, parsers: Parsers, boardId: nat)
    ensures var st := AddLabels(first, labels, parsers, boardId);
            && st.ids == LabelIds(labels, first) && st.next == first + |labels| && |st.rows| == |labels|
            && forall k | 0 <= k < |labels| :: st.rows[k] == LabelRowOf(labels[k], parsers, boardId, first + k)
  {
    if labels != [] {
      var before, l := labels[..|labels| - 1], labels[|labels| - 1];
      LabelsAdded(first, before, parsers, boardId);
      LabelAdded(AddLabels(first, before, parsers, boardId), before, l, parsers, boardId, first);
      BeforeLast(labels);
    }
  }

  /** A label is never dropped: without a name it is called after its colour, or plainly "Label". */
  method PlanLabel(l: TrelloLabel, parsers: Parsers, boardId: nat, id: nat, skips: SkipCollector)
    returns (row: LabelRow)
    requires skips.Valid()
    modifies skips
    ensures skips.Valid() && skips.log == old(skips.log) + LabelSkip(l, parsers)
    ensures row == LabelRowOf(l, parsers, boardId, id)
  {
    var mapping := parsers.colorToSlot(l.color);
    var trelloColorName := if l.color.Some? then Trim(l.color.value) else "";
    var name := if IsUnnamed(l.name) then if trelloColorName == "" then LABEL_NAME_FALLBACK else trelloColorName
        else l.name;
    if mapping.1 || IsUnnamed(l.name) {
      skips.Add(LabelScope, Defaulted, Some(name));
    }
    row := LabelRow(id, boardId, name, mapping.0);
  }

  ghost predicate LabelsPlanned(labels: seq<TrelloLabel>, parsers: Parsers, boardId: nat, nextId: nat,
                                rows: seq<LabelRow>,
                                labelIds: map<string, nat>, log: seq<Event>, log': seq<Event>)
  {
    forall k {:trigger Unfolded(k)} | Unfolded(k) ::
      && rows == LabelRows(labels, parsers, boardId, nextId)
      && labelIds == LabelIds(labels, nextId)
      && log' == log + LabelSkips(labels, parsers)
  }

  method PlanLabels(labels: seq<TrelloLabel>, parsers: Parsers, boardId: nat, nextId: nat, skips: SkipCollector)
    returns (rows: seq<LabelRow>, labelIdByTrelloId: map<string, nat>, next: nat)
    requires skips.Valid()
    modifies skips
    ensures skips.Valid() && next == nextId + |rows|
    ensures LabelsPlanned(labels, parsers, boardId, nextId, rows, labelIdByTrelloId, old(skips.log), skips.log)
  {
    var st := LabelState([], map[], nextId);
    NothingLogged(skips.log);
    for k := 0 to |labels|
      invariant skips.Valid() && skips.log == old(skips.log) + LabelSkips(labels[..k], parsers)
      invariant st == AddLabels(nextId, labels[..k], parsers, boardId)
    {
      PrefixMore(labels, k);
      SkipsMore(old(skips.log), LabelSkips(labels[..k], parsers), LabelSkip(labels[k], parsers));
      var row := PlanLabel(labels[k], parsers, boardId, st.next, skips);
      st := LabelState(st.rows + [row], st.ids[labels[k].id := st.next], st.next + 1);
    }
    PrefixMore(labels, |labels|);
    LabelsAdded(nextId, labels, parsers, boardId);
    assert st.rows == LabelRows(labels, parsers, boardId, nextId);
    rows, labelIdByTrelloId, next := st.rows, st.ids, st.next;
  }

  // ---- Buckets: rows gathered under an issued id ----

  function Bucket<T>(m: map<nat, seq<T>>, k: nat): seq<T> {
    if k in m then m[k] else []
  }

  function Pushed<T>(m: map<nat, seq<T>>, k: nat, x: T): map<nat, seq<T>> {
    m[k := Bucket(m, k) + [x]]
  }

  // ---- Cards ----

  /** Where a card or a checklist goes, or why it does not. */
  datatype Fate = Kept(home: nat) | Dropped(reason: Reason)

  /** Archived first, then unnamed, then without a list that was imported. */
  function CardFate(card: TrelloCard, columnIds: map<string, nat>, archived: set<string>): Fate {
    if card.closed then Dropped(Archived)
    else if IsUnnamed(card.name) then Dropped(Malformed)
    else if card.idList.Some? && card.idList.value in columnIds then Kept(columnIds[card.idList.value])
    else if card.idList.Some? && card.idList.value in archived then Dropped(Archived)
    else Dropped(Malformed)
  }

  function CardSkip(card: TrelloCard, columnIds: map<string, nat>, archived: set<string>): seq<Event> {
    var fate := CardFate(card, columnIds, archived);
    if fate.Kept? then [] else [Event(CardScope, fate.reason, 1, [Some(card.name)])]
  }

  function CardSkips(cards: seq<TrelloCard>, columnIds: map<string, nat>, archived: set<string>): seq<Event> {
    if cards == [] then []
    else CardSkips(cards[..|cards| - 1], columnIds, archived) + CardSkip(cards[|cards| - 1], columnIds, archived)
  }

  /** Trello card id to the reason it was skipped; a repeated id keeps the last reason. */
  function SkippedReasons(cards: seq<TrelloCard>, columnIds: map<string, nat>, archived: set<string>): map<string,
      Reason> {
    if cards == [] then map[]
    else
      var before, card := SkippedReasons(cards[..|cards| - 1], columnIds, archived), cards[|cards| - 1];
      var fate := CardFate(card, columnIds, archived);
      if fate.Kept? then before else before[card.id := fate.reason]
  }

  function CardBuckets(cards: seq<TrelloCard>, columnIds: map<string, nat>, archived: set<string>): map<nat,
      seq<TrelloCard>> {
    if cards == [] then map[]
    else
      var before, card := CardBuckets(cards[..|cards| - 1], columnIds, archived), cards[|cards| - 1];
      var fate := CardFate(card, columnIds, archived);
      if fate.Kept? then Pushed(before, fate.home, card) else before
  }

  function LandsIn(columnId: nat, columnIds: map<string, nat>, archived: set<string>): TrelloCard -> bool {
    (c: TrelloCard) => CardFate(c, columnIds, archived) == Kept(columnId)
  }

  lemma CardsMore(cards: seq<TrelloCard>, columnIds: map<string, nat>, archived: set<string>, i: nat)
    requires i < |cards|
    ensures CardSkips(cards[..i + 1], columnIds, archived)
            == CardSkips(cards[..i], columnIds, archived) + CardSkip(cards[i], columnIds, archived)
    ensures var fate, before := CardFate(cards[i], columnIds, archived),
            SkippedReasons(cards[..i], columnIds, archived);
            SkippedReasons(cards[..i + 1], columnIds, archived) == if fate.Kept? then before
                else before[cards[i].id := fate.reason]
    ensures var fate, before := CardFate(cards[i], columnIds, archived), CardBuckets(cards[..i], columnIds, archived);
            CardBuckets(cards[..i + 1], columnIds, archived) == if fate.Kept? then Pushed(before, fate.home, cards[i])
                else before
  {
    PrefixMore(cards, i);
  }

  /** A bucket holds the cards of its column in export order. */
  lemma {:induction false} CardBucketHolds(cards: seq<TrelloCard>, columnIds: map<string, nat>, archived: set<string>,
                                           c: nat)
    ensures Bucket(CardBuckets(cards, columnIds, archived), c) == Filter(LandsIn(c, columnIds, archived), cards)
  {
    if cards != [] {
      CardBucketHolds(cards[..|cards| - 1], columnIds, archived, c);
    }
  }

  ghost predicate CardsPlanned(cards: seq<TrelloCard>, columnIds: map<string, nat>, archived: set<string>,
                               reasons: map<string, Reason>, buckets: map<nat, seq<TrelloCard>>, log: seq<Event>,
                                   log': seq<Event>)
  {
    forall k {:trigger Unfolded(k)} | Unfolded(k) ::
      && reasons == SkippedReasons(cards, columnIds, archived)
      && buckets == CardBuckets(cards, columnIds, archived)
      && log' == log + CardSkips(cards, columnIds, archived)
  }

  /** Each card goes into its column's bucket or into the report. */
  method PlanCards(cards: seq<TrelloCard>, columnIdByTrelloId: map<string, nat>, archivedListIds: set<string>,
                   skips: SkipCollector)
    returns (skippedCardReasons: map<string, Reason>, cardsByColumnId: map<nat, seq<TrelloCard>>)
    requires skips.Valid()
    modifies skips
    ensures skips.Valid()
    ensures CardsPlanned(cards, columnIdByTrelloId, archivedListIds, skippedCardReasons, cardsByColumnId,
                         old(skips.log), skips.log)
  {
    skippedCardReasons, cardsByColumnId := map[], map[];
    NothingLogged(skips.log);
    for i := 0 to |cards|
      invariant skips.Valid()
                && skips.log == old(skips.log) + CardSkips(cards[..i], columnIdByTrelloId, archivedListIds)
      invariant skippedCardReasons == SkippedReasons(cards[..i], columnIdByTrelloId, archivedListIds)
      invariant cardsByColumnId == CardBuckets(cards[..i], columnIdByTrelloId, archivedListIds)
    {
      CardsMore(cards, columnIdByTrelloId, archivedListIds, i);
      SkipsMore(old(skips.log), CardSkips(cards[..i], columnIdByTrelloId, archivedListIds),
                CardSkip(cards[i], columnIdByTrelloId, archivedListIds));
      var fate := SkipOrKeep(cards[i], columnIdByTrelloId, archivedListIds, skips);
      if fate.Dropped? {
        skippedCardReasons := skippedCardReasons[cards[i].id := fate.reason];
      } else {
        cardsByColumnId := Pushed(cardsByColumnId, fate.home, cards[i]);
      }
    }
    PrefixMore(cards, |cards|);
  }

  /** One turn of the loop: the four ways a card is skipped, or the column it keeps. */
  method SkipOrKeep(card: TrelloCard, columnIdByTrelloId: map<string, nat>, archivedListIds: set<string>,
                    skips: SkipCollector)
    returns (fate: Fate)
    requires skips.Valid()
    modifies skips
    ensures skips.Valid() && skips.log == old(skips.log) + CardSkip(card, columnIdByTrelloId, archivedListIds)
    ensures fate == CardFate(card, columnIdByTrelloId, archivedListIds)
  {
    if card.closed {
      skips.Add(CardScope, Archived, Some(card.name));
      return Dropped(Archived);
    }
    if IsUnnamed(card.name) {
      skips.Add(CardScope, Malformed, Some(card.name));
      return Dropped(Malformed);
    }
    if card.idList.None? || card.idList.value !in columnIdByTrelloId {
      var reason := if card.idList.Some? && card.idList.value in archivedListIds then Archived else Malformed;
      skips.Add(CardScope, reason, Some(card.name));
      return Dropped(reason);
    }
    return Kept(columnIdByTrelloId[card.idList.value]);
  }

  // ---- One card's labels and attachments ----

  function Knows(m: map<string, nat>): string -> bool {
    (k: string) => k in m
  }

  function LookUp(m: map<string, nat>): string -> nat {
    (k: string) => if k in m then m[k] else 0
  }

  /** The labels of a card that were imported, each once. */
  function Attached(card: TrelloCard, labelIds: map<string, nat>): seq<nat> {
    AttachedOf(card.idLabels, labelIds)
  }

  function AttachedOf(ids: seq<string>, labelIds: map<string, nat>): seq<nat> {
    Dedupe(Map(LookUp(labelIds), Filter(Knows(labelIds), ids)))
  }

  function UnknownLabel(id: string, labelIds: map<string, nat>, name: string): seq<Event> {
    if id in labelIds then [] else [Event(LabelScope, Malformed, 1, [Some(name)])]
  }

  function UnknownLabels(ids: seq<string>, labelIds: map<string, nat>, name: string): seq<Event> {
    if ids == [] then []
    else UnknownLabels(ids[..|ids| - 1], labelIds, name) + UnknownLabel(ids[|ids| - 1], labelIds, name)
  }

  function TaskLabelRows(labelIds: seq<nat>, taskId: nat, first: nat): (r: seq<TaskLabelRow>)
    ensures |r| == |labelIds|
    ensures forall k | 0 <= k < |r| :: r[k] == TaskLabelRow(first + k, taskId, labelIds[k])
  {
    seq(|labelIds|, k requires 0 <= k < |labelIds| => TaskLabelRow(first + k, taskId, labelIds[k]))
  }

  function Storables(attachments: seq<TrelloAttachment>, parsers: Parsers): seq<(string, string)> {
    if attachments == [] then []
    else
      var a := attachments[|attachments| - 1];
      Storables(attachments[..|attachments| - 1], parsers)
      + match parsers.classifyUrl(a.url)
        case Storable(url) => [(if IsUnnamed(a.name) then url else a.name, url)]
        case Refused(_) => []
  }

  function RefusedUrls(attachments: seq<TrelloAttachment>, parsers: Parsers): seq<Event> {
    if attachments == [] then []
    else
      var a := attachments[|attachments| - 1];
      RefusedUrls(attachments[..|attachments| - 1], parsers)
      + match parsers.classifyUrl(a.url)
        case Storable(_) => []
        case Refused(reason) => [Event(AttachmentScope, reason, 1, [Some(a.name)])]
  }

  function AttachmentRows(stored: seq<(string, string)>, taskId: nat, first: nat): (r: seq<AttachmentRow>)
    ensures |r| == |stored|
    ensures forall k | 0 <= k < |r| :: r[k] == AttachmentRow(first + k, taskId, stored[k].0, stored[k].1)
  {
    seq(|stored|, k requires 0 <= k < |stored| => AttachmentRow(first + k, taskId, stored[k].0, stored[k].1))
  }

  lemma AttachedMore(ids: seq<string>, labelIds: map<string, nat>, id: string)
    ensures AttachedOf(ids + [id], labelIds)
            == if id in labelIds then AddOnce(AttachedOf(ids, labelIds), labelIds[id]) else AttachedOf(ids, labelIds)
  {
    var kept := Filter(Knows(labelIds), ids);
    FilterAppend(Knows(labelIds), ids, [id]);
    FilterOne(Knows(labelIds), id);
    if id in labelIds {
      assert Map(LookUp(labelIds), kept + [id]) == Map(LookUp(labelIds), kept) + [labelIds[id]];
      DedupeMore(Map(LookUp(labelIds), kept), labelIds[id]);
    } else {
      assert kept + [] == kept;
    }
  }

  lemma UnknownLabelsMore(ids: seq<string>, labelIds: map<string, nat>, name: string, id: string)
    ensures UnknownLabels(ids + [id], labelIds, name)
            == UnknownLabels(ids, labelIds, name) + UnknownLabel(id, labelIds, name)
  {
    assert (ids + [id])[..|ids + [id]| - 1] == ids;
  }

  lemma TaskLabelRowsMore(labelIds: seq<nat>, x: nat, taskId: nat, first: nat)
    ensures TaskLabelRows(labelIds + [x], taskId, first)
            == TaskLabelRows(labelIds, taskId, first) + [TaskLabelRow(first + |labelIds|, taskId, x)]
  {
  }

  lemma DedupeMore<T>(s: seq<T>, x: T)
    ensures Dedupe(s + [x]) == if x in Dedupe(s) then Dedupe(s) else Dedupe(s) + [x]
  {
    assert (s + [x])[..|s|] == s;
  }

  ghost function SetOf(s: seq<nat>): set<nat> {
    set x | x in s
  }

  lemma SetOfMore(s: seq<nat>, x: nat)
    ensures SetOf(s + [x]) == SetOf(s) + {x}
  {
  }

  method PlanTaskLabels(card: TrelloCard, taskId: nat, labelIdByTrelloId: map<string, nat>, nextId: nat,
                        skips: SkipCollector)
    returns (rows: seq<TaskLabelRow>, next: nat)
    requires skips.Valid()
    modifies skips
    ensures skips.Valid() && skips.log == old(skips.log) + UnknownLabels(card.idLabels, labelIdByTrelloId, card.name)
    ensures rows == TaskLabelRows(Attached(card, labelIdByTrelloId), taskId, nextId) && next == nextId + |rows|
  {
    var ids := card.idLabels;
    ghost var seen: seq<string> := [];
    var attached: set<nat> := {};
    rows, next := [], nextId;
    NothingLogged(skips.log);
    for i := 0 to |ids|
      invariant seen == ids[..i]
      invariant skips.Valid() && skips.log == old(skips.log) + UnknownLabels(seen, labelIdByTrelloId, card.name)
      invariant attached == SetOf(AttachedOf(seen, labelIdByTrelloId))
      invariant rows == TaskLabelRows(AttachedOf(seen, labelIdByTrelloId), taskId, nextId)
    {
      var id := ids[i];
      attached, rows := PlanTaskLabel(id, card.name, taskId, labelIdByTrelloId, attached, rows, nextId, seen, skips);
      SkipsMore(old(skips.log), UnknownLabels(seen, labelIdByTrelloId, card.name),
                UnknownLabel(id, labelIdByTrelloId, card.name));
      UnknownLabelsMore(seen, labelIdByTrelloId, card.name, id);
      PrefixMore(ids, i);
      seen := seen + [id];
    }
    PrefixMore(ids, |ids|);
    next := nextId + |rows|;
  }

  /** One label id of a card: a row, nothing when it is there already, or a report of an unknown label. */
  method PlanTaskLabel(id: string, name: string, taskId: nat, labelIdByTrelloId: map<string, nat>, attached: set<nat>,
                       rows: seq<TaskLabelRow>, nextId: nat, ghost seen: seq<string>, skips: SkipCollector)
    returns (attached': set<nat>, rows': seq<TaskLabelRow>)
    requires skips.Valid()
    requires attached == SetOf(AttachedOf(seen, labelIdByTrelloId))
    requires rows == TaskLabelRows(AttachedOf(seen, labelIdByTrelloId), taskId, nextId)
    modifies skips
    ensures skips.Valid() && skips.log == old(skips.log) + UnknownLabel(id, labelIdByTrelloId, name)
    ensures attached' == SetOf(AttachedOf(seen + [id], labelIdByTrelloId))
    ensures rows' == TaskLabelRows(AttachedOf(seen + [id], labelIdByTrelloId), taskId, nextId)
  {
    AttachedMore(seen, labelIdByTrelloId, id);
    if id !in labelIdByTrelloId {
      skips.Add(LabelScope, Malformed, Some(name));
      return attached, rows;
    }
    NothingLogged(skips.log);
    attached', rows' := AttachLabel(labelIdByTrelloId[id], taskId, attached, rows, nextId,
                                    AttachedOf(seen, labelIdByTrelloId));
  }

  function AddOnce(labelIds: seq<nat>, labelId: nat): seq<nat> {
    if labelId in labelIds then labelIds else labelIds + [labelId]
  }

  /** A label already attached is passed over. */
  method AttachLabel(labelId: nat, taskId: nat, attached: set<nat>, rows: seq<TaskLabelRow>, nextId: nat,
                     ghost labelIds: seq<nat>)
    returns (attached': set<nat>, rows': seq<TaskLabelRow>)
    requires attached == SetOf(labelIds) && rows == TaskLabelRows(labelIds, taskId, nextId)
    ensures attached' == SetOf(AddOnce(labelIds, labelId))
    ensures rows' == TaskLabelRows(AddOnce(labelIds, labelId), taskId, nextId)
  {
    if labelId in attached {
      return attached, rows;
    }
    SetOfMore(labelIds, labelId);
    TaskLabelRowsMore(labelIds, labelId, taskId, nextId);
    return attached + {labelId}, rows + [TaskLabelRow(nextId + |rows|, taskId, labelId)];
  }

  lemma NothingLogged(log: seq<Event>)
    ensures log + [] == log
  {
  }

  method PlanAttachments(card: TrelloCard, taskId: nat, parsers: Parsers, nextId: nat, skips: SkipCollector)
    returns (rows: seq<AttachmentRow>, next: nat)
    requires skips.Valid()
    modifies skips
    ensures skips.Valid() && skips.log == old(skips.log) + RefusedUrls(card.attachments, parsers)
    ensures rows == AttachmentRows(Storables(card.attachments, parsers), taskId, nextId) && next == nextId + |rows|
  {
    var attachments := card.attachments;
    rows, next := [], nextId;
    NothingLogged(skips.log);
    for i := 0 to |attachments|
      invariant skips.Valid() && skips.log == old(skips.log) + RefusedUrls(attachments[..i], parsers)
      invariant rows == AttachmentRows(Storables(attachments[..i], parsers), taskId, nextId) && next == nextId + |rows|
    {
      PrefixMore(attachments, i);
      var a := attachments[i];
      var verdict := parsers.classifyUrl(a.url);
      SkipsMore(old(skips.log), RefusedUrls(attachments[..i], parsers),
                if verdict.Storable? then [] else [Event(AttachmentScope, verdict.reason, 1, [Some(a.name)])]);
      if verdict.Refused? {
        skips.Add(AttachmentScope, verdict.reason, Some(a.name));
        continue;
      }
      rows := rows + [AttachmentRow(next, taskId, if IsUnnamed(a.name) then verdict.url else a.name, verdict.url)];
      next := next + 1;
    }
    PrefixMore(attachments, |attachments|);
  }

  // ---- Tasks ----

  /** A card with the column and the position it gets. */
  datatype Placed = Placed(card: TrelloCard, columnId: nat, position: real)

  function PlacedIn(cards: seq<TrelloCard>, columnId: nat): (r: seq<Placed>)
    ensures |r| == |cards| && forall k | 0 <= k < |r| :: r[k] == Placed(cards[k], columnId, Columns.RebalancedAt(k))
  {
    seq(|cards|, k requires 0 <= k < |cards| => Placed(cards[k], columnId, Columns.RebalancedAt(k)))
  }

  /** The cards in writing order: column by column, each column by position. */
  function PlacedCards(columns: seq<ColumnRow>, buckets: map<nat, seq<TrelloCard>>): seq<Placed> {
    if columns == [] then []
    else
      var column := columns[|columns| - 1];
      PlacedCards(columns[..|columns| - 1], buckets)
      + PlacedIn(OrderedByPos(CardId, CardPos, Bucket(buckets, column.id)), column.id)
  }

  datatype Setting = Setting(boardId: nat, labelIds: map<string, nat>, parsers: Parsers)

  datatype TaskState = TaskState(
    tasks: seq<TaskRow>, taskLabels: seq<TaskLabelRow>, attachments: seq<AttachmentRow>,
    taskIdByTrelloCardId: map<string, nat>, next: nat)

  function AddTask(st: TaskState, p: Placed, s: Setting): TaskState {
    var id, labels, stored := st.next, Attached(p.card, s.labelIds), Storables(p.card.attachments, s.parsers);
    TaskState(
      st.tasks + [TaskRow(id, s.boardId, p.columnId, p.card.name, EmptyToNull(p.card.desc), p.position,
                          DueOf(s.parsers, p.card.due))],
      st.taskLabels + TaskLabelRows(labels, id, id + 1),
      st.attachments + AttachmentRows(stored, id, id + 1 + |labels|),
      st.taskIdByTrelloCardId[p.card.id := id],
      id + 1 + |labels| + |stored|)
  }

  function AddTasks(first: nat, placed: seq<Placed>, s: Setting): TaskState {
    if placed == [] then TaskState([], [], [], map[], first)
    else AddTask(AddTasks(first, placed[..|placed| - 1], s), placed[|placed| - 1], s)
  }

  function TaskSkip(p: Placed, s: Setting): seq<Event> {
    UnknownLabels(p.card.idLabels, s.labelIds, p.card.name) + RefusedUrls(p.card.attachments, s.parsers)
  }

  function TaskSkips(placed: seq<Placed>, s: Setting): seq<Event> {
    if placed == [] then [] else TaskSkips(placed[..|placed| - 1], s) + TaskSkip(placed[|placed| - 1], s)
  }

  method PlanTask(st: TaskState, p: Placed, s: Setting, skips: SkipCollector) returns (st': TaskState)
    requires skips.Valid()
    modifies skips
    ensures skips.Valid() && skips.log == old(skips.log) + TaskSkip(p, s)
    ensures st' == AddTask(st, p, s)
  {
    var taskId := st.next;
    var task := TaskRow(taskId, s.boardId, p.columnId, p.card.name, EmptyToNull(p.card.desc), p.position,
                        DueOf(s.parsers, p.card.due));
    SkipsMore(skips.log, UnknownLabels(p.card.idLabels, s.labelIds, p.card.name),
              RefusedUrls(p.card.attachments, s.parsers));
    var taskLabels, afterLabels := PlanTaskLabels(p.card, taskId, s.labelIds, taskId + 1, skips);
    var attachments, next := PlanAttachments(p.card, taskId, s.parsers, afterLabels, skips);
    st' := TaskState(st.tasks + [task], st.taskLabels + taskLabels, st.attachments + attachments,
                     st.taskIdByTrelloCardId[p.card.id := taskId], next);
    AddTaskIs(st, p, s, taskLabels, attachments);
  }

  lemma AddTaskIs(st: TaskState, p: Placed, s: Setting, labels: seq<TaskLabelRow>, attachments: seq<AttachmentRow>)
    requires labels == TaskLabelRows(Attached(p.card, s.labelIds), st.next, st.next + 1)
    requires attachments == AttachmentRows(Storables(p.card.attachments, s.parsers), st.next, st.next + 1 + |labels|)
    ensures AddTask(st, p, s)
            == TaskState(st.tasks
                         + [TaskRow(st.next, s.boardId, p.columnId, p.card.name, EmptyToNull(p.card.desc), p.position,
                                             DueOf(s.parsers, p.card.due))],
                         st.taskLabels + labels, st.attachments + attachments,
                         st.taskIdByTrelloCardId[p.card.id := st.next], st.next + 1 + |labels| + |attachments|)
  {
  }

  lemma PlacedMore(first: nat, placed: seq<Placed>, p: Placed, s: Setting)
    ensures AddTasks(first, placed + [p], s) == AddTask(AddTasks(first, placed, s), p, s)
    ensures TaskSkips(placed + [p], s) == TaskSkips(placed, s) + TaskSkip(p, s)
  {
    assert (placed + [p])[..|placed|] == placed;
  }

  lemma PlacedInMore(cards: seq<TrelloCard>, columnId: nat, j: nat)
    requires j < |cards|
    ensures PlacedIn(cards[..j + 1], columnId)
            == PlacedIn(cards[..j], columnId) + [Placed(cards[j], columnId, Columns.RebalancedAt(j))]
  {
  }

  ghost predicate TasksPlanned(columns: seq<ColumnRow>, buckets: map<nat, seq<TrelloCard>>, s: Setting, nextId: nat,
                               st: TaskState, placed: seq<Placed>, log: seq<Event>, log': seq<Event>)
  {
    forall k {:trigger Unfolded(k)} | Unfolded(k) ::
      && placed == PlacedCards(columns, buckets)
      && st == AddTasks(nextId, placed, s)
      && log' == log + TaskSkips(placed, s)
  }

  method PlanTasks(columns: seq<ColumnRow>, cardsByColumnId: map<nat, seq<TrelloCard>>, s: Setting, nextId: nat,
                   skips: SkipCollector)
    returns (st: TaskState, ghost placed: seq<Placed>)
    requires skips.Valid()
    modifies skips
    ensures skips.Valid() && TasksPlanned(columns, cardsByColumnId, s, nextId, st, placed, old(skips.log), skips.log)
  {
    placed := PlacedCards(columns, cardsByColumnId);
    st := TaskState([], [], [], map[], nextId);
    NothingLogged(skips.log);
    for i := 0 to |columns|
      invariant skips.Valid() && skips.log == old(skips.log) + TaskSkips(PlacedCards(columns[..i], cardsByColumnId), s)
      invariant st == AddTasks(nextId, PlacedCards(columns[..i], cardsByColumnId), s)
    {
      PrefixMore(columns, i);
      var cards := OrderedByPos(CardId, CardPos, Bucket(cardsByColumnId, columns[i].id));
      st := PlanColumn(columns[i], cards, st, s, nextId, PlacedCards(columns[..i], cardsByColumnId), old(skips.log),
                       skips);
    }
    PrefixMore(columns, |columns|);
  }

  /** One column's cards, in order. */
  method PlanColumn(column: ColumnRow, cards: seq<TrelloCard>, before: TaskState, s: Setting, nextId: nat,
                    ghost placed: seq<Placed>, ghost log: seq<Event>, skips: SkipCollector)
    returns (st: TaskState)
    requires skips.Valid() && skips.log == log + TaskSkips(placed, s) && before == AddTasks(nextId, placed, s)
    modifies skips
    ensures skips.Valid() && skips.log == log + TaskSkips(placed + PlacedIn(cards, column.id), s)
    ensures st == AddTasks(nextId, placed + PlacedIn(cards, column.id), s)
  {
    st := before;
    ghost var done := placed;
    NoneIn(placed, cards, column.id);
    for j := 0 to |cards|
      invariant done == placed + PlacedIn(cards[..j], column.id)
      invariant skips.Valid() && skips.log == log + TaskSkips(done, s) && st == AddTasks(nextId, done, s)
    {
      var p := Placed(cards[j], column.id, Columns.RebalancedAt(j));
      PlacedInMore(cards, column.id, j);
      Append3(placed, PlacedIn(cards[..j], column.id), [p]);
      PlacedMore(nextId, done, p, s);
      SkipsMore(log, TaskSkips(done, s), TaskSkip(p, s));
      st := PlanTask(st, p, s, skips);
      done := done + [p];
    }
    PrefixMore(cards, |cards|);
  }

  lemma NoneIn(placed: seq<Placed>, cards: seq<TrelloCard>, columnId: nat)
    ensures placed + PlacedIn(cards[..0], columnId) == placed
  {
  }

  // ---- Checklists ----

  /** A checklist whose card was skipped inherits the reason; one that says nothing is malformed. */
  function ChecklistFate(c: TrelloChecklist, taskIds: map<string, nat>, reasons: map<string, Reason>): Fate {
    if c.idCard.None? || c.idCard.value !in taskIds then
      Dropped(if c.idCard.Some? && c.idCard.value in reasons then reasons[c.idCard.value] else Malformed)
    else if IsUnnamed(c.name) || |c.checkItems| == 0 then Dropped(Malformed)
    else Kept(taskIds[c.idCard.value])
  }

  function ChecklistSkip(c: TrelloChecklist, taskIds: map<string, nat>, reasons: map<string, Reason>): seq<Event> {
    var fate := ChecklistFate(c, taskIds, reasons);
    if fate.Kept? then [] else [Event(ChecklistScope, fate.reason, 1, [Some(c.name)])]
  }

  function ChecklistSkips(cs: seq<TrelloChecklist>, taskIds: map<string, nat>,
                          reasons: map<string, Reason>): seq<Event> {
    if cs == [] then []
    else ChecklistSkips(cs[..|cs| - 1], taskIds, reasons) + ChecklistSkip(cs[|cs| - 1], taskIds, reasons)
  }

  function ChecklistBuckets(cs: seq<TrelloChecklist>, taskIds: map<string, nat>, reasons: map<string, Reason>)
    : map<nat, seq<TrelloChecklist>>
  {
    if cs == [] then map[]
    else
      var before, c := ChecklistBuckets(cs[..|cs| - 1], taskIds, reasons), cs[|cs| - 1];
      var fate := ChecklistFate(c, taskIds, reasons);
      if fate.Kept? then Pushed(before, fate.home, c) else before
  }

  function HangsOff(taskId: nat, taskIds: map<string, nat>, reasons: map<string, Reason>): TrelloChecklist -> bool {
    (c: TrelloChecklist) => ChecklistFate(c, taskIds, reasons) == Kept(taskId)
  }

  lemma ChecklistsMore(cs: seq<TrelloChecklist>, taskIds: map<string, nat>, reasons: map<string, Reason>, i: nat)
    requires i < |cs|
    ensures ChecklistSkips(cs[..i + 1], taskIds, reasons)
            == ChecklistSkips(cs[..i], taskIds, reasons) + ChecklistSkip(cs[i], taskIds, reasons)
    ensures var fate, before := ChecklistFate(cs[i], taskIds, reasons), ChecklistBuckets(cs[..i], taskIds, reasons);
            ChecklistBuckets(cs[..i + 1], taskIds, reasons) == if fate.Kept? then Pushed(before, fate.home, cs[i])
                else before
  {
    PrefixMore(cs, i);
  }

  lemma {:induction false} ChecklistBucketHolds(cs: seq<TrelloChecklist>, taskIds: map<string, nat>,
                                                reasons: map<string, Reason>, t: nat)
    ensures Bucket(ChecklistBuckets(cs, taskIds, reasons), t) == Filter(HangsOff(t, taskIds, reasons), cs)
  {
    if cs != [] {
      ChecklistBucketHolds(cs[..|cs| - 1], taskIds, reasons, t);
    }
  }

  ghost predicate ChecklistsPlanned(cs: seq<TrelloChecklist>, taskIds: map<string, nat>, reasons: map<string, Reason>,
                                    buckets: map<nat, seq<TrelloChecklist>>, log: seq<Event>, log': seq<Event>)
  {
    forall k {:trigger Unfolded(k)} | Unfolded(k) ::
      && buckets == ChecklistBuckets(cs, taskIds, reasons)
      && log' == log + ChecklistSkips(cs, taskIds, reasons)
  }

  method PlanChecklists(cs: seq<TrelloChecklist>, taskIds: map<string, nat>, reasons: map<string, Reason>,
                        skips: SkipCollector)
    returns (checklistsByTaskId: map<nat, seq<TrelloChecklist>>)
    requires skips.Valid()
    modifies skips
    ensures skips.Valid() && ChecklistsPlanned(cs, taskIds, reasons, checklistsByTaskId, old(skips.log), skips.log)
  {
    checklistsByTaskId := map[];
    NothingLogged(skips.log);
    for i := 0 to |cs|
      invariant skips.Valid() && skips.log == old(skips.log) + ChecklistSkips(cs[..i], taskIds, reasons)
      invariant checklistsByTaskId == ChecklistBuckets(cs[..i], taskIds, reasons)
    {
      ChecklistsMore(cs, taskIds, reasons, i);
      SkipsMore(old(skips.log), ChecklistSkips(cs[..i], taskIds, reasons), ChecklistSkip(cs[i], taskIds, reasons));
      var fate := HangOrSkip(cs[i], taskIds, reasons, skips);
      if fate.Kept? {
        checklistsByTaskId := Pushed(checklistsByTaskId, fate.home, cs[i]);
      }
    }
    PrefixMore(cs, |cs|);
  }

  method HangOrSkip(c: TrelloChecklist, taskIds: map<string, nat>, reasons: map<string, Reason>, skips: SkipCollector)
    returns (fate: Fate)
    requires skips.Valid()
    modifies skips
    ensures skips.Valid() && skips.log == old(skips.log) + ChecklistSkip(c, taskIds, reasons)
    ensures fate == ChecklistFate(c, taskIds, reasons)
  {
    if c.idCard.None? || c.idCard.value !in taskIds {
      var reason := if c.idCard.Some? && c.idCard.value in reasons then reasons[c.idCard.value] else Malformed;
      skips.Add(ChecklistScope, reason, Some(c.name));
      return Dropped(reason);
    }
    if IsUnnamed(c.name) || |c.checkItems| == 0 {
      skips.Add(ChecklistScope, Malformed, Some(c.name));
      return Dropped(Malformed);
    }
    return Kept(taskIds[c.idCard.value]);
  }

  // ---- Checklist items ----

  predicate NamedItem(i: TrelloCheckItem) {
    !IsUnnamed(i.name)
  }

  function UsableItems(c: TrelloChecklist): seq<TrelloCheckItem> {
    Filter(NamedItem, OrderedByPos(ItemId, ItemPos, c.checkItems))
  }

  function ItemSkips(items: seq<TrelloCheckItem>): seq<Event> {
    if items == [] then []
    else ItemSkips(items[..|items| - 1])
         + if NamedItem(items[|items| - 1]) then [] else [Event(ChecklistItemScope, Malformed, 1, [])]
  }

  function ItemRows(items: seq<TrelloCheckItem>, checklistId: nat, first: nat): (r: seq<ItemRow>)
    ensures |r| == |items|
    ensures forall k | 0 <= k < |r| ::
              r[k] == ItemRow(first + k, checklistId, items[k].name, items[k].state
                              == Some("complete"), Columns.RebalancedAt(k))
  {
    seq(|items|, k requires 0 <= k < |items| =>
          ItemRow(first + k, checklistId, items[k].name, items[k].state == Some("complete"), Columns.RebalancedAt(k)))
  }

  datatype Hung = Hung(checklist: TrelloChecklist, taskId: nat, position: real)

  function HungOn(cs: seq<TrelloChecklist>, taskId: nat): (r: seq<Hung>)
    ensures |r| == |cs| && forall k | 0 <= k < |r| :: r[k] == Hung(cs[k], taskId, Columns.RebalancedAt(k))
  {
    seq(|cs|, k requires 0 <= k < |cs| => Hung(cs[k], taskId, Columns.RebalancedAt(k)))
  }

  function HungLists(tasks: seq<TaskRow>, buckets: map<nat, seq<TrelloChecklist>>): seq<Hung> {
    if tasks == [] then []
    else
      var task := tasks[|tasks| - 1];
      HungLists(tasks[..|tasks| - 1], buckets)
          + HungOn(OrderedByPos(ChecklistId, ChecklistPos, Bucket(buckets, task.id)), task.id)
  }

  datatype ListState = ListState(checklists: seq<ChecklistRow>, checklistItems: seq<ItemRow>, next: nat)

  function AddList(st: ListState, h: Hung): ListState {
    var id, items := st.next, UsableItems(h.checklist);
    ListState(st.checklists + [ChecklistRow(id, h.taskId, h.checklist.name, h.position)],
              st.checklistItems + ItemRows(items, id, id + 1), id + 1 + |items|)
  }

  function AddLists(first: nat, hung: seq<Hung>): ListState {
    if hung == [] then ListState([], [], first)
    else AddList(AddLists(first, hung[..|hung| - 1]), hung[|hung| - 1])
  }

  function HungSkip(h: Hung): seq<Event> {
    ItemSkips(OrderedByPos(ItemId, ItemPos, h.checklist.checkItems))
  }

  function HungSkips(hung: seq<Hung>): seq<Event> {
    if hung == [] then [] else HungSkips(hung[..|hung| - 1]) + HungSkip(hung[|hung| - 1])
  }

  method PlanList(st: ListState, h: Hung, skips: SkipCollector) returns (st': ListState)
    requires skips.Valid()
    modifies skips
    ensures skips.Valid() && skips.log == old(skips.log) + HungSkip(h)
    ensures st' == AddList(st, h)
  {
    var checklistId := st.next;
    var usableItems := SiftItems(OrderedByPos(ItemId, ItemPos, h.checklist.checkItems), skips);
    var rows: seq<ItemRow> := [];
    for k := 0 to |usableItems|
      invariant skips.Valid() && skips.log == old(skips.log) + HungSkip(h)
      invariant rows == ItemRows(usableItems, checklistId, checklistId + 1)[..k]
    {
      var item := usableItems[k];
      rows := rows
          + [ItemRow(checklistId + 1 + k, checklistId, item.name, item.state
                     == Some("complete"), Columns.RebalancedAt(k))];
    }
    st' := ListState(st.checklists + [ChecklistRow(checklistId, h.taskId, h.checklist.name, h.position)],
                     st.checklistItems + rows, checklistId + 1 + |usableItems|);
  }

  method SiftItems(items: seq<TrelloCheckItem>, skips: SkipCollector) returns (usable: seq<TrelloCheckItem>)
    requires skips.Valid()
    modifies skips
    ensures skips.Valid() && skips.log == old(skips.log) + ItemSkips(items) && usable == Filter(NamedItem, items)
  {
    usable := [];
    NothingLogged(skips.log);
    for i := 0 to |items|
      invariant skips.Valid() && skips.log == old(skips.log) + ItemSkips(items[..i])
                && usable == Filter(NamedItem, items[..i])
    {
      PrefixMore(items, i);
      SkipsMore(old(skips.log), ItemSkips(items[..i]),
                if NamedItem(items[i]) then [] else [Event(ChecklistItemScope, Malformed, 1, [])]);
      if IsUnnamed(items[i].name) {
        skips.Add(ChecklistItemScope, Malformed, None);
      } else {
        usable := usable + [items[i]];
      }
    }
    PrefixMore(items, |items|);
  }

  lemma HungMore(first: nat, hung: seq<Hung>, h: Hung)
    ensures AddLists(first, hung + [h]) == AddList(AddLists(first, hung), h)
    ensures HungSkips(hung + [h]) == HungSkips(hung) + HungSkip(h)
  {
    assert (hung + [h])[..|hung|] == hung;
  }

  lemma HungOnMore(cs: seq<TrelloChecklist>, taskId: nat, j: nat)
    requires j < |cs|
    ensures HungOn(cs[..j + 1], taskId) == HungOn(cs[..j], taskId) + [Hung(cs[j], taskId, Columns.RebalancedAt(j))]
  {
  }

  lemma NoneOn(hung: seq<Hung>, cs: seq<TrelloChecklist>, taskId: nat)
    ensures hung + HungOn(cs[..0], taskId) == hung
  {
  }

  ghost predicate ListRowsPlanned(tasks: seq<TaskRow>, buckets: map<nat, seq<TrelloChecklist>>, nextId: nat,
                                  st: ListState, hung: seq<Hung>, log: seq<Event>, log': seq<Event>)
  {
    forall k {:trigger Unfolded(k)} | Unfolded(k) ::
      && hung == HungLists(tasks, buckets)
      && st == AddLists(nextId, hung)
      && log' == log + HungSkips(hung)
  }

  method PlanChecklistRows(tasks: seq<TaskRow>, buckets: map<nat, seq<TrelloChecklist>>, nextId: nat,
                           skips: SkipCollector)
    returns (st: ListState, ghost hung: seq<Hung>)
    requires skips.Valid()
    modifies skips
    ensures skips.Valid() && ListRowsPlanned(tasks, buckets, nextId, st, hung, old(skips.log), skips.log)
  {
    hung := HungLists(tasks, buckets);
    st := ListState([], [], nextId);
    NothingLogged(skips.log);
    for i := 0 to |tasks|
      invariant skips.Valid() && skips.log == old(skips.log) + HungSkips(HungLists(tasks[..i], buckets))
      invariant st == AddLists(nextId, HungLists(tasks[..i], buckets))
    {
      PrefixMore(tasks, i);
      var cs := OrderedByPos(ChecklistId, ChecklistPos, Bucket(buckets, tasks[i].id));
      st := HangOn(tasks[i].id, cs, st, nextId, HungLists(tasks[..i], buckets), old(skips.log), skips);
    }
    PrefixMore(tasks, |tasks|);
  }

  /** One task's checklists, in order. */
  method HangOn(taskId: nat, cs: seq<TrelloChecklist>, before: ListState, nextId: nat,
                ghost hung: seq<Hung>, ghost log: seq<Event>, skips: SkipCollector)
    returns (st: ListState)
    requires skips.Valid() && skips.log == log + HungSkips(hung) && before == AddLists(nextId, hung)
    modifies skips
    ensures skips.Valid() && skips.log == log + HungSkips(hung + HungOn(cs, taskId))
    ensures st == AddLists(nextId, hung + HungOn(cs, taskId))
  {
    st := before;
    ghost var done := hung;
    NoneOn(hung, cs, taskId);
    for j := 0 to |cs|
      invariant done == hung + HungOn(cs[..j], taskId)
      invariant skips.Valid() && skips.log == log + HungSkips(done) && st == AddLists(nextId, done)
    {
      var h := Hung(cs[j], taskId, Columns.RebalancedAt(j));
      HungOnMore(cs, taskId, j);
      Append3(hung, HungOn(cs[..j], taskId), [h]);
      HungMore(nextId, done, h);
      SkipsMore(log, HungSkips(done), HungSkip(h));
      st := PlanList(st, h, skips);
      done := done + [h];
    }
    PrefixMore(cs, |cs|);
  }

  // ---- The plan ----

  function SampleOf(sample: Option<string>): seq<Option<string>> {
    if sample.None? then [] else [sample]
  }

  function IssueEvents(issues: seq<Issue>): seq<Event> {
    if issues == [] then []
    else
      var i := issues[|issues| - 1];
      IssueEvents(issues[..|issues| - 1]) + [Event(i.scope, i.reason, 1, SampleOf(i.sample))]
  }

  ghost predicate IssuesReported(issues: seq<Issue>, log: seq<Event>, log': seq<Event>) {
    forall k {:trigger Unfolded(k)} | Unfolded(k) :: log' == log + IssueEvents(issues)
  }

  method ReportIssues(issues: seq<Issue>, skips: SkipCollector)
    requires skips.Valid()
    modifies skips
    ensures skips.Valid() && IssuesReported(issues, old(skips.log), skips.log)
  {
    NothingLogged(skips.log);
    for i := 0 to |issues|
      invariant skips.Valid() && skips.log == old(skips.log) + IssueEvents(issues[..i])
    {
      PrefixMore(issues, i);
      SkipsMore(old(skips.log), IssueEvents(issues[..i]),
                [Event(issues[i].scope, issues[i].reason, 1, SampleOf(issues[i].sample))]);
      skips.Add(issues[i].scope, issues[i].reason, issues[i].sample);
    }
    PrefixMore(issues, |issues|);
  }

  // ---- What the phases skip, in numbers ----

  lemma TotalAppend(a: seq<Event>, b: seq<Event>, scope: Scope)
    ensures Total(a + b, scope) == Total(a, scope) + Total(b, scope)
  {
    SumAppend(ItemsIn(scope), a, b);
  }

  lemma TotalOne(e: Event, scope: Scope)
    ensures Total([e], scope) == if e.scope == scope && e.count > 0 then e.count else 0
  {
    SumMore(ItemsIn(scope), [], e);
    assert [] + [e] == [e];
  }

  lemma TotalNone(log: seq<Event>, scope: Scope)
    requires forall e | e in log :: e.scope != scope
    ensures Total(log, scope) == 0
  {
    SumPositive(ItemsIn(scope), log);
  }

  lemma {:induction false} ListSkipsCounted(lists: seq<TrelloList>, scope: Scope)
    ensures Total(ListSkips(lists), scope) == if scope == ListScope then |lists| - |Filter(LiveList, lists)| else 0
  {
    if lists != [] {
      var before, l := lists[..|lists| - 1], lists[|lists| - 1];
      ListSkipsCounted(before, scope);
      TotalAppend(ListSkips(before), ListSkip(l), scope);
      if !LiveList(l) { TotalOne(ListSkip(l)[0], scope); }
    }
  }

  lemma {:induction false} LabelSkipsCounted(labels: seq<TrelloLabel>, parsers: Parsers)
    ensures forall e | e in LabelSkips(labels, parsers) :: e.scope == LabelScope
  {
    if labels != [] {
      LabelSkipsCounted(labels[..|labels| - 1], parsers);
    }
  }

  function CardFates(columnIds: map<string, nat>, archived: set<string>): TrelloCard -> Fate {
    (c: TrelloCard) => CardFate(c, columnIds, archived)
  }

  function ChecklistFates(taskIds: map<string, nat>, reasons: map<string, Reason>): TrelloChecklist -> Fate {
    (c: TrelloChecklist) => ChecklistFate(c, taskIds, reasons)
  }

  function Goes<T>(fate: T -> Fate, home: nat): T -> bool {
    (x: T) => fate(x) == Kept(home)
  }

  function GoesAmong<T>(fate: T -> Fate, homes: seq<int>): T -> bool {
    (x: T) => fate(x).Kept? && fate(x).home in homes
  }

  function Stays<T>(fate: T -> Fate): T -> bool {
    (x: T) => fate(x).Kept?
  }

  lemma {:induction false} CardSkipsCounted(cards: seq<TrelloCard>, columnIds: map<string, nat>, archived: set<string>,
                                            scope: Scope)
    ensures Total(CardSkips(cards, columnIds, archived), scope)
            == if scope == CardScope then |cards| - |Filter(Stays(CardFates(columnIds, archived)), cards)| else 0
  {
    if cards != [] {
      var before, c := cards[..|cards| - 1], cards[|cards| - 1];
      CardSkipsCounted(before, columnIds, archived, scope);
      TotalAppend(CardSkips(before, columnIds, archived), CardSkip(c, columnIds, archived), scope);
      if CardFate(c, columnIds, archived).Dropped? { TotalOne(CardSkip(c, columnIds, archived)[0], scope); }
    }
  }

  lemma {:induction false} ChecklistSkipsCounted(cs: seq<TrelloChecklist>, taskIds: map<string, nat>,
                                                 reasons: map<string, Reason>, scope: Scope)
    ensures Total(ChecklistSkips(cs, taskIds, reasons), scope)
            == if scope == ChecklistScope then |cs| - |Filter(Stays(ChecklistFates(taskIds, reasons)), cs)| else 0
  {
    if cs != [] {
      var before, c := cs[..|cs| - 1], cs[|cs| - 1];
      ChecklistSkipsCounted(before, taskIds, reasons, scope);
      TotalAppend(ChecklistSkips(before, taskIds, reasons), ChecklistSkip(c, taskIds, reasons), scope);
      if ChecklistFate(c, taskIds, reasons).Dropped? { TotalOne(ChecklistSkip(c, taskIds, reasons)[0], scope); }
    }
  }

  lemma {:induction false} UnknownLabelsScope(ids: seq<string>, labelIds: map<string, nat>, name: string)
    ensures forall e | e in UnknownLabels(ids, labelIds, name) :: e.scope == LabelScope
  {
    if ids != [] {
      UnknownLabelsScope(ids[..|ids| - 1], labelIds, name);
    }
  }

  lemma {:induction false} RefusedUrlsCounted(attachments: seq<TrelloAttachment>, parsers: Parsers, scope: Scope)
    ensures Total(RefusedUrls(attachments, parsers), scope)
            == if scope == AttachmentScope then |attachments| - |Storables(attachments, parsers)| else 0
  {
    if attachments != [] {
      var before, a := attachments[..|attachments| - 1], attachments[|attachments| - 1];
      RefusedUrlsCounted(before, parsers, scope);
      match parsers.classifyUrl(a.url)
      case Storable(_) => TotalAppend(RefusedUrls(before, parsers), [], scope);
      case Refused(reason) =>
        var e := Event(AttachmentScope, reason, 1, [Some(a.name)]);
        TotalAppend(RefusedUrls(before, parsers), [e], scope);
        TotalOne(e, scope);
    }
  }

  function AttachmentsRead(p: Placed): nat {
    |p.card.attachments|
  }

  lemma {:induction false} TaskSkipsCounted(first: nat, placed: seq<Placed>, s: Setting, scope: Scope)
    requires scope != LabelScope
    ensures Total(TaskSkips(placed, s), scope)
            == if scope == AttachmentScope then Sum(AttachmentsRead, placed) - |AddTasks(first, placed, s).attachments|
                else 0
  {
    if placed != [] {
      var before, p := placed[..|placed| - 1], placed[|placed| - 1];
      TaskSkipsCounted(first, before, s, scope);
      TotalAppend(TaskSkips(before, s), TaskSkip(p, s), scope);
      TotalAppend(UnknownLabels(p.card.idLabels, s.labelIds, p.card.name), RefusedUrls(p.card.attachments, s.parsers),
                  scope);
      UnknownLabelsScope(p.card.idLabels, s.labelIds, p.card.name);
      TotalNone(UnknownLabels(p.card.idLabels, s.labelIds, p.card.name), scope);
      RefusedUrlsCounted(p.card.attachments, s.parsers, scope);
    }
  }

  lemma {:induction false} ItemSkipsScope(items: seq<TrelloCheckItem>)
    ensures forall e | e in ItemSkips(items) :: e.scope == ChecklistItemScope
  {
    if items != [] {
      ItemSkipsScope(items[..|items| - 1]);
    }
  }

  lemma {:induction false} HungSkipsScope(hung: seq<Hung>)
    ensures forall e | e in HungSkips(hung) :: e.scope == ChecklistItemScope
  {
    if hung != [] {
      HungSkipsScope(hung[..|hung| - 1]);
      ItemSkipsScope(OrderedByPos(ItemId, ItemPos, hung[|hung| - 1].checklist.checkItems));
    }
  }

  lemma {:induction false} IssueEventsCounted(issues: seq<Issue>, scope: Scope)
    ensures Total(IssueEvents(issues), scope) == |Filter(InScope(scope), issues)|
  {
    if issues != [] {
      var before, i := issues[..|issues| - 1], issues[|issues| - 1];
      IssueEventsCounted(before, scope);
      var e := Event(i.scope, i.reason, 1, SampleOf(i.sample));
      TotalAppend(IssueEvents(before), [e], scope);
      TotalOne(e, scope);
    }
  }

  // ---- Every row kept is placed once ----

  function CountAt<T>(fate: T -> Fate, rows: seq<T>): int -> nat {
    (home: int) => if home < 0 then 0 else |Filter(Goes(fate, home), rows)|
  }

  lemma {:induction false} HomesCount<T>(fate: T -> Fate, homes: seq<int>, rows: seq<T>)
    requires Distinct(homes) && forall h | h in homes :: h >= 0
    ensures Sum(CountAt(fate, rows), homes) == |Filter(GoesAmong(fate, homes), rows)|
  {
    if homes == [] {
      FilterNone(GoesAmong(fate, homes), rows);
    } else {
      var before, h := homes[..|homes| - 1], homes[|homes| - 1];
      assert homes == before + [h] && h in homes;
      assert forall k | 0 <= k < |before| :: before[k] == homes[k] && before[k] in homes;
      HomesCount(fate, before, rows);
      OneHomeMore(fate, before, h, rows);
    }
  }

  lemma OneHomeMore<T>(fate: T -> Fate, before: seq<int>, h: int, rows: seq<T>)
    requires h !in before && h >= 0
    ensures |Filter(GoesAmong(fate, before + [h]), rows)|
            == |Filter(GoesAmong(fate, before), rows)| + |Filter(Goes(fate, h), rows)|
  {
    var homes := before + [h];
    forall x | x in rows
      ensures (GoesAmong(fate, homes)(x) <==> GoesAmong(fate, before)(x) || Goes(fate, h)(x))
              && !(GoesAmong(fate, before)(x) && Goes(fate, h)(x))
    {
      assert fate(x).Kept? ==> (fate(x).home in homes <==> fate(x).home in before || fate(x).home == h);
    }
    FilterEither(GoesAmong(fate, before), Goes(fate, h), GoesAmong(fate, homes), rows);
  }

  lemma {:induction false} PlacedCount(columns: seq<ColumnRow>, cards: seq<TrelloCard>, columnIds: map<string, nat>,
                                       archived: set<string>)
    ensures |PlacedCards(columns, CardBuckets(cards, columnIds, archived))|
            == Sum(CountAt(CardFates(columnIds, archived), cards), Map(ColumnId, columns))
  {
    if columns != [] {
      var before, column := columns[..|columns| - 1], columns[|columns| - 1];
      PlacedCount(before, cards, columnIds, archived);
      assert Map(ColumnId, columns)[..|columns| - 1] == Map(ColumnId, before);
      CardBucketHolds(cards, columnIds, archived, column.id);
      FilterAgree(LandsIn(column.id, columnIds, archived), Goes(CardFates(columnIds, archived), column.id), cards);
      SortPermutation(PosOrder(CardId, CardPos), Bucket(CardBuckets(cards, columnIds, archived), column.id));
    }
  }

  lemma {:induction false} HungCount(tasks: seq<TaskRow>, cs: seq<TrelloChecklist>, taskIds: map<string, nat>,
                                     reasons: map<string, Reason>)
    ensures |HungLists(tasks, ChecklistBuckets(cs, taskIds, reasons))|
            == Sum(CountAt(ChecklistFates(taskIds, reasons), cs), Map(TaskId, tasks))
  {
    if tasks != [] {
      var before, task := tasks[..|tasks| - 1], tasks[|tasks| - 1];
      HungCount(before, cs, taskIds, reasons);
      assert Map(TaskId, tasks)[..|tasks| - 1] == Map(TaskId, before);
      ChecklistBucketHolds(cs, taskIds, reasons, task.id);
      FilterAgree(HangsOff(task.id, taskIds, reasons), Goes(ChecklistFates(taskIds, reasons), task.id), cs);
      SortPermutation(PosOrder(ChecklistId, ChecklistPos), Bucket(ChecklistBuckets(cs, taskIds, reasons), task.id));
    }
  }

  // ---- Ids ----

  lemma IssuedNone(from: int)
    ensures Issued(multiset{}, from, from)
  {
  }

  lemma IssuedJoin(a: multiset<int>, b: multiset<int>, from: int, middle: int, next: int)
    requires Issued(a, from, middle) && Issued(b, middle, next) && from <= middle <= next
    ensures Issued(a + b, from, next)
  {
  }

  lemma IssuedOne(id: int)
    ensures Issued(multiset{id}, id, id + 1)
  {
  }

  lemma {:induction false} IssuedInTurn(ids: seq<int>, from: int)
    requires forall k | 0 <= k < |ids| :: ids[k] == from + k
    ensures Issued(multiset(ids), from, from + |ids|)
  {
    if ids != [] {
      var n := |ids| - 1;
      IssuedInTurn(ids[..n], from);
      IssuedOne(ids[n]);
      IssuedJoin(multiset(ids[..n]), multiset{ids[n]}, from, from + n, from + n + 1);
      assert ids == ids[..n] + [ids[n]];
    }
  }

  lemma IssuedDistinct(ids: seq<int>, m: multiset<int>, from: int, next: int)
    requires Issued(m, from, next) && multiset(ids) <= m
    ensures Distinct(ids) && forall x | x in ids :: from <= x < next
  {
    forall x | x in ids ensures multiset(ids)[x] == 1 && from <= x < next {
      assert x in multiset(ids) && 0 < multiset(ids)[x] <= m[x];
    }
    DistinctCount(ids);
  }

  function TaskPhaseIds(st: TaskState): multiset<int> {
    multiset(Map(TaskId, st.tasks)) + multiset(Map(TaskLabelId, st.taskLabels))
        + multiset(Map(AttachmentId, st.attachments))
  }

  function ListPhaseIds(st: ListState): multiset<int> {
    multiset(Map(ChecklistRowId, st.checklists)) + multiset(Map(ItemRowId, st.checklistItems))
  }

  lemma {:induction false} TaskIdsIssued(first: nat, placed: seq<Placed>, s: Setting)
    ensures var st := AddTasks(first, placed, s);
            first <= st.next && |st.tasks| == |placed| && Issued(TaskPhaseIds(st), first, st.next)
  {
    if placed == [] {
      assert TaskPhaseIds(AddTasks(first, placed, s)) == multiset{};
    } else {
      TaskIdsIssued(first, placed[..|placed| - 1], s);
      TaskIdsStep(AddTasks(first, placed[..|placed| - 1], s), placed[|placed| - 1], s, first);
    }
  }

  lemma IdsMore<T>(f: T -> int, a: seq<T>, b: seq<T>)
    ensures multiset(Map(f, a + b)) == multiset(Map(f, a)) + multiset(Map(f, b))
  {
    MapAppend(f, a, b);
  }

  lemma IssuedThree(was: multiset<int>, id: int, m: multiset<int>, n: multiset<int>, first: int, middle: int, next: int)
    requires Issued(was, first, id) && Issued(m, id + 1, middle) && Issued(n, middle, next)
    requires first <= id < middle <= next
    ensures Issued(was + multiset{id} + m + n, first, next)
  {
    IssuedOne(id);
    IssuedJoin(was, multiset{id}, first, id, id + 1);
    IssuedJoin(was + multiset{id}, m, first, id + 1, middle);
    IssuedJoin(was + multiset{id} + m, n, first, middle, next);
  }

  lemma TaskLabelIdsIssued(labels: seq<nat>, taskId: nat, first: nat)
    ensures Issued(multiset(Map(TaskLabelId, TaskLabelRows(labels, taskId, first))), first, first + |labels|)
  {
    IssuedInTurn(Map(TaskLabelId, TaskLabelRows(labels, taskId, first)), first);
  }

  lemma AttachmentIdsIssued(stored: seq<(string, string)>, taskId: nat, first: nat)
    ensures Issued(multiset(Map(AttachmentId, AttachmentRows(stored, taskId, first))), first, first + |stored|)
  {
    IssuedInTurn(Map(AttachmentId, AttachmentRows(stored, taskId, first)), first);
  }

  lemma ItemIdsIssued(items: seq<TrelloCheckItem>, checklistId: nat, first: nat)
    ensures Issued(multiset(Map(ItemRowId, ItemRows(items, checklistId, first))), first, first + |items|)
  {
    IssuedInTurn(Map(ItemRowId, ItemRows(items, checklistId, first)), first);
  }

  /** One task, its labels and its attachments. */
  lemma PhaseIdsGrow(st: TaskState, st': TaskState, t: TaskRow, a: seq<TaskLabelRow>, b: seq<AttachmentRow>, first: nat,
                     middle: nat)
    requires st'.tasks == st.tasks + [t] && st'.taskLabels == st.taskLabels + a && st'.attachments == st.attachments + b
    requires first <= st.next == t.id < middle <= st'.next && Issued(TaskPhaseIds(st), first, st.next)
    requires Issued(multiset(Map(TaskLabelId, a)), t.id + 1, middle)
    requires Issued(multiset(Map(AttachmentId, b)), middle, st'.next)
    ensures Issued(TaskPhaseIds(st'), first, st'.next)
  {
    var m, n := multiset(Map(TaskLabelId, a)), multiset(Map(AttachmentId, b));
    IssuedThree(TaskPhaseIds(st), t.id, m, n, first, middle, st'.next);
    IdsMore(TaskId, st.tasks, [t]);
    assert Map(TaskId, [t]) == [t.id];
    IdsMore(TaskLabelId, st.taskLabels, a);
    IdsMore(AttachmentId, st.attachments, b);
    assert TaskPhaseIds(st') == TaskPhaseIds(st) + multiset{t.id as int} + m + n;
  }

  lemma TaskAdded(st: TaskState, p: Placed, s: Setting) returns (t: TaskRow)
    ensures var labels, stored := Attached(p.card, s.labelIds), Storables(p.card.attachments, s.parsers);
            var st', middle := AddTask(st, p, s), st.next + 1 + |labels|;
            && st'.taskLabels == st.taskLabels + TaskLabelRows(labels, st.next, st.next + 1)
            && st'.attachments == st.attachments + AttachmentRows(stored, st.next, middle)
            && st'.next == middle + |stored|
    ensures t.id == st.next && AddTask(st, p, s).tasks == st.tasks + [t]
  {
    t := TaskRow(st.next, s.boardId, p.columnId, p.card.name, EmptyToNull(p.card.desc), p.position,
                 DueOf(s.parsers, p.card.due));
  }

  lemma TaskIdsStep(st: TaskState, p: Placed, s: Setting, first: nat)
    requires first <= st.next && Issued(TaskPhaseIds(st), first, st.next)
    ensures Issued(TaskPhaseIds(AddTask(st, p, s)), first, AddTask(st, p, s).next)
  {
    var id, labels, stored := st.next, Attached(p.card, s.labelIds), Storables(p.card.attachments, s.parsers);
    var st', middle := AddTask(st, p, s), id + 1 + |labels|;
    TaskLabelIdsIssued(labels, id, id + 1);
    AttachmentIdsIssued(stored, id, middle);
    var t := TaskAdded(st, p, s);
    PhaseIdsGrow(st, st', t, TaskLabelRows(labels, id, id + 1), AttachmentRows(stored, id, middle), first, middle);
  }

  lemma {:induction false} ListIdsIssued(first: nat, hung: seq<Hung>)
    ensures var st := AddLists(first, hung);
            first <= st.next && |st.checklists| == |hung| && Issued(ListPhaseIds(st), first, st.next)
  {
    if hung == [] {
      assert ListPhaseIds(AddLists(first, hung)) == multiset{};
    } else {
      ListIdsIssued(first, hung[..|hung| - 1]);
      ListIdsStep(AddLists(first, hung[..|hung| - 1]), hung[|hung| - 1], first);
    }
  }

  /** One checklist and its items. */
  lemma ListIdsGrow(st: ListState, st': ListState, c: ChecklistRow, items: seq<ItemRow>, first: nat)
    requires st'.checklists == st.checklists + [c] && st'.checklistItems == st.checklistItems + items
    requires first <= st.next == c.id < st'.next && Issued(ListPhaseIds(st), first, st.next)
    requires Issued(multiset(Map(ItemRowId, items)), c.id + 1, st'.next)
    ensures Issued(ListPhaseIds(st'), first, st'.next)
  {
    var m := multiset(Map(ItemRowId, items));
    IssuedNone(st'.next);
    IssuedThree(ListPhaseIds(st), c.id, m, multiset{}, first, st'.next, st'.next);
    IdsMore(ChecklistRowId, st.checklists, [c]);
    assert Map(ChecklistRowId, [c]) == [c.id];
    IdsMore(ItemRowId, st.checklistItems, items);
    assert ListPhaseIds(st') == ListPhaseIds(st) + multiset{c.id as int} + m + multiset{};
  }

  lemma ListIdsStep(st: ListState, h: Hung, first: nat)
    requires first <= st.next && Issued(ListPhaseIds(st), first, st.next)
    ensures Issued(ListPhaseIds(AddList(st, h)), first, AddList(st, h).next)
  {
    var id, items := st.next, UsableItems(h.checklist);
    ItemIdsIssued(items, id, id + 1);
    ListIdsGrow(st, AddList(st, h), ChecklistRow(id, h.taskId, h.checklist.name, h.position),
                ItemRows(items, id, id + 1), first);
  }

  // ---- References ----

  function PairOf(r: TaskLabelRow): (nat, nat) {
    (r.taskId, r.labelId)
  }

  /** Everything hanging off a task names one of the tasks planned so far. */
  ghost predicate TaskReferences(st: TaskState, labelIds: map<string, nat>) {
    var ids := Map(TaskId, st.tasks);
    && (forall r | r in st.taskLabels :: r.taskId in ids && r.labelId in labelIds.Values)
    && (forall r | r in st.attachments :: r.taskId in ids)
    && (forall c | c in st.taskIdByTrelloCardId :: st.taskIdByTrelloCardId[c] in ids)
  }

  lemma {:induction false} DedupeFrom<T>(s: seq<T>)
    ensures Distinct(Dedupe(s)) && forall x | x in Dedupe(s) :: x in s
  {
    DedupeIsFirstOccurrences(s);
  }

  lemma AttachedFacts(card: TrelloCard, labelIds: map<string, nat>)
    ensures Distinct(Attached(card, labelIds)) && forall l | l in Attached(card, labelIds) :: l in labelIds.Values
  {
    var known := Filter(Knows(labelIds), card.idLabels);
    DedupeFrom(Map(LookUp(labelIds), known));
    FilterIn(Knows(labelIds), card.idLabels);
    forall l | l in Attached(card, labelIds) ensures l in labelIds.Values {
      var k :| 0 <= k < |known| && Map(LookUp(labelIds), known)[k] == l;
      assert known[k] in known;
    }
  }

  lemma {:induction false} TaskReferencesHold(first: nat, placed: seq<Placed>, s: Setting)
    ensures TaskReferences(AddTasks(first, placed, s), s.labelIds)
  {
    if placed != [] {
      var st, p := AddTasks(first, placed[..|placed| - 1], s), placed[|placed| - 1];
      TaskReferencesHold(first, placed[..|placed| - 1], s);
      AttachedFacts(p.card, s.labelIds);
      TaskReferencesStep(st, p, s);
    }
  }

  lemma TaskReferencesStep(st: TaskState, p: Placed, s: Setting)
    requires TaskReferences(st, s.labelIds) && forall l | l in Attached(p.card, s.labelIds) :: l in s.labelIds.Values
    ensures TaskReferences(AddTask(st, p, s), s.labelIds)
  {
    var st' := AddTask(st, p, s);
    assert Map(TaskId, st'.tasks) == Map(TaskId, st.tasks) + [st.next];
    assert st.next in Map(TaskId, st'.tasks);
    var a := TaskLabelRows(Attached(p.card, s.labelIds), st.next, st.next + 1);
    forall r | r in a ensures r.taskId == st.next && r.labelId in s.labelIds.Values {
      var k :| 0 <= k < |a| && a[k] == r;
      assert Attached(p.card, s.labelIds)[k] in Attached(p.card, s.labelIds);
    }
  }

  lemma {:induction false} PairsDistinct(first: nat, placed: seq<Placed>, s: Setting)
    ensures Distinct(Map(PairOf, AddTasks(first, placed, s).taskLabels))
    ensures forall r | r in AddTasks(first, placed, s).taskLabels :: r.taskId < AddTasks(first, placed, s).next
  {
    if placed != [] {
      var st, p := AddTasks(first, placed[..|placed| - 1], s), placed[|placed| - 1];
      PairsDistinct(first, placed[..|placed| - 1], s);
      AttachedFacts(p.card, s.labelIds);
      NewPairs(st.taskLabels, Attached(p.card, s.labelIds), st.next, st.next + 1);
    }
  }

  lemma NewPairs(was: seq<TaskLabelRow>, labels: seq<nat>, taskId: nat, first: nat)
    requires Distinct(Map(PairOf, was)) && (forall r | r in was :: r.taskId < taskId) && Distinct(labels)
    ensures Distinct(Map(PairOf, was + TaskLabelRows(labels, taskId, first)))
  {
    var more := TaskLabelRows(labels, taskId, first);
    var all := was + more;
    forall i, j | 0 <= i < j < |all| ensures PairOf(all[i]) != PairOf(all[j]) {
      if j < |was| {
        assert Map(PairOf, was)[i] != Map(PairOf, was)[j];
      } else if i < |was| {
        assert all[i] in was && all[j] == more[j - |was|];
      } else {
        assert all[i] == more[i - |was|] && all[j] == more[j - |was|] && labels[i - |was|] != labels[j - |was|];
      }
    }
  }

  lemma {:induction false} TaskShapes(first: nat, placed: seq<Placed>, s: Setting)
    ensures var tasks := AddTasks(first, placed, s).tasks;
            |tasks| == |placed|
            && forall k | 0 <= k < |tasks| ::
                 tasks[k] == TaskRow(tasks[k].id, s.boardId, placed[k].columnId, placed[k].card.name,
                                     EmptyToNull(placed[k].card.desc), placed[k].position,
                                         DueOf(s.parsers, placed[k].card.due))
  {
    if placed != [] {
      TaskShapes(first, placed[..|placed| - 1], s);
    }
  }

  lemma {:induction false} PlacedHomes(columns: seq<ColumnRow>, buckets: map<nat, seq<TrelloCard>>)
    ensures forall p | p in PlacedCards(columns, buckets) :: p.columnId in Map(ColumnId, columns)
  {
    if columns != [] {
      var before, column := columns[..|columns| - 1], columns[|columns| - 1];
      PlacedHomes(before, buckets);
      assert Map(ColumnId, columns) == Map(ColumnId, before) + [column.id];
      var more := PlacedIn(OrderedByPos(CardId, CardPos, Bucket(buckets, column.id)), column.id);
      forall p | p in more ensures p.columnId == column.id {
        var k :| 0 <= k < |more| && more[k] == p;
      }
    }
  }

  lemma {:induction false} ListReferences(first: nat, hung: seq<Hung>)
    ensures var st := AddLists(first, hung);
            && (forall r | r in st.checklistItems :: r.checklistId in Map(ChecklistRowId, st.checklists))
            && |st.checklists| == |hung|
            && forall k | 0 <= k < |hung| ::
                 st.checklists[k]
                     == ChecklistRow(st.checklists[k].id, hung[k].taskId, hung[k].checklist.name, hung[k].position)
  {
    if hung != [] {
      var st, h := AddLists(first, hung[..|hung| - 1]), hung[|hung| - 1];
      ListReferences(first, hung[..|hung| - 1]);
      ListReferencesStep(st, h);
    }
  }

  lemma ListReferencesStep(st: ListState, h: Hung)
    requires forall r | r in st.checklistItems :: r.checklistId in Map(ChecklistRowId, st.checklists)
    ensures forall r | r in AddList(st, h).checklistItems ::
            r.checklistId in Map(ChecklistRowId, AddList(st, h).checklists)
  {
    var st' := AddList(st, h);
    assert Map(ChecklistRowId, st'.checklists) == Map(ChecklistRowId, st.checklists) + [st.next];
    assert st.next in Map(ChecklistRowId, st'.checklists);
    var more := ItemRows(UsableItems(h.checklist), st.next, st.next + 1);
    forall r | r in more ensures r.checklistId == st.next {
      var k :| 0 <= k < |more| && more[k] == r;
    }
  }

  lemma {:induction false} HungHomes(tasks: seq<TaskRow>, buckets: map<nat, seq<TrelloChecklist>>)
    ensures forall h | h in HungLists(tasks, buckets) :: h.taskId in Map(TaskId, tasks)
  {
    if tasks != [] {
      var before, task := tasks[..|tasks| - 1], tasks[|tasks| - 1];
      HungHomes(before, buckets);
      assert Map(TaskId, tasks) == Map(TaskId, before) + [task.id];
      var more := HungOn(OrderedByPos(ChecklistId, ChecklistPos, Bucket(buckets, task.id)), task.id);
      forall h | h in more ensures h.taskId == task.id {
        var k :| 0 <= k < |more| && more[k] == h;
      }
    }
  }

  lemma {:induction false} ColumnIdsRange(ordered: seq<TrelloList>, first: nat)
    ensures forall c | c in ColumnIds(ordered, first) :: first <= ColumnIds(ordered, first)[c] < first + |ordered|
  {
    if ordered != [] {
      ColumnIdsRange(ordered[..|ordered| - 1], first);
    }
  }

  lemma {:induction false} LabelIdsRange(labels: seq<TrelloLabel>, first: nat)
    ensures forall l | l in LabelIds(labels, first) :: first <= LabelIds(labels, first)[l] < first + |labels|
  {
    if labels != [] {
      LabelIdsRange(labels[..|labels| - 1], first);
    }
  }

  /** The tasks of one column, seen apart from the others: its cards in order, a gap apart. */
  function OfColumn(columnId: int): Placed -> bool {
    (p: Placed) => p.columnId == columnId
  }

  lemma {:induction false} ColumnBlock(columns: seq<ColumnRow>, buckets: map<nat, seq<TrelloCard>>, column: ColumnRow)
    requires Distinct(Map(ColumnId, columns)) && column in columns
    ensures Filter(OfColumn(column.id), PlacedCards(columns, buckets))
            == PlacedIn(OrderedByPos(CardId, CardPos, Bucket(buckets, column.id)), column.id)
  {
    var before, last := columns[..|columns| - 1], columns[|columns| - 1];
    var more := PlacedIn(OrderedByPos(CardId, CardPos, Bucket(buckets, last.id)), last.id);
    FilterAppend(OfColumn(column.id), PlacedCards(before, buckets), more);
    InItsColumn(OrderedByPos(CardId, CardPos, Bucket(buckets, last.id)), last.id);
    LastApart(ColumnId, columns);
    if column in before {
      ColumnBlock(before, buckets, column);
      FilterNone(OfColumn(column.id), more);
    } else {
      PlacedHomes(before, buckets);
      FilterNone(OfColumn(column.id), PlacedCards(before, buckets));
      FilterAll(OfColumn(column.id), more);
    }
  }

  lemma InItsColumn(cards: seq<TrelloCard>, columnId: nat)
    ensures forall p | p in PlacedIn(cards, columnId) :: p.columnId == columnId
  {
  }

  lemma LastApart<T>(key: T -> int, rows: seq<T>)
    requires rows != [] && Distinct(Map(key, rows))
    ensures var before, last := rows[..|rows| - 1], rows[|rows| - 1];
            && Distinct(Map(key, before)) && key(last) !in Map(key, before)
            && (forall c | c in before :: key(c) != key(last)) && forall c | c in rows :: c in before || c == last
  {
    var before, last := rows[..|rows| - 1], rows[|rows| - 1];
    assert forall k | 0 <= k < |before| :: Map(key, before)[k] == Map(key, rows)[k];
    assert Map(key, rows)[|rows| - 1] == key(last);
    forall c | c in before ensures key(c) != key(last) {
      var k :| 0 <= k < |before| && before[k] == c;
      assert Map(key, rows)[k] == key(c);
    }
  }

  function OnTask(taskId: int): Hung -> bool {
    (h: Hung) => h.taskId == taskId
  }

  lemma HangsThere(cs: seq<TrelloChecklist>, taskId: nat)
    ensures forall h | h in HungOn(cs, taskId) :: h.taskId == taskId
  {
  }

  /** The checklists of one task: those that hang off it, in order. */
  lemma {:induction false} TaskBlock(tasks: seq<TaskRow>, buckets: map<nat, seq<TrelloChecklist>>, task: TaskRow)
    requires Distinct(Map(TaskId, tasks)) && task in tasks
    ensures Filter(OnTask(task.id), HungLists(tasks, buckets))
            == HungOn(OrderedByPos(ChecklistId, ChecklistPos, Bucket(buckets, task.id)), task.id)
  {
    var before, last := tasks[..|tasks| - 1], tasks[|tasks| - 1];
    var more := HungOn(OrderedByPos(ChecklistId, ChecklistPos, Bucket(buckets, last.id)), last.id);
    FilterAppend(OnTask(task.id), HungLists(before, buckets), more);
    HangsThere(OrderedByPos(ChecklistId, ChecklistPos, Bucket(buckets, last.id)), last.id);
    LastApart(TaskId, tasks);
    if task in before {
      TaskBlock(before, buckets, task);
      FilterNone(OnTask(task.id), more);
    } else {
      HungHomes(before, buckets);
      FilterNone(OnTask(task.id), HungLists(before, buckets));
      FilterAll(OnTask(task.id), more);
    }
  }

  function OfChecklist(id: int): ItemRow -> bool {
    (i: ItemRow) => i.checklistId == id
  }

  lemma {:induction false} ListIdsBelow(first: nat, hung: seq<Hung>)
    ensures var st := AddLists(first, hung);
            |st.checklists| == |hung| && (forall k | 0 <= k < |hung| :: st.checklists[k].id < st.next)
            && forall i | i in st.checklistItems :: i.checklistId < st.next
  {
    if hung != [] {
      ListIdsBelow(first, hung[..|hung| - 1]);
    }
  }

  lemma ItemsOfOne(items: seq<TrelloCheckItem>, checklistId: nat, first: nat)
    ensures forall i | i in ItemRows(items, checklistId, first) :: i.checklistId == checklistId
  {
  }

  /** The items under an id are the usable lines of a checklist, in order and a gap apart. */
  ghost predicate Block(st: ListState, h: Hung, id: nat) {
    Filter(OfChecklist(id), st.checklistItems) == ItemRows(UsableItems(h.checklist), id, id + 1)
  }

  ghost predicate Blocks(st: ListState, hung: seq<Hung>) {
    && |st.checklists| == |hung|
    && forall k | 0 <= k < |hung| :: Block(st, hung[k], st.checklists[k].id)
  }

  ghost predicate IdsBelow(st: ListState) {
    && (forall k | 0 <= k < |st.checklists| :: st.checklists[k].id < st.next)
    && forall i | i in st.checklistItems :: i.checklistId < st.next
  }

  /** A new checklist leaves the others' items alone and has its own. */
  lemma BlocksGrow(st: ListState, st': ListState, hung: seq<Hung>, h: Hung, c: ChecklistRow, more: seq<ItemRow>)
    requires Blocks(st, hung) && IdsBelow(st)
    requires st'.checklists == st.checklists + [c] && st'.checklistItems == st.checklistItems + more && c.id == st.next
    requires (forall i | i in more :: i.checklistId == c.id)
             && more == ItemRows(UsableItems(h.checklist), c.id, c.id + 1)
    ensures Blocks(st', hung + [h])
  {
    forall k | 0 <= k < |hung| ensures Block(st', hung[k], st.checklists[k].id) {
      assert Block(st, hung[k], st.checklists[k].id);
      OthersAdded(st.checklistItems, more, st.checklists[k].id);
    }
    OwnAdded(st.checklistItems, more, c.id);
    assert Block(st', h, c.id);
    forall k | 0 <= k < |hung + [h]| ensures Block(st', (hung + [h])[k], st'.checklists[k].id) {
      assert k < |hung| ==> (hung + [h])[k] == hung[k] && st'.checklists[k] == st.checklists[k];
    }
  }

  lemma BlocksStep(st: ListState, hung: seq<Hung>, h: Hung)
    requires Blocks(st, hung) && IdsBelow(st)
    ensures Blocks(AddList(st, h), hung + [h])
  {
    var id, items := st.next, UsableItems(h.checklist);
    ItemsOfOne(items, id, id + 1);
    BlocksGrow(st, AddList(st, h), hung, h, ChecklistRow(id, h.taskId, h.checklist.name, h.position),
               ItemRows(items, id, id + 1));
  }

  lemma BeforeLast<T>(s: seq<T>)
    requires s != []
    ensures s[..|s| - 1] + [s[|s| - 1]] == s
  {
  }

  lemma {:induction false} ItemBlocks(first: nat, hung: seq<Hung>)
    ensures Blocks(AddLists(first, hung), hung)
  {
    if hung != [] {
      var before := hung[..|hung| - 1];
      ItemBlocks(first, before);
      ListIdsBelow(first, before);
      BlocksStep(AddLists(first, before), before, hung[|hung| - 1]);
      BeforeLast(hung);
    }
  }

  lemma OthersAdded(items: seq<ItemRow>, more: seq<ItemRow>, id: nat)
    requires forall i | i in more :: i.checklistId != id
    ensures Filter(OfChecklist(id), items + more) == Filter(OfChecklist(id), items)
  {
    FilterOldOnly(OfChecklist(id), items, more);
  }

  lemma OwnAdded(items: seq<ItemRow>, more: seq<ItemRow>, id: nat)
    requires (forall i | i in items :: i.checklistId != id) && forall i | i in more :: i.checklistId == id
    ensures Filter(OfChecklist(id), items + more) == more
  {
    FilterNewOnly(OfChecklist(id), items, more);
  }

  // ---- Checklists of skipped cards ----

  lemma {:induction false} ReasonKept(cards: seq<TrelloCard>, columnIds: map<string, nat>, archived: set<string>,
                                      card: TrelloCard)
    requires Distinct(Map(CardId, cards)) && card in cards && CardFate(card, columnIds, archived).Dropped?
    ensures card.id in SkippedReasons(cards, columnIds, archived)
    ensures SkippedReasons(cards, columnIds, archived)[card.id] == CardFate(card, columnIds, archived).reason
  {
    var before, last := cards[..|cards| - 1], cards[|cards| - 1];
    if card != last {
      var k :| 0 <= k < |before| && before[k] == card;
      assert Map(CardId, cards)[k] != Map(CardId, cards)[|cards| - 1];
      assert forall i | 0 <= i < |before| :: Map(CardId, before)[i] == Map(CardId, cards)[i];
      ReasonKept(before, columnIds, archived, card);
    }
  }

  lemma {:induction false} TaskIdKeys(first: nat, placed: seq<Placed>, s: Setting, id: string)
    requires id in AddTasks(first, placed, s).taskIdByTrelloCardId
    ensures exists p :: p in placed && p.card.id == id
  {
    var before, last := placed[..|placed| - 1], placed[|placed| - 1];
    if last.card.id == id {
      assert last in placed;
    } else {
      TaskIdKeys(first, before, s, id);
      var p :| p in before && p.card.id == id;
      assert p in placed;
    }
  }

  lemma {:induction false} PlacedWereKept(columns: seq<ColumnRow>, cards: seq<TrelloCard>, columnIds: map<string, nat>,
                                          archived: set<string>, p: Placed)
    requires p in PlacedCards(columns, CardBuckets(cards, columnIds, archived))
    ensures p.card in cards && CardFate(p.card, columnIds, archived).Kept?
  {
    var before, column := columns[..|columns| - 1], columns[|columns| - 1];
    var buckets := CardBuckets(cards, columnIds, archived);
    if p in PlacedCards(before, buckets) {
      PlacedWereKept(before, cards, columnIds, archived, p);
    } else {
      var sorted := OrderedByPos(CardId, CardPos, Bucket(buckets, column.id));
      var k :| 0 <= k < |sorted| && PlacedIn(sorted, column.id)[k] == p;
      assert sorted[k] in sorted;
      SortPermutation(PosOrder(CardId, CardPos), Bucket(buckets, column.id));
      CardBucketHolds(cards, columnIds, archived, column.id);
      FilterIn(LandsIn(column.id, columnIds, archived), cards);
    }
  }

  /** With card ids unique, a checklist of a skipped card is skipped for the card's own reason. */
  lemma ChecklistInheritsReason(cards: seq<TrelloCard>, columnIds: map<string, nat>, archived: set<string>,
                                columns: seq<ColumnRow>,
                                s: Setting, first: nat, card: TrelloCard, c: TrelloChecklist)
    requires Distinct(Map(CardId, cards)) && card in cards && CardFate(card, columnIds, archived).Dropped?
    requires c.idCard == Some(card.id)
    ensures var taskIds := AddTasks(first, PlacedCards(columns, CardBuckets(cards, columnIds, archived)),
                                    s).taskIdByTrelloCardId;
            ChecklistFate(c, taskIds, SkippedReasons(cards, columnIds, archived))
            == Dropped(CardFate(card, columnIds, archived).reason)
  {
    var placed := PlacedCards(columns, CardBuckets(cards, columnIds, archived));
    ReasonKept(cards, columnIds, archived, card);
    if card.id in AddTasks(first, placed, s).taskIdByTrelloCardId {
      TaskIdKeys(first, placed, s, card.id);
      var p :| p in placed && p.card.id == card.id;
      PlacedWereKept(columns, cards, columnIds, archived, p);
      KeyDetermines(CardId, cards, card, p.card);
    }
  }

  function SkippedAs(id: string, columnIds: map<string, nat>, archived: set<string>): TrelloCard -> bool {
    (c: TrelloCard) => c.id == id && CardFate(c, columnIds, archived).Dropped?
  }

  function KeptAs(id: string, columnIds: map<string, nat>, archived: set<string>): TrelloCard -> bool {
    (c: TrelloCard) => c.id == id && CardFate(c, columnIds, archived).Kept?
  }

  /** Of the skipped cards that share an id the last one's reason is remembered. */
  lemma {:induction false} LastReason(cards: seq<TrelloCard>, columnIds: map<string, nat>, archived: set<string>,
                                      id: string)
    ensures var skipped := Filter(SkippedAs(id, columnIds, archived), cards);
            && (id in SkippedReasons(cards, columnIds, archived) <==> skipped != [])
            && (skipped != [] ==>
                  Dropped(SkippedReasons(cards, columnIds, archived)[id])
                      == CardFate(skipped[|skipped| - 1], columnIds, archived))
  {
    if cards != [] {
      LastReason(cards[..|cards| - 1], columnIds, archived, id);
    }
  }

  lemma {:induction false} PlacedKeys(first: nat, placed: seq<Placed>, s: Setting, p: Placed)
    requires p in placed
    ensures p.card.id in AddTasks(first, placed, s).taskIdByTrelloCardId
  {
    var before, last := placed[..|placed| - 1], placed[|placed| - 1];
    if p != last {
      PlacedKeys(first, before, s, p);
    }
  }

  lemma PlacedOne(cards: seq<TrelloCard>, columnId: nat, card: TrelloCard) returns (p: Placed)
    requires card in cards
    ensures p in PlacedIn(OrderedByPos(CardId, CardPos, cards), columnId) && p.card == card
  {
    var sorted := OrderedByPos(CardId, CardPos, cards);
    SortPermutation(PosOrder(CardId, CardPos), cards);
    assert card in multiset(cards);
    assert card in sorted;
    var k :| 0 <= k < |sorted| && sorted[k] == card;
    p := PlacedIn(sorted, columnId)[k];
  }

  lemma {:induction false} KeptIsPlaced(columns: seq<ColumnRow>, cards: seq<TrelloCard>, columnIds: map<string, nat>,
                                        archived: set<string>, card: TrelloCard)
    returns (p: Placed)
    requires card in cards && CardFate(card, columnIds, archived).Kept?
    requires CardFate(card, columnIds, archived).home in Map(ColumnId, columns)
    ensures p in PlacedCards(columns, CardBuckets(cards, columnIds, archived)) && p.card == card
  {
    var n, buckets := |columns| - 1, CardBuckets(cards, columnIds, archived);
    var before, column := columns[..n], columns[n];
    if CardFate(card, columnIds, archived).home == column.id {
      CardBucketHolds(cards, columnIds, archived, column.id);
      FilterIn(LandsIn(column.id, columnIds, archived), cards);
      p := PlacedOne(Bucket(buckets, column.id), column.id, card);
    } else {
      assert Map(ColumnId, columns) == Map(ColumnId, before) + [column.id];
      p := KeptIsPlaced(before, cards, columnIds, archived, card);
    }
  }

  lemma TaskOnlyWhenKept(cards: seq<TrelloCard>, columnIds: map<string, nat>, archived: set<string>,
                         columns: seq<ColumnRow>,
                         s: Setting, first: nat, id: string)
    requires id in AddTasks(first, PlacedCards(columns, CardBuckets(cards, columnIds, archived)),
                            s).taskIdByTrelloCardId
    ensures Filter(KeptAs(id, columnIds, archived), cards) != []
  {
    var placed := PlacedCards(columns, CardBuckets(cards, columnIds, archived));
    TaskIdKeys(first, placed, s, id);
    var p :| p in placed && p.card.id == id;
    PlacedWereKept(columns, cards, columnIds, archived, p);
    FilterIn(KeptAs(id, columnIds, archived), cards);
    assert p.card in Filter(KeptAs(id, columnIds, archived), cards);
  }

  lemma TaskWhenKept(cards: seq<TrelloCard>, columnIds: map<string, nat>, archived: set<string>,
                     columns: seq<ColumnRow>,
                     s: Setting, first: nat, id: string)
    requires forall l | l in columnIds :: columnIds[l] in Map(ColumnId, columns)
    requires Filter(KeptAs(id, columnIds, archived), cards) != []
    ensures id in AddTasks(first, PlacedCards(columns, CardBuckets(cards, columnIds, archived)), s).taskIdByTrelloCardId
  {
    var kept := Filter(KeptAs(id, columnIds, archived), cards);
    FilterIn(KeptAs(id, columnIds, archived), cards);
    assert kept[0] in kept;
    var p := KeptIsPlaced(columns, cards, columnIds, archived, kept[0]);
    PlacedKeys(first, PlacedCards(columns, CardBuckets(cards, columnIds, archived)), s, p);
  }

  /**
    Whatever ids the export repeats: a checklist has a task to hang on exactly when some card with
    its card's id was kept; otherwise it takes the reason of the last skipped card with that id, and
    is malformed when there is no such card.
  */
  lemma ChecklistFateExact(cards: seq<TrelloCard>, columnIds: map<string, nat>, archived: set<string>,
                           columns: seq<ColumnRow>,
                           s: Setting, first: nat, c: TrelloChecklist)
    requires c.idCard.Some? && forall l | l in columnIds :: columnIds[l] in Map(ColumnId, columns)
    ensures var taskIds := AddTasks(first, PlacedCards(columns, CardBuckets(cards, columnIds, archived)),
                                    s).taskIdByTrelloCardId;
            var kept := Filter(KeptAs(c.idCard.value, columnIds, archived), cards);
            var skipped := Filter(SkippedAs(c.idCard.value, columnIds, archived), cards);
            var fate := ChecklistFate(c, taskIds, SkippedReasons(cards, columnIds, archived));
            && (kept != [] && (IsUnnamed(c.name) || c.checkItems == []) ==> fate == Dropped(Malformed))
            && (kept != [] && !IsUnnamed(c.name) && c.checkItems != [] ==>
                  c.idCard.value in taskIds && fate == Kept(taskIds[c.idCard.value]))
            && (kept == [] && skipped != [] ==> fate == CardFate(skipped[|skipped| - 1], columnIds, archived))
            && (kept == [] && skipped == [] ==> fate == Dropped(Malformed))
  {
    var id := c.idCard.value;
    var taskIds := AddTasks(first, PlacedCards(columns, CardBuckets(cards, columnIds, archived)),
                            s).taskIdByTrelloCardId;
    LastReason(cards, columnIds, archived, id);
    if id in taskIds {
      TaskOnlyWhenKept(cards, columnIds, archived, columns, s, first, id);
    }
    if Filter(KeptAs(id, columnIds, archived), cards) != [] {
      TaskWhenKept(cards, columnIds, archived, columns, s, first, id);
    }
  }

  // ---- Checklist lines ----

  lemma {:induction false} ItemSkipsCounted(items: seq<TrelloCheckItem>)
    ensures Total(ItemSkips(items), ChecklistItemScope) == |items| - |Filter(NamedItem, items)|
  {
    if items != [] {
      var before, i := items[..|items| - 1], items[|items| - 1];
      var skip := if NamedItem(i) then [] else [Event(ChecklistItemScope, Malformed, 1, [])];
      ItemSkipsCounted(before);
      TotalAppend(ItemSkips(before), skip, ChecklistItemScope);
      TotalOne(Event(ChecklistItemScope, Malformed, 1, []), ChecklistItemScope);
    }
  }

  function LinesRead(h: Hung): nat {
    |h.checklist.checkItems|
  }

  lemma HungSkipCounted(h: Hung)
    ensures Total(HungSkip(h), ChecklistItemScope) == LinesRead(h) - |UsableItems(h.checklist)|
  {
    var ordered := OrderedByPos(ItemId, ItemPos, h.checklist.checkItems);
    ItemSkipsCounted(ordered);
    SortPermutation(PosOrder(ItemId, ItemPos), h.checklist.checkItems);
    assert |ordered| == |multiset(ordered)| == |h.checklist.checkItems|;
  }

  /** Each line that was read of a checklist on a task became an item or was skipped. */
  lemma {:induction false} HungSkipsCounted(first: nat, hung: seq<Hung>)
    ensures Total(HungSkips(hung), ChecklistItemScope) + |AddLists(first, hung).checklistItems| == Sum(LinesRead, hung)
  {
    if hung != [] {
      var before, h := hung[..|hung| - 1], hung[|hung| - 1];
      HungSkipsCounted(first, before);
      TotalAppend(HungSkips(before), HungSkip(h), ChecklistItemScope);
      HungSkipCounted(h);
    }
  }

  // ---- What a task holds ----

  function LabelsOfTask(id: int): TaskLabelRow -> bool {
    (r: TaskLabelRow) => r.taskId == id
  }

  function AttachmentsOfTask(id: int): AttachmentRow -> bool {
    (r: AttachmentRow) => r.taskId == id
  }

  /** The rows under a task id are the card's known labels, each once, and its storable links, in order. */
  ghost predicate CardBlock(taskLabels: seq<TaskLabelRow>, attachments: seq<AttachmentRow>, card: TrelloCard,
                            s: Setting,
                            id: nat)
  {
    var labels, stored := Attached(card, s.labelIds), Storables(card.attachments, s.parsers);
    && Filter(LabelsOfTask(id), taskLabels) == TaskLabelRows(labels, id, id + 1)
    && Filter(AttachmentsOfTask(id), attachments) == AttachmentRows(stored, id, id + 1 + |labels|)
  }

  lemma CardBlockKept(taskLabels: seq<TaskLabelRow>, moreLabels: seq<TaskLabelRow>, attachments: seq<AttachmentRow>,
                      moreAttachments: seq<AttachmentRow>, card: TrelloCard, s: Setting, id: nat)
    requires CardBlock(taskLabels, attachments, card, s, id)
    requires (forall r | r in moreLabels :: r.taskId != id) && (forall r | r in moreAttachments :: r.taskId != id)
    ensures CardBlock(taskLabels + moreLabels, attachments + moreAttachments, card, s, id)
  {
    FilterOldOnly(LabelsOfTask(id), taskLabels, moreLabels);
    FilterOldOnly(AttachmentsOfTask(id), attachments, moreAttachments);
  }

  lemma CardBlockOwn(taskLabels: seq<TaskLabelRow>, moreLabels: seq<TaskLabelRow>, attachments: seq<AttachmentRow>,
                     moreAttachments: seq<AttachmentRow>, card: TrelloCard, s: Setting, id: nat)
    requires (forall r | r in taskLabels :: r.taskId != id) && (forall r | r in attachments :: r.taskId != id)
    requires (forall r | r in moreLabels :: r.taskId == id) && (forall r | r in moreAttachments :: r.taskId == id)
    requires var labels, stored := Attached(card, s.labelIds), Storables(card.attachments, s.parsers);
             && moreLabels == TaskLabelRows(labels, id, id + 1)
             && moreAttachments == AttachmentRows(stored, id, id + 1 + |labels|)
    ensures CardBlock(taskLabels + moreLabels, attachments + moreAttachments, card, s, id)
  {
    FilterNewOnly(LabelsOfTask(id), taskLabels, moreLabels);
    FilterNewOnly(AttachmentsOfTask(id), attachments, moreAttachments);
  }

  ghost predicate CardBlocks(st: TaskState, placed: seq<Placed>, s: Setting) {
    && |st.tasks| == |placed|
    && forall k | 0 <= k < |placed| :: CardBlock(st.taskLabels, st.attachments, placed[k].card, s, st.tasks[k].id)
  }

  ghost predicate TasksBelow(st: TaskState) {
    && (forall k | 0 <= k < |st.tasks| :: st.tasks[k].id < st.next)
    && (forall r | r in st.taskLabels :: r.taskId < st.next)
    && (forall r | r in st.attachments :: r.taskId < st.next)
  }

  lemma RowsOfOneTask(labels: seq<nat>, stored: seq<(string, string)>, id: nat, middle: nat)
    ensures forall r | r in TaskLabelRows(labels, id, id + 1) :: r.taskId == id
    ensures forall r | r in AttachmentRows(stored, id, middle) :: r.taskId == id
  {
  }

  lemma TasksBelowStep(st: TaskState, p: Placed, s: Setting)
    requires TasksBelow(st)
    ensures TasksBelow(AddTask(st, p, s))
  {
    var labels, stored := Attached(p.card, s.labelIds), Storables(p.card.attachments, s.parsers);
    var t := TaskAdded(st, p, s);
    RowsOfOneTask(labels, stored, st.next, st.next + 1 + |labels|);
  }

  lemma {:induction false} TasksStayBelow(first: nat, placed: seq<Placed>, s: Setting)
    ensures TasksBelow(AddTasks(first, placed, s))
  {
    if placed != [] {
      TasksStayBelow(first, placed[..|placed| - 1], s);
      TasksBelowStep(AddTasks(first, placed[..|placed| - 1], s), placed[|placed| - 1], s);
    }
  }

  lemma OldBlocksKept(st: TaskState, placed: seq<Placed>, s: Setting, labels: seq<TaskLabelRow>,
                      attachments: seq<AttachmentRow>)
    requires CardBlocks(st, placed, s) && TasksBelow(st)
    requires (forall r | r in labels :: r.taskId == st.next) && (forall r | r in attachments :: r.taskId == st.next)
    ensures forall k | 0 <= k < |placed| ::
              CardBlock(st.taskLabels + labels, st.attachments + attachments, placed[k].card, s, st.tasks[k].id)
  {
    forall k | 0 <= k < |placed|
      ensures CardBlock(st.taskLabels + labels, st.attachments + attachments, placed[k].card, s, st.tasks[k].id)
    {
      assert CardBlock(st.taskLabels, st.attachments, placed[k].card, s, st.tasks[k].id);
      CardBlockKept(st.taskLabels, labels, st.attachments, attachments, placed[k].card, s, st.tasks[k].id);
    }
  }

  /** A new task leaves the others' rows alone and has its own. */
  lemma CardBlocksGrow(st: TaskState, st': TaskState, placed: seq<Placed>, p: Placed, s: Setting, t: TaskRow,
                       labels: seq<TaskLabelRow>, attachments: seq<AttachmentRow>)
    requires CardBlocks(st, placed, s) && TasksBelow(st) && t.id == st.next
    requires st'.tasks == st.tasks + [t] && st'.taskLabels == st.taskLabels + labels
             && st'.attachments == st.attachments + attachments
    requires (forall r | r in labels :: r.taskId == st.next) && (forall r | r in attachments :: r.taskId == st.next)
    requires CardBlock(st.taskLabels + labels, st.attachments + attachments, p.card, s, t.id)
    ensures CardBlocks(st', placed + [p], s)
  {
    OldBlocksKept(st, placed, s, labels, attachments);
  }

  lemma NewBlock(taskLabels: seq<TaskLabelRow>, attachments: seq<AttachmentRow>, card: TrelloCard, s: Setting, id: nat)
    requires (forall r | r in taskLabels :: r.taskId != id) && (forall r | r in attachments :: r.taskId != id)
    ensures var labels, stored := Attached(card, s.labelIds), Storables(card.attachments, s.parsers);
            var a, b := TaskLabelRows(labels, id, id + 1), AttachmentRows(stored, id, id + 1 + |labels|);
            && (forall r | r in a :: r.taskId == id) && (forall r | r in b :: r.taskId == id)
            && CardBlock(taskLabels + a, attachments + b, card, s, id)
  {
    var labels, stored := Attached(card, s.labelIds), Storables(card.attachments, s.parsers);
    RowsOfOneTask(labels, stored, id, id + 1 + |labels|);
    CardBlockOwn(taskLabels, TaskLabelRows(labels, id, id + 1), attachments,
                 AttachmentRows(stored, id, id + 1 + |labels|), card, s, id);
  }

  lemma CardBlocksStep(st: TaskState, placed: seq<Placed>, p: Placed, s: Setting)
    requires CardBlocks(st, placed, s) && TasksBelow(st)
    ensures CardBlocks(AddTask(st, p, s), placed + [p], s)
  {
    var t := TaskAdded(st, p, s);
    var labels, stored := Attached(p.card, s.labelIds), Storables(p.card.attachments, s.parsers);
    NewBlock(st.taskLabels, st.attachments, p.card, s, st.next);
    CardBlocksGrow(st, AddTask(st, p, s), placed, p, s, t, TaskLabelRows(labels, st.next, st.next + 1),
                   AttachmentRows(stored, st.next, st.next + 1 + |labels|));
  }

  lemma {:induction false} CardBlocksHold(first: nat, placed: seq<Placed>, s: Setting)
    ensures CardBlocks(AddTasks(first, placed, s), placed, s)
  {
    if placed != [] {
      var before := placed[..|placed| - 1];
      CardBlocksHold(first, before, s);
      TasksStayBelow(first, before, s);
      CardBlocksStep(AddTasks(first, before, s), before, placed[|placed| - 1], s);
      BeforeLast(placed);
    }
  }
}
