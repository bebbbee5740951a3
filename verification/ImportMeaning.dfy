/**
  What an import plan means for the entries of the export it was made from
  (apps/api/src/import/trello-import-planner.ts): which list a task's column is, which cards its
  tasks are, which labels, links and checklists they carry, and why an entry is in the report.
  Everything is said by the fields of the entries and of the rows.
*/
module ImportMeaning {
  import opened ImportPhases
  import opened ImportPlanner
  import opened ImportSkip
  import opened Rows
  import opened Text
  import opened TrelloExport
  import opened Wrappers

  // ---- The order of entries ----

  /** One text is the beginning of the other, or smaller where they first differ. */
  ghost predicate TextNoLater(a: string, b: string) {
    a <= b || exists k | 0 <= k < |a| && k < |b| :: a[..k] == b[..k] && a[k] < b[k]
  }

  /** Numbered entries by number, then the others; the same number or none by text. */
  ghost predicate NoLater(p: Option<real>, x: string, q: Option<real>, y: string) {
    || (p.Some? && q.Some? && p.value < q.value)
    || (p.Some? && q.None?)
    || (p == q && TextNoLater(x, y))
  }

  lemma {:induction false} LexReads(a: string, b: string)
    ensures LexLe(a, b) <==> TextNoLater(a, b)
  {
    if a != [] && b != [] && a[0] == b[0] {
      LexReads(a[1..], b[1..]);
      assert a == [a[0]] + a[1..] && b == [b[0]] + b[1..];
      if a[1..] <= b[1..] {
        assert b == a + b[|a|..];
      }
      if k :| 0 <= k < |a[1..]| && k < |b[1..]| && a[1..][..k] == b[1..][..k] && a[1..][k] < b[1..][k] {
        assert a[..k + 1] == [a[0]] + a[1..][..k] && b[..k + 1] == [b[0]] + b[1..][..k];
        assert a[k + 1] < b[k + 1];
      }
      if k :| 0 <= k < |a| && k < |b| && a[..k] == b[..k] && a[k] < b[k] {
        assert k > 0 && a[1..][..k - 1] == a[..k][1..] && b[1..][..k - 1] == b[..k][1..];
        assert a[1..][k - 1] < b[1..][k - 1];
      }
      if a <= b {
        assert a[1..] == b[1..][..|a| - 1];
      }
    } else if a != [] && b != [] && a[0] < b[0] {
      assert a[..0] == b[..0];
    }
  }

  /** The planner's listing of any kind of entry: all of them, in this order. */
  lemma OrderReads<T(!new)>(id: T -> string, pos: T -> Option<real>, rows: seq<T>)
    ensures var listed := OrderedByPos(id, pos, rows);
            && multiset(listed) == multiset(rows)
            && forall i, j | 0 <= i < j < |listed| ::
                 NoLater(pos(listed[i]), id(listed[i]), pos(listed[j]), id(listed[j]))
  {
    var listed := OrderedByPos(id, pos, rows);
    OrderIsCanonical(id, pos, rows);
    forall i, j | 0 <= i < j < |listed|
      ensures NoLater(pos(listed[i]), id(listed[i]), pos(listed[j]), id(listed[j]))
    {
      assert PosOrder(id, pos)(listed[i], listed[j]);
      LexReads(id(listed[i]), id(listed[j]));
    }
  }

  /** Lists, cards, checklists and lines are all ordered by their own position and id. */
  lemma EntriesInOrder(lists: seq<TrelloList>, cards: seq<TrelloCard>, checklists: seq<TrelloChecklist>,
                       items: seq<TrelloCheckItem>)
    ensures var s := OrderedByPos(ListId, ListPos, lists);
            forall i, j | 0 <= i < j < |s| :: NoLater(s[i].pos, s[i].id, s[j].pos, s[j].id)
    ensures var s := OrderedByPos(CardId, CardPos, cards);
            forall i, j | 0 <= i < j < |s| :: NoLater(s[i].pos, s[i].id, s[j].pos, s[j].id)
    ensures var s := OrderedByPos(ChecklistId, ChecklistPos, checklists);
            forall i, j | 0 <= i < j < |s| :: NoLater(s[i].pos, s[i].id, s[j].pos, s[j].id)
    ensures var s := OrderedByPos(ItemId, ItemPos, items);
            forall i, j | 0 <= i < j < |s| :: NoLater(s[i].pos, s[i].id, s[j].pos, s[j].id)
  {
    OrderReads(ListId, ListPos, lists);
    OrderReads(CardId, CardPos, cards);
    OrderReads(ChecklistId, ChecklistPos, checklists);
    OrderReads(ItemId, ItemPos, items);
  }

  // ---- Lists ----

  /** The lists that become columns, in order. */
  ghost function LiveLists(source: Source): seq<TrelloList> {
    OrderedByPos(ListId, ListPos, Filter((l: TrelloList) => !l.closed && Trim(l.name) != "", source.lists))
  }

  lemma LiveListsAre(source: Source)
    ensures LiveLists(source) == OrderedLists(source.lists)
  {
    FilterAgree(LiveList, (l: TrelloList) => !l.closed && Trim(l.name) != "", source.lists);
  }

  lemma ListsAre(lists: seq<TrelloList>, boardId: nat, from: nat, columns: seq<ColumnRow>,
                 columnIds: map<string, nat>, archived: set<string>, log: seq<Event>, log': seq<Event>)
    requires ListsPlanned(lists, boardId, from, columns, columnIds, archived, log, log')
    ensures |columns| == |OrderedLists(lists)|
    ensures forall k | 0 <= k < |columns| ::
              columns[k] == ColumnRow(from + k, boardId, OrderedLists(lists)[k].name, (k + 1) as real * 1000.0)
    ensures columnIds == ColumnIds(OrderedLists(lists), from)
    ensures archived == set l | l in lists && l.closed :: l.id
  {
    assert Unfolded(0);
  }

  /** The k-th column is the k-th list that is neither closed nor without a name. */
  lemma ColumnsAre(read: ReadResult, parsers: Parsers, first: nat, w: Work, plan: Plan)
    requires Planned(read, parsers, first, w, plan)
    ensures var lists := LiveLists(read.source);
            |plan.columns| == |lists|
            && forall k | 0 <= k < |lists| ::
                 && plan.columns[k].name == lists[k].name && plan.columns[k].boardId == plan.boardId
                 && plan.columns[k].position == (k + 1) as real * 1000.0
  {
    LiveListsAre(read.source);
    ListsAre(read.source.lists, first, w.columnsFrom, w.columns, w.columnIds, w.archived, w.logs.issues, w.logs.lists);
  }

  /** Of the lists that share an id the last one, in order. */
  ghost predicate LastWithId(lists: seq<TrelloList>, id: string, k: nat) {
    k < |lists| && lists[k].id == id && forall j | k < j < |lists| :: lists[j].id != id
  }

  lemma {:induction false} LastBearer(lists: seq<TrelloList>, first: nat, id: string, k: nat)
    requires LastWithId(lists, id, k)
    ensures id in ColumnIds(lists, first) && ColumnIds(lists, first)[id] == first + k
  {
    var before := lists[..|lists| - 1];
    if k < |before| {
      assert lists[|lists| - 1].id != id;
      assert forall j | k < j < |before| :: before[j] == lists[j];
      LastBearer(before, first, id, k);
    }
  }

  lemma {:induction false} SomeBearer(lists: seq<TrelloList>, id: string) returns (k: nat)
    requires exists l :: l in lists && l.id == id
    ensures LastWithId(lists, id, k)
  {
    var before, last := lists[..|lists| - 1], lists[|lists| - 1];
    if last.id == id {
      k := |lists| - 1;
    } else {
      PrefixMore(lists, |lists| - 1);
      k := SomeBearer(before, id);
    }
  }

  lemma {:induction false} BearersOnly(lists: seq<TrelloList>, first: nat, id: string)
    ensures id in ColumnIds(lists, first) <==> exists l :: l in lists && l.id == id
  {
    if lists != [] {
      BearersOnly(lists[..|lists| - 1], first, id);
      PrefixMore(lists, |lists| - 1);
      BeforeLast(lists);
    }
  }

  // ---- Cards ----

  /** An open card with a name whose list is the k-th column's: the last one bearing that id. */
  ghost predicate FiledUnder(lists: seq<TrelloList>, card: TrelloCard, k: nat) {
    && !card.closed && Trim(card.name) != ""
    && card.idList.Some? && LastWithId(lists, card.idList.value, k)
  }

  ghost function FiledIn(lists: seq<TrelloList>, k: nat): TrelloCard -> bool {
    (c: TrelloCard) => FiledUnder(lists, c, k)
  }

  lemma FiledIff(lists: seq<TrelloList>, first: nat, archived: set<string>, card: TrelloCard, k: nat)
    requires k < |lists|
    ensures CardFate(card, ColumnIds(lists, first), archived) == Kept(first + k) <==> FiledUnder(lists, card, k)
  {
    if card.idList.Some? {
      var id := card.idList.value;
      BearersOnly(lists, first, id);
      if exists l :: l in lists && l.id == id {
        var j := SomeBearer(lists, id);
        LastBearer(lists, first, id, j);
      }
    }
  }

  /** Some list that is neither closed nor without a name is the card's. */
  ghost predicate ListKnown(lists: seq<TrelloList>, card: TrelloCard) {
    exists l | l in lists :: !l.closed && Trim(l.name) != "" && card.idList == Some(l.id)
  }

  /** Why a card is left behind: it is closed, it has no name, or no list it could be filed under is left. */
  ghost function WhySkipped(source: Source, card: TrelloCard): Option<Reason> {
    if card.closed then Some(Archived)
    else if Trim(card.name) == "" then Some(Malformed)
    else if ListKnown(source.lists, card) then None
    else if exists l | l in source.lists :: l.closed && card.idList == Some(l.id) then Some(Archived)
    else Some(Malformed)
  }

  lemma LiveBearers(source: Source, id: string)
    ensures (exists l | l in LiveLists(source) :: l.id == id)
            <==> exists l | l in source.lists :: !l.closed && Trim(l.name) != "" && l.id == id
  {
    var live := (l: TrelloList) => !l.closed && Trim(l.name) != "";
    FilterIn(live, source.lists);
    SortPermutation(PosOrder(ListId, ListPos), Filter(live, source.lists));
    if l :| l in LiveLists(source) && l.id == id {
      assert l in Filter(live, source.lists);
    }
    if l :| l in source.lists && live(l) && l.id == id {
      assert l in Filter(live, source.lists);
    }
  }

  lemma KnownIff(source: Source, first: nat, card: TrelloCard)
    requires card.idList.Some?
    ensures card.idList.value in ColumnIds(LiveLists(source), first) <==> ListKnown(source.lists, card)
  {
    BearersOnly(LiveLists(source), first, card.idList.value);
    LiveBearers(source, card.idList.value);
  }

  lemma WhyIs(source: Source, first: nat, card: TrelloCard, archived: set<string>)
    requires archived == set l | l in source.lists && l.closed :: l.id
    ensures var fate := CardFate(card, ColumnIds(LiveLists(source), first), archived);
            if WhySkipped(source, card).Some? then fate == Dropped(WhySkipped(source, card).value) else fate.Kept?
  {
    if card.idList.Some? {
      KnownIff(source, first, card);
    }
  }

  // ---- What a task holds of its card ----

  ghost predicate LastLabelWithId(labels: seq<TrelloLabel>, id: string, j: nat) {
    j < |labels| && labels[j].id == id && forall i | j < i < |labels| :: labels[i].id != id
  }

  lemma {:induction false} LastLabelBearer(labels: seq<TrelloLabel>, first: nat, id: string, j: nat)
    requires LastLabelWithId(labels, id, j)
    ensures id in LabelIds(labels, first) && LabelIds(labels, first)[id] == first + j
  {
    var before := labels[..|labels| - 1];
    if j < |before| {
      assert labels[|labels| - 1].id != id;
      assert forall i | j < i < |before| :: before[i] == labels[i];
      LastLabelBearer(before, first, id, j);
    }
  }

  lemma {:induction false} LabelBearerOf(labels: seq<TrelloLabel>, first: nat, id: string) returns (j: nat)
    requires id in LabelIds(labels, first)
    ensures LastLabelWithId(labels, id, j)
  {
    var before, last := labels[..|labels| - 1], labels[|labels| - 1];
    if last.id == id {
      j := |labels| - 1;
    } else {
      j := LabelBearerOf(before, first, id);
    }
  }

  ghost predicate Carried(rows: seq<TaskLabelRow>, rowId: nat) {
    exists r | r in rows :: r.labelId == rowId
  }

  /** The card names the label of that row; a repeated label id means the last label with it. */
  ghost predicate LabelNamed(ids: seq<string>, source: Source, labels: seq<LabelRow>, rowId: nat) {
    exists j, id | 0 <= j < |labels| && id in ids :: labels[j].id == rowId && LastLabelWithId(source.labels, id, j)
  }

  /** The label rows of a task: those of the labels the card names, each once. */
  ghost predicate LabelsRead(rows: seq<TaskLabelRow>, ids: seq<string>, source: Source, labels: seq<LabelRow>) {
    && (forall i, j | 0 <= i < j < |rows| :: rows[i].labelId != rows[j].labelId)
    && |labels| == |source.labels|
    && forall rowId: nat :: Carried(rows, rowId) <==> LabelNamed(ids, source, labels, rowId)
  }

  lemma AttachedIff(ids: seq<string>, labelIds: map<string, nat>, rowId: nat)
    ensures rowId in AttachedOf(ids, labelIds) <==> exists id | id in ids :: id in labelIds && labelIds[id] == rowId
  {
    var known := Filter(Knows(labelIds), ids);
    FilterIn(Knows(labelIds), ids);
    DedupeIsFirstOccurrences(Map(LookUp(labelIds), known));
    if rowId in AttachedOf(ids, labelIds) {
      var k :| 0 <= k < |known| && Map(LookUp(labelIds), known)[k] == rowId;
      assert known[k] in known;
    }
    if id :| id in ids && id in labelIds && labelIds[id] == rowId {
      var k :| 0 <= k < |known| && known[k] == id;
      assert Map(LookUp(labelIds), known)[k] == rowId;
    }
  }

  lemma NamedIff(source: Source, labels: seq<LabelRow>, first: nat, ids: seq<string>, rowId: nat)
    requires |labels| == |source.labels| && forall j | 0 <= j < |labels| :: labels[j].id == first + j
    ensures rowId in AttachedOf(ids, LabelIds(source.labels, first)) <==> LabelNamed(ids, source, labels, rowId)
  {
    var labelIds := LabelIds(source.labels, first);
    AttachedIff(ids, labelIds, rowId);
    if id :| id in ids && id in labelIds && labelIds[id] == rowId {
      var j := LabelBearerOf(source.labels, first, id);
      LastLabelBearer(source.labels, first, id, j);
      assert labels[j].id == rowId;
    }
    if j, id :| 0 <= j < |labels| && id in ids && labels[j].id == rowId && LastLabelWithId(source.labels, id, j) {
      LastLabelBearer(source.labels, first, id, j);
    }
  }

  lemma RowsCarry(attached: seq<nat>, taskId: nat, rowId: nat)
    ensures Carried(TaskLabelRows(attached, taskId, taskId + 1), rowId) <==> rowId in attached
  {
    var rows := TaskLabelRows(attached, taskId, taskId + 1);
    if rowId in attached {
      var k :| 0 <= k < |attached| && attached[k] == rowId;
      assert rows[k] in rows;
    }
    if r :| r in rows && r.labelId == rowId {
      var k :| 0 <= k < |rows| && rows[k] == r;
    }
  }

  lemma LabelsReadHold(card: TrelloCard, source: Source, labels: seq<LabelRow>, first: nat, taskId: nat)
    requires |labels| == |source.labels| && forall j | 0 <= j < |labels| :: labels[j].id == first + j
    ensures LabelsRead(TaskLabelRows(Attached(card, LabelIds(source.labels, first)), taskId, taskId + 1), card.idLabels,
                       source, labels)
  {
    var attached := Attached(card, LabelIds(source.labels, first));
    AttachedFacts(card, LabelIds(source.labels, first));
    forall rowId: nat ensures Carried(TaskLabelRows(attached, taskId, taskId + 1), rowId)
                              <==> LabelNamed(card.idLabels, source, labels, rowId)
    {
      RowsCarry(attached, taskId, rowId);
      NamedIff(source, labels, first, card.idLabels, rowId);
    }
  }

  /**
    The links of a task: the card's attachments with a storable URL, in order, named after it when
    they have no name.
  */
  ghost predicate LinksRead(rows: seq<AttachmentRow>, attachments: seq<TrelloAttachment>, parsers: Parsers) {
    var kept := Filter((a: TrelloAttachment) => parsers.classifyUrl(a.url).Storable?, attachments);
    && |rows| == |kept|
    && forall i | 0 <= i < |rows| ::
         && parsers.classifyUrl(kept[i].url) == Storable(rows[i].url)
         && rows[i].filename == if Trim(kept[i].name) == "" then rows[i].url else kept[i].name
  }

  lemma {:induction false} StorablesRead(attachments: seq<TrelloAttachment>, parsers: Parsers)
    ensures var kept := Filter((a: TrelloAttachment) => parsers.classifyUrl(a.url).Storable?, attachments);
            var stored := Storables(attachments, parsers);
            && |stored| == |kept|
            && forall i | 0 <= i < |stored| ::
                 && parsers.classifyUrl(kept[i].url) == Storable(stored[i].1)
                 && stored[i].0 == if Trim(kept[i].name) == "" then stored[i].1 else kept[i].name
  {
    if attachments != [] {
      StorablesRead(attachments[..|attachments| - 1], parsers);
    }
  }

  lemma LinksReadHold(attachments: seq<TrelloAttachment>, parsers: Parsers, taskId: nat, first: nat)
    ensures LinksRead(AttachmentRows(Storables(attachments, parsers), taskId, first), attachments, parsers)
  {
    StorablesRead(attachments, parsers);
  }

  /** A task reads its card: texts, due date, labels and links. */
  ghost predicate TaskReads(t: TaskRow, card: TrelloCard, source: Source, parsers: Parsers, plan: Plan) {
    && t.boardId == plan.boardId && t.title == card.name
    && t.description == (if card.desc.Some? && Trim(card.desc.value) != "" then card.desc else None)
    && t.dueDate == (if card.due.Some? then parsers.parseDueDate(card.due.value) else None)
    && LabelsRead(Filter((r: TaskLabelRow) => r.taskId == t.id, plan.taskLabels), card.idLabels, source, plan.labels)
    && LinksRead(Filter((a: AttachmentRow) => a.taskId == t.id, plan.attachments), card.attachments, parsers)
  }

  lemma LabelRowsAre(labels: seq<TrelloLabel>, parsers: Parsers, boardId: nat, from: nat, rows: seq<LabelRow>,
                     labelIds: map<string, nat>, log: seq<Event>, log': seq<Event>)
    requires LabelsPlanned(labels, parsers, boardId, from, rows, labelIds, log, log')
    ensures |rows| == |labels| && labelIds == LabelIds(labels, from)
    ensures forall j | 0 <= j < |rows| :: rows[j] == LabelRowOf(labels[j], parsers, boardId, from + j)
  {
    assert Unfolded(0);
  }

  /** Every label becomes a row: named by itself, else by its colour, else "Label", and coloured by the table. */
  lemma LabelsAre(read: ReadResult, parsers: Parsers, first: nat, w: Work, plan: Plan)
    requires Planned(read, parsers, first, w, plan)
    ensures var labels := read.source.labels;
            |plan.labels| == |labels|
            && forall j | 0 <= j < |labels| ::
                 && plan.labels[j].boardId == plan.boardId
                     && plan.labels[j].color == parsers.colorToSlot(labels[j].color).0
                 && plan.labels[j].name
                    == if Trim(labels[j].name) != "" then labels[j].name
                       else if labels[j].color.Some? && Trim(labels[j].color.value) != ""
                         then Trim(labels[j].color.value)
                       else "Label"
  {
    LabelRowsAre(read.source.labels, parsers, first, w.labelsFrom, w.labels, w.setting.labelIds, w.logs.lists,
                 w.logs.labels);
  }

  /** The board itself. */
  lemma BoardIs(read: ReadResult, parsers: Parsers, first: nat, w: Work, plan: Plan)
    requires Planned(read, parsers, first, w, plan)
    ensures plan.boardName == if Trim(read.source.name) != "" then read.source.name else "Imported board"
    ensures plan.description
            == if read.source.desc.Some? && Trim(read.source.desc.value) != "" then read.source.desc else None
  {
  }

  lemma RowsRead(t: TaskRow, card: TrelloCard, source: Source, parsers: Parsers, plan: Plan, s: Setting, first: nat)
    requires TaskOfCard(t, card, plan, s) && t.boardId == plan.boardId && s.parsers == parsers
    requires s.labelIds == LabelIds(source.labels, first)
    requires |plan.labels| == |source.labels| && forall j | 0 <= j < |plan.labels| :: plan.labels[j].id == first + j
    ensures TaskReads(t, card, source, parsers, plan)
  {
    var labels, stored := Attached(card, s.labelIds), Storables(card.attachments, parsers);
    FilterAgree(LabelsOfTask(t.id), (r: TaskLabelRow) => r.taskId == t.id, plan.taskLabels);
    FilterAgree(AttachmentsOfTask(t.id), (a: AttachmentRow) => a.taskId == t.id, plan.attachments);
    LabelsReadHold(card, source, plan.labels, first, t.id);
    LinksReadHold(card.attachments, parsers, t.id, t.id + 1 + |labels|);
  }

  lemma FiledAgree(cards: seq<TrelloCard>, lists: seq<TrelloList>, from: nat, archived: set<string>, k: nat,
                   column: ColumnRow)
    requires k < |lists| && column.id == from + k
    ensures Filter(CardInColumn(column, ColumnIds(lists, from), archived), cards) == Filter(FiledIn(lists, k), cards)
  {
    forall c | c in cards ensures CardInColumn(column, ColumnIds(lists, from), archived)(c) == FiledIn(lists, k)(c) {
      FiledIff(lists, from, archived, c, k);
    }
    FilterAgree(CardInColumn(column, ColumnIds(lists, from), archived), FiledIn(lists, k), cards);
  }

  lemma OfBoard(read: ReadResult, parsers: Parsers, first: nat, w: Work, plan: Plan)
    requires Planned(read, parsers, first, w, plan)
    ensures forall t | t in plan.tasks :: t.boardId == plan.boardId
  {
    TasksResult(w.columns, w.cards, w.setting, w.tasksFrom, w.ts, w.placed, w.logs.cards, w.logs.tasks);
  }

  /**
    The tasks of the k-th column are the cards filed under the k-th list: all of them, in order, a gap
    apart, each reading its card.
  */
  lemma TasksOfColumn(read: ReadResult, parsers: Parsers, first: nat, w: Work, plan: Plan, k: nat)
    requires Planned(read, parsers, first, w, plan) && k < |plan.columns|
    ensures |plan.columns| == |LiveLists(read.source)|
    ensures var cards := OrderedByPos(CardId, CardPos, Filter(FiledIn(LiveLists(read.source), k), read.source.cards));
            var tasks := Filter((t: TaskRow) => t.columnId == plan.columns[k].id, plan.tasks);
            |tasks| == |cards|
            && forall i | 0 <= i < |tasks| ::
                 && TaskReads(tasks[i], cards[i], read.source, parsers, plan)
                 && tasks[i].position == (i + 1) as real * 1000.0
  {
    var column := plan.columns[k];
    LiveListsAre(read.source);
    ListsAre(read.source.lists, first, w.columnsFrom, w.columns, w.columnIds, w.archived, w.logs.issues, w.logs.lists);
    FiledAgree(read.source.cards, LiveLists(read.source), w.columnsFrom, w.archived, k, column);
    ColumnsHoldTheirCards(read, parsers, first, w, plan, column);
    FilterAgree(TaskOfColumn(column.id), (t: TaskRow) => t.columnId == plan.columns[k].id, plan.tasks);
    FilterIn(TaskOfColumn(column.id), plan.tasks);
    TasksRead(read, parsers, first, w, plan, Filter(TaskOfColumn(column.id), plan.tasks),
              OrderedByPos(CardId, CardPos, Filter(FiledIn(LiveLists(read.source), k), read.source.cards)));
  }

  lemma TasksRead(read: ReadResult, parsers: Parsers, first: nat, w: Work, plan: Plan, tasks: seq<TaskRow>,
                  cards: seq<TrelloCard>)
    requires Planned(read, parsers, first, w, plan) && |tasks| == |cards|
    requires forall t | t in tasks :: t in plan.tasks
    requires forall i | 0 <= i < |tasks| :: TaskOfCard(tasks[i], cards[i], plan, w.setting)
    ensures forall i | 0 <= i < |tasks| :: TaskReads(tasks[i], cards[i], read.source, parsers, plan)
  {
    OfBoard(read, parsers, first, w, plan);
    LabelRowsAre(read.source.labels, parsers, first, w.labelsFrom, w.labels, w.setting.labelIds, w.logs.lists,
                 w.logs.labels);
    forall i | 0 <= i < |tasks| ensures TaskReads(tasks[i], cards[i], read.source, parsers, plan) {
      assert tasks[i] in tasks;
      RowsRead(tasks[i], cards[i], read.source, parsers, plan, w.setting, w.labelsFrom);
    }
  }

  // ---- The cards that became tasks ----

  /** Cards in the order of their tasks: list by list, each list's in order. */
  ghost function LandedUpTo(lists: seq<TrelloList>, cards: seq<TrelloCard>, n: nat): seq<TrelloCard> {
    if n == 0 then []
    else LandedUpTo(lists, cards, n - 1) + OrderedByPos(CardId, CardPos, Filter(FiledIn(lists, n - 1), cards))
  }

  ghost function Landed(source: Source): seq<TrelloCard> {
    LandedUpTo(LiveLists(source), source.cards, |LiveLists(source)|)
  }

  function CardOf(p: Placed): TrelloCard { p.card }

  lemma CardsOfPlaced(cards: seq<TrelloCard>, columnId: nat)
    ensures Map(CardOf, PlacedIn(cards, columnId)) == cards
  {
  }

  lemma {:induction false} PlacedAreLanded(columns: seq<ColumnRow>, lists: seq<TrelloList>, cards: seq<TrelloCard>,
                                           from: nat, archived: set<string>)
    requires |columns| <= |lists| && forall k | 0 <= k < |columns| :: columns[k].id == from + k
    ensures Map(CardOf, PlacedCards(columns, CardBuckets(cards, ColumnIds(lists, from), archived)))
            == LandedUpTo(lists, cards, |columns|)
  {
    if columns != [] {
      var before, column := columns[..|columns| - 1], columns[|columns| - 1];
      var buckets := CardBuckets(cards, ColumnIds(lists, from), archived);
      PlacedAreLanded(before, lists, cards, from, archived);
      CardBucketHolds(cards, ColumnIds(lists, from), archived, column.id);
      FiledAgree(cards, lists, from, archived, |before|, column);
      var sorted := OrderedByPos(CardId, CardPos, Filter(FiledIn(lists, |before|), cards));
      MapAppend(CardOf, PlacedCards(before, buckets), PlacedIn(sorted, column.id));
      CardsOfPlaced(sorted, column.id);
    }
  }

  lemma CardsAre(cards: seq<TrelloCard>, columnIds: map<string, nat>, archived: set<string>,
                 reasons: map<string, Reason>, buckets: map<nat, seq<TrelloCard>>, log: seq<Event>, log': seq<Event>)
    requires CardsPlanned(cards, columnIds, archived, reasons, buckets, log, log')
    ensures reasons == SkippedReasons(cards, columnIds, archived) && buckets == CardBuckets(cards, columnIds, archived)
    ensures log' == log + CardSkips(cards, columnIds, archived)
  {
    assert Unfolded(0);
  }

  lemma PlacedCardsAre(read: ReadResult, parsers: Parsers, first: nat, w: Work, plan: Plan)
    requires Planned(read, parsers, first, w, plan)
    ensures w.placed == PlacedCards(w.columns, w.cards) && Map(CardOf, w.placed) == Landed(read.source)
    ensures w.cards == CardBuckets(read.source.cards, w.columnIds, w.archived)
    ensures w.ts == AddTasks(w.tasksFrom, w.placed, w.setting)
  {
    LiveListsAre(read.source);
    ListsAre(read.source.lists, first, w.columnsFrom, w.columns, w.columnIds, w.archived, w.logs.issues, w.logs.lists);
    CardsAre(read.source.cards, w.columnIds, w.archived, w.reasons, w.cards, w.logs.labels, w.logs.cards);
    TasksOfPlaced(w.columns, w.cards, w.setting, w.tasksFrom, w.ts, w.placed, w.logs.cards, w.logs.tasks);
    PlacedAreLanded(w.columns, LiveLists(read.source), read.source.cards, w.columnsFrom, w.archived);
  }

  lemma TasksOfPlaced(columns: seq<ColumnRow>, buckets: map<nat, seq<TrelloCard>>, s: Setting, from: nat, st: TaskState,
                      placed: seq<Placed>, log: seq<Event>, log': seq<Event>)
    requires TasksPlanned(columns, buckets, s, from, st, placed, log, log')
    ensures placed == PlacedCards(columns, buckets) && st == AddTasks(from, placed, s)
  {
    assert Unfolded(0);
  }

  /** The i-th task reads the i-th card that landed. */
  lemma TasksAreCards(read: ReadResult, parsers: Parsers, first: nat, w: Work, plan: Plan)
    requires Planned(read, parsers, first, w, plan)
    ensures var cards := Landed(read.source);
            |plan.tasks| == |cards|
            && forall i | 0 <= i < |cards| :: TaskReads(plan.tasks[i], cards[i], read.source, parsers, plan)
  {
    PlacedCardsAre(read, parsers, first, w, plan);
    TasksAre(w.columns, w.cards, w.setting, w.tasksFrom, w.ts, w.placed, w.logs.cards, w.logs.tasks);
    var cards := Landed(read.source);
    forall i | 0 <= i < |cards| ensures TaskOfCard(plan.tasks[i], cards[i], plan, w.setting) {
      assert cards[i] == w.placed[i].card;
    }
    TasksRead(read, parsers, first, w, plan, plan.tasks, cards);
  }

  // ---- Checklists ----

  /** Of the cards that share an id the last one. */
  ghost predicate LastCardWithId(cards: seq<TrelloCard>, id: string, i: nat) {
    i < |cards| && cards[i].id == id && forall j | i < j < |cards| :: cards[j].id != id
  }

  lemma {:induction false} TaskIdAt(first: nat, placed: seq<Placed>, s: Setting, id: string, i: nat)
    requires LastCardWithId(Map(CardOf, placed), id, i)
    ensures var st := AddTasks(first, placed, s);
            i < |st.tasks| && id in st.taskIdByTrelloCardId && st.taskIdByTrelloCardId[id] == st.tasks[i].id
  {
    var before, last := placed[..|placed| - 1], placed[|placed| - 1];
    TaskShapes(first, before, s);
    if i < |before| {
      assert Map(CardOf, placed)[|placed| - 1].id != id;
      assert forall j | 0 <= j < |before| :: Map(CardOf, before)[j] == Map(CardOf, placed)[j];
      TaskIdAt(first, before, s, id, i);
    }
  }

  lemma {:induction false} LastCard(cards: seq<TrelloCard>, id: string) returns (i: nat)
    requires exists c :: c in cards && c.id == id
    ensures LastCardWithId(cards, id, i)
  {
    var before, last := cards[..|cards| - 1], cards[|cards| - 1];
    if last.id == id {
      i := |cards| - 1;
    } else {
      PrefixMore(cards, |cards| - 1);
      i := LastCard(before, id);
    }
  }

  /** A checklist with a name and lines whose card is the one of the i-th task. */
  ghost predicate HangsOn(cards: seq<TrelloCard>, c: TrelloChecklist, i: nat) {
    c.idCard.Some? && LastCardWithId(cards, c.idCard.value, i) && Trim(c.name) != "" && c.checkItems != []
  }

  ghost function HangingOn(cards: seq<TrelloCard>, i: nat): TrelloChecklist -> bool {
    (c: TrelloChecklist) => HangsOn(cards, c, i)
  }

  lemma HangsIff(first: nat, placed: seq<Placed>, s: Setting, reasons: map<string, Reason>, c: TrelloChecklist, i: nat)
    requires i < |placed| && Distinct(Map(TaskId, AddTasks(first, placed, s).tasks))
    ensures var st := AddTasks(first, placed, s);
            |st.tasks| == |placed|
            && (ChecklistFate(c, st.taskIdByTrelloCardId, reasons) == Kept(st.tasks[i].id)
                <==> HangsOn(Map(CardOf, placed), c, i))
  {
    var st, cards := AddTasks(first, placed, s), Map(CardOf, placed);
    TaskShapes(first, placed, s);
    if c.idCard.Some? {
      var id := c.idCard.value;
      if LastCardWithId(cards, id, i) {
        TaskIdAt(first, placed, s, id, i);
      }
      if id in st.taskIdByTrelloCardId {
        var j := TaskCardOf(first, placed, s, id);
        TaskIdAt(first, placed, s, id, j);
        assert Map(TaskId, st.tasks)[i] == Map(TaskId, st.tasks)[j] ==> i == j;
      }
    }
  }

  lemma TaskCardOf(first: nat, placed: seq<Placed>, s: Setting, id: string) returns (j: nat)
    requires id in AddTasks(first, placed, s).taskIdByTrelloCardId
    ensures LastCardWithId(Map(CardOf, placed), id, j)
  {
    TaskIdKeys(first, placed, s, id);
    var p :| p in placed && p.card.id == id;
    var k :| 0 <= k < |placed| && placed[k] == p;
    assert Map(CardOf, placed)[k] == p.card;
    j := LastCard(Map(CardOf, placed), id);
  }

  /** The item rows of a checklist: its lines with a name, in order, a gap apart, done when Trello says complete. */
  ghost predicate ItemsRead(rows: seq<ItemRow>, checklist: TrelloChecklist) {
    var lines := Filter((x: TrelloCheckItem) => Trim(x.name) != "",
                        OrderedByPos(ItemId, ItemPos, checklist.checkItems));
    && |rows| == |lines|
    && forall i | 0 <= i < |rows| ::
         && rows[i].content == lines[i].name && (rows[i].isDone <==> lines[i].state == Some("complete"))
         && rows[i].position == (i + 1) as real * 1000.0
  }

  lemma ItemsReadHold(st: ListState, h: Hung, id: nat)
    requires Block(st, h, id)
    ensures ItemsRead(Filter((x: ItemRow) => x.checklistId == id, st.checklistItems), h.checklist)
  {
    FilterAgree(OfChecklist(id), (x: ItemRow) => x.checklistId == id, st.checklistItems);
    FilterAgree(NamedItem, (x: TrelloCheckItem) => Trim(x.name) != "",
                OrderedByPos(ItemId, ItemPos, h.checklist.checkItems));
  }

  ghost function RowHangs(st: ListState): (ChecklistRow, Hung) -> bool {
    (c: ChecklistRow, h: Hung) => ListFollows(c, h) && Block(st, h, c.id)
  }

  lemma RowsHang(st: ListState, hung: seq<Hung>, from: nat, rows: seq<ChecklistRow>, lists: seq<TrelloChecklist>,
                 taskId: nat)
    requires st == AddLists(from, hung) && |st.checklists| == |hung|
    requires forall k | 0 <= k < |hung| :: ListFollows(st.checklists[k], hung[k])
    requires rows == Filter(ListOfTask(taskId), st.checklists) && Filter(OnTask(taskId), hung) == HungOn(lists, taskId)
    ensures |rows| == |lists|
    ensures forall k | 0 <= k < |rows| ::
              && rows[k].title == lists[k].name && rows[k].position == (k + 1) as real * 1000.0
              && ItemsRead(Filter((x: ItemRow) => x.checklistId == rows[k].id, st.checklistItems), lists[k])
  {
    ItemBlocks(from, hung);
    FilterPairs(ListOfTask(taskId), OnTask(taskId), RowHangs(st), st.checklists, hung);
    forall k | 0 <= k < |rows|
      ensures ItemsRead(Filter((x: ItemRow) => x.checklistId == rows[k].id, st.checklistItems), lists[k])
    {
      assert RowHangs(st)(rows[k], HungOn(lists, taskId)[k]);
      ItemsReadHold(st, HungOn(lists, taskId)[k], rows[k].id);
    }
  }

  /** The checklists of the i-th task: all that hang on its card, in order, a gap apart, with their named lines. */
  lemma ChecklistsOfTask(read: ReadResult, parsers: Parsers, first: nat, w: Work, plan: Plan, i: nat)
    requires Planned(read, parsers, first, w, plan) && i < |plan.tasks|
    ensures var rows := Filter((c: ChecklistRow) => c.taskId == plan.tasks[i].id, plan.checklists);
            var lists := OrderedByPos(ChecklistId, ChecklistPos,
                                      Filter(HangingOn(Landed(read.source), i), read.source.checklists));
            |rows| == |lists|
            && forall k | 0 <= k < |rows| ::
                 && rows[k].title == lists[k].name && rows[k].position == (k + 1) as real * 1000.0
                 && ItemsRead(Filter((x: ItemRow) => x.checklistId == rows[k].id, plan.checklistItems), lists[k])
  {
    var task := plan.tasks[i];
    HungOnTask(read, parsers, first, w, plan, task);
    HangingAgree(read, parsers, first, w, plan, i);
    ListRowsAre(w.ts.tasks, w.lists, w.ts.next, w.ls, w.hung, w.logs.checklists, w.logs.items);
    FilterAgree(ListOfTask(task.id), (c: ChecklistRow) => c.taskId == plan.tasks[i].id, plan.checklists);
    RowsHang(w.ls, w.hung, w.ts.next, Filter(ListOfTask(task.id), plan.checklists),
             OrderedByPos(ChecklistId, ChecklistPos,
                          Filter(HangingOn(Landed(read.source), i), read.source.checklists)), task.id);
  }

  lemma HangingAgree(read: ReadResult, parsers: Parsers, first: nat, w: Work, plan: Plan, i: nat)
    requires Planned(read, parsers, first, w, plan) && i < |plan.tasks|
    ensures Filter(HangsOff(plan.tasks[i].id, w.ts.taskIdByTrelloCardId, w.reasons), read.source.checklists)
            == Filter(HangingOn(Landed(read.source), i), read.source.checklists)
  {
    PlacedCardsAre(read, parsers, first, w, plan);
    TasksIssued(read, parsers, first, w, plan);
    TaskIdsDistinct(w.ts, w.tasksFrom);
    TaskShapes(w.tasksFrom, w.placed, w.setting);
    var p := HangsOff(plan.tasks[i].id, w.ts.taskIdByTrelloCardId, w.reasons);
    forall c | c in read.source.checklists ensures p(c) == HangingOn(Landed(read.source), i)(c) {
      HangsIff(w.tasksFrom, w.placed, w.setting, w.reasons, c, i);
    }
    FilterAgree(p, HangingOn(Landed(read.source), i), read.source.checklists);
  }

  // ---- The report, by scope and reason ----

  /** The report counts n entries of a scope under a reason, and has no such group when there are none. */
  ghost predicate Reports(groups: seq<Group>, scope: Scope, reason: Reason, n: nat) {
    && (n > 0 <==> exists g | g in groups :: g.scope == scope && g.reason == reason)
    && forall g | g in groups && g.scope == scope && g.reason == reason :: g.count == n
  }

  lemma ReportCounts(log: seq<Event>, scope: Scope, reason: Reason)
    ensures Reports(Report(log), scope, reason, Items(log, scope, reason))
  {
    ReportFacts(log);
  }

  lemma ItemsAppend(a: seq<Event>, b: seq<Event>, scope: Scope, reason: Reason)
    ensures Items(a + b, scope, reason) == Items(a, scope, reason) + Items(b, scope, reason)
  {
    SumAppend(ItemsFor(scope, reason), a, b);
  }

  lemma ItemsOne(e: Event, scope: Scope, reason: Reason)
    ensures Items([e], scope, reason) == if e.scope == scope && e.reason == reason && e.count > 0 then e.count else 0
  {
    SumMore(ItemsFor(scope, reason), [], e);
    assert [] + [e] == [e];
  }

  lemma {:induction false} ItemsWithin(log: seq<Event>, scope: Scope, reason: Reason)
    ensures Items(log, scope, reason) <= Total(log, scope)
  {
    if log != [] {
      ItemsWithin(log[..|log| - 1], scope, reason);
    }
  }

  /** A phase that adds nothing under a scope adds nothing under any of its reasons. */
  lemma QuietPhase(log: seq<Event>, log': seq<Event>, scope: Scope, reason: Reason)
    requires log <= log' && Total(log', scope) == Total(log, scope)
    ensures Items(log', scope, reason) == Items(log, scope, reason)
  {
    var more := log'[|log|..];
    assert log' == log + more;
    TotalAppend(log, more, scope);
    ItemsAppend(log, more, scope, reason);
    ItemsWithin(more, scope, reason);
  }

  lemma {:induction false} IssueItems(issues: seq<Issue>, scope: Scope, reason: Reason)
    ensures Items(IssueEvents(issues), scope, reason)
            == |Filter((i: Issue) => i.scope == scope && i.reason == reason, issues)|
  {
    if issues != [] {
      var before, i := issues[..|issues| - 1], issues[|issues| - 1];
      IssueItems(before, scope, reason);
      ItemsAppend(IssueEvents(before), [Event(i.scope, i.reason, 1, SampleOf(i.sample))], scope, reason);
      ItemsOne(Event(i.scope, i.reason, 1, SampleOf(i.sample)), scope, reason);
    }
  }

  lemma {:induction false} CardItems(cards: seq<TrelloCard>, source: Source, first: nat, archived: set<string>,
                                     reason: Reason)
    requires archived == set l | l in source.lists && l.closed :: l.id
    ensures Items(CardSkips(cards, ColumnIds(LiveLists(source), first), archived), CardScope, reason)
            == |Filter((c: TrelloCard) => WhySkipped(source, c) == Some(reason), cards)|
  {
    if cards != [] {
      var before, c := cards[..|cards| - 1], cards[|cards| - 1];
      var columnIds := ColumnIds(LiveLists(source), first);
      CardItems(before, source, first, archived, reason);
      WhyIs(source, first, c, archived);
      ItemsAppend(CardSkips(before, columnIds, archived), CardSkip(c, columnIds, archived), CardScope, reason);
      if WhySkipped(source, c).Some? {
        ItemsOne(CardSkip(c, columnIds, archived)[0], CardScope, reason);
      }
    }
  }

  ghost function WhyListSkipped(l: TrelloList): Option<Reason> {
    if l.closed then Some(Archived) else if Trim(l.name) == "" then Some(Malformed) else None
  }

  lemma {:induction false} ListItems(lists: seq<TrelloList>, reason: Reason)
    ensures Items(ListSkips(lists), ListScope, reason)
            == |Filter((l: TrelloList) => WhyListSkipped(l) == Some(reason), lists)|
  {
    if lists != [] {
      var before, l := lists[..|lists| - 1], lists[|lists| - 1];
      ListItems(before, reason);
      ItemsAppend(ListSkips(before), ListSkip(l), ListScope, reason);
      if WhyListSkipped(l).Some? {
        ItemsOne(ListSkip(l)[0], ListScope, reason);
      }
    }
  }

  lemma LogsOfLists(lists: seq<TrelloList>, boardId: nat, from: nat, columns: seq<ColumnRow>,
                    columnIds: map<string, nat>, archived: set<string>, log: seq<Event>, log': seq<Event>,
                    reason: Reason)
    requires ListsPlanned(lists, boardId, from, columns, columnIds, archived, log, log')
    ensures log <= log'
    ensures Items(log', ListScope, reason) == Items(log, ListScope, reason) + Items(ListSkips(lists), ListScope, reason)
    ensures Items(log', ColumnScope, reason)
            == Items(log, ColumnScope, reason) + if reason == Defaulted then |columns| else 0
  {
    assert Unfolded(0);
    var event := Event(ColumnScope, Defaulted, |columns|, Map(NameSample, columns));
    ItemsAppend(log + ListSkips(lists), [event], ListScope, reason);
    ItemsAppend(log, ListSkips(lists), ListScope, reason);
    ItemsOne(event, ListScope, reason);
    ItemsAppend(log + ListSkips(lists), [event], ColumnScope, reason);
    ItemsAppend(log, ListSkips(lists), ColumnScope, reason);
    ItemsOne(event, ColumnScope, reason);
    ListSkipsCounted(lists, ColumnScope);
    ItemsWithin(ListSkips(lists), ColumnScope, reason);
  }

  lemma LogsOfLabels(labels: seq<TrelloLabel>, parsers: Parsers, boardId: nat, from: nat, rows: seq<LabelRow>,
                     labelIds: map<string, nat>, log: seq<Event>, log': seq<Event>)
    requires LabelsPlanned(labels, parsers, boardId, from, rows, labelIds, log, log')
    ensures log' == log + LabelSkips(labels, parsers)
  {
    assert Unfolded(0);
  }

  lemma LogsOfTasks(columns: seq<ColumnRow>, buckets: map<nat, seq<TrelloCard>>, s: Setting, from: nat, st: TaskState,
                    placed: seq<Placed>, log: seq<Event>, log': seq<Event>)
    requires TasksPlanned(columns, buckets, s, from, st, placed, log, log')
    ensures log' == log + TaskSkips(placed, s)
  {
    assert Unfolded(0);
  }

  lemma LogsOfChecklists(cs: seq<TrelloChecklist>, taskIds: map<string, nat>, reasons: map<string, Reason>,
                         buckets: map<nat, seq<TrelloChecklist>>, log: seq<Event>, log': seq<Event>)
    requires ChecklistsPlanned(cs, taskIds, reasons, buckets, log, log')
    ensures log' == log + ChecklistSkips(cs, taskIds, reasons)
  {
    assert Unfolded(0);
  }

  lemma LogsOfItems(tasks: seq<TaskRow>, buckets: map<nat, seq<TrelloChecklist>>, from: nat, st: ListState,
                    hung: seq<Hung>, log: seq<Event>, log': seq<Event>)
    requires ListRowsPlanned(tasks, buckets, from, st, hung, log, log')
    ensures log <= log'
  {
    assert Unfolded(0);
  }

  lemma LogsOfIssues(issues: seq<Issue>, log: seq<Event>, scope: Scope, reason: Reason)
    requires IssuesReported(issues, [], log)
    ensures Items(log, scope, reason) == |Filter((i: Issue) => i.scope == scope && i.reason == reason, issues)|
  {
    assert Unfolded(0);
    assert log == IssueEvents(issues);
    IssueItems(issues, scope, reason);
  }

  /** Each phase reports under its own scopes only. */
  lemma OtherPhasesQuiet(read: ReadResult, parsers: Parsers, first: nat, w: Work, plan: Plan, scope: Scope,
                         reason: Reason)
    requires Planned(read, parsers, first, w, plan)
    ensures scope != ListScope && scope != ColumnScope ==>
              Items(w.logs.lists, scope, reason) == Items(w.logs.issues, scope, reason)
    ensures scope != LabelScope ==> Items(w.logs.labels, scope, reason) == Items(w.logs.lists, scope, reason)
    ensures scope != CardScope ==> Items(w.logs.cards, scope, reason) == Items(w.logs.labels, scope, reason)
    ensures scope != LabelScope && scope != AttachmentScope ==>
              Items(w.logs.tasks, scope, reason) == Items(w.logs.cards, scope, reason)
    ensures scope != ChecklistScope ==> Items(w.logs.checklists, scope, reason) == Items(w.logs.tasks, scope, reason)
    ensures scope != ChecklistItemScope ==>
              Items(w.logs.items, scope, reason) == Items(w.logs.checklists, scope, reason)
  {
    QuietFirst(read, parsers, first, w, plan, scope, reason);
    QuietLast(read, parsers, first, w, plan, scope, reason);
  }

  lemma QuietFirst(read: ReadResult, parsers: Parsers, first: nat, w: Work, plan: Plan, scope: Scope, reason: Reason)
    requires Planned(read, parsers, first, w, plan)
    ensures scope != ListScope && scope != ColumnScope ==>
              Items(w.logs.lists, scope, reason) == Items(w.logs.issues, scope, reason)
    ensures scope != LabelScope ==> Items(w.logs.labels, scope, reason) == Items(w.logs.lists, scope, reason)
    ensures scope != CardScope ==> Items(w.logs.cards, scope, reason) == Items(w.logs.labels, scope, reason)
  {
    LogsOfLists(read.source.lists, first, w.columnsFrom, w.columns, w.columnIds, w.archived, w.logs.issues,
                w.logs.lists, reason);
    LogsOfLabels(read.source.labels, parsers, first, w.labelsFrom, w.labels, w.setting.labelIds, w.logs.lists,
                 w.logs.labels);
    CardsAre(read.source.cards, w.columnIds, w.archived, w.reasons, w.cards, w.logs.labels, w.logs.cards);
    if scope != ListScope && scope != ColumnScope {
      ListsSkipped(read, parsers, first, w, plan, scope);
      QuietPhase(w.logs.issues, w.logs.lists, scope, reason);
    }
    if scope != LabelScope {
      LabelsSkipped(read, parsers, first, w, plan, scope);
      QuietPhase(w.logs.lists, w.logs.labels, scope, reason);
    }
    if scope != CardScope {
      CardsSkipped(read, parsers, first, w, plan, scope);
      QuietPhase(w.logs.labels, w.logs.cards, scope, reason);
    }
  }

  lemma QuietLast(read: ReadResult, parsers: Parsers, first: nat, w: Work, plan: Plan, scope: Scope, reason: Reason)
    requires Planned(read, parsers, first, w, plan)
    ensures scope != LabelScope && scope != AttachmentScope ==>
              Items(w.logs.tasks, scope, reason) == Items(w.logs.cards, scope, reason)
    ensures scope != ChecklistScope ==> Items(w.logs.checklists, scope, reason) == Items(w.logs.tasks, scope, reason)
    ensures scope != ChecklistItemScope ==>
              Items(w.logs.items, scope, reason) == Items(w.logs.checklists, scope, reason)
  {
    LogsOfTasks(w.columns, w.cards, w.setting, w.tasksFrom, w.ts, w.placed, w.logs.cards, w.logs.tasks);
    LogsOfChecklists(read.source.checklists, w.ts.taskIdByTrelloCardId, w.reasons, w.lists, w.logs.tasks,
                     w.logs.checklists);
    LogsOfItems(w.ts.tasks, w.lists, w.ts.next, w.ls, w.hung, w.logs.checklists, w.logs.items);
    if scope != LabelScope && scope != AttachmentScope {
      TasksSkipped(read, parsers, first, w, plan, scope);
      QuietPhase(w.logs.cards, w.logs.tasks, scope, reason);
    }
    if scope != ChecklistScope {
      ChecklistsSkipped(read, parsers, first, w, plan, scope);
      QuietPhase(w.logs.tasks, w.logs.checklists, scope, reason);
    }
    if scope != ChecklistItemScope {
      ItemsSkipped(read, parsers, first, w, plan, scope);
      QuietPhase(w.logs.checklists, w.logs.items, scope, reason);
    }
  }

  lemma PlanReports(read: ReadResult, parsers: Parsers, first: nat, w: Work, plan: Plan, scope: Scope, reason: Reason)
    requires Planned(read, parsers, first, w, plan) && scope != MemberScope && scope != CommentScope
    ensures Reports(plan.skipped, scope, reason, Items(w.logs.items, scope, reason))
  {
    var log := w.logs.items + CountedOnly(read.source);
    CountedOnlyScopes(read.source, scope);
    ItemsAppend(w.logs.items, CountedOnly(read.source), scope, reason);
    ItemsWithin(CountedOnly(read.source), scope, reason);
    ReportCounts(log, scope, reason);
  }

  /** How many unreadable entries the reader reported. */
  ghost function IssuesUnder(read: ReadResult, scope: Scope, reason: Reason): nat {
    |Filter((i: Issue) => i.scope == scope && i.reason == reason, read.issues)|
  }

  /** Under each reason the report counts the cards left behind for it, and the reader's issues with it. */
  lemma CardsReported(read: ReadResult, parsers: Parsers, first: nat, w: Work, plan: Plan, reason: Reason)
    requires Planned(read, parsers, first, w, plan)
    ensures Reports(plan.skipped, CardScope, reason,
                    |Filter((c: TrelloCard) => WhySkipped(read.source, c) == Some(reason), read.source.cards)|
                    + IssuesUnder(read, CardScope, reason))
  {
    OtherPhasesQuiet(read, parsers, first, w, plan, CardScope, reason);
    LogsOfIssues(read.issues, w.logs.issues, CardScope, reason);
    LiveListsAre(read.source);
    ListsAre(read.source.lists, first, w.columnsFrom, w.columns, w.columnIds, w.archived, w.logs.issues, w.logs.lists);
    CardsAre(read.source.cards, w.columnIds, w.archived, w.reasons, w.cards, w.logs.labels, w.logs.cards);
    ItemsAppend(w.logs.labels, CardSkips(read.source.cards, w.columnIds, w.archived), CardScope, reason);
    CardItems(read.source.cards, read.source, w.columnsFrom, w.archived, reason);
    PlanReports(read, parsers, first, w, plan, CardScope, reason);
  }

  /** A card is left behind exactly when it is filed under no list. */
  lemma SkippedOrFiled(source: Source, card: TrelloCard)
    ensures WhySkipped(source, card).None? <==> exists k :: FiledUnder(LiveLists(source), card, k)
  {
    if card.idList.Some? {
      LiveBearers(source, card.idList.value);
      if exists l :: l in LiveLists(source) && l.id == card.idList.value {
        var k := SomeBearer(LiveLists(source), card.idList.value);
        assert WhySkipped(source, card).None? ==> FiledUnder(LiveLists(source), card, k);
      }
      if k: nat :| FiledUnder(LiveLists(source), card, k) {
        assert LiveLists(source)[k] in LiveLists(source);
      }
    }
  }

  /** Lists are reported as archived when they are closed and as malformed when they are open without a name. */
  lemma ListsReported(read: ReadResult, parsers: Parsers, first: nat, w: Work, plan: Plan, reason: Reason)
    requires Planned(read, parsers, first, w, plan)
    ensures Reports(plan.skipped, ListScope, reason,
                    |Filter((l: TrelloList) => WhyListSkipped(l) == Some(reason), read.source.lists)|
                    + IssuesUnder(read, ListScope, reason))
  {
    OtherPhasesQuiet(read, parsers, first, w, plan, ListScope, reason);
    LogsOfIssues(read.issues, w.logs.issues, ListScope, reason);
    LogsOfLists(read.source.lists, first, w.columnsFrom, w.columns, w.columnIds, w.archived, w.logs.issues,
                w.logs.lists, reason);
    ListItems(read.source.lists, reason);
    PlanReports(read, parsers, first, w, plan, ListScope, reason);
  }

  // ---- Checklists in the report ----

  /** The reason of the last skipped card with that id. */
  ghost function LastReasonOf(source: Source, cards: seq<TrelloCard>, id: string): Option<Reason> {
    if cards == [] then None
    else
      var last := cards[|cards| - 1];
      if last.id == id && WhySkipped(source, last).Some? then WhySkipped(source, last)
      else LastReasonOf(source, cards[..|cards| - 1], id)
  }

  ghost predicate CardKept(source: Source, id: string) {
    exists c | c in source.cards :: c.id == id && WhySkipped(source, c).None?
  }

  /**
    Why a checklist is left behind: for its card's reason when no card with that id was kept, or
    because it says nothing.
  */
  ghost function WhyUnhung(source: Source, c: TrelloChecklist): Option<Reason> {
    if c.idCard.None? then Some(Malformed)
    else if !CardKept(source, c.idCard.value) then
      if LastReasonOf(source, source.cards, c.idCard.value).Some?
      then LastReasonOf(source, source.cards, c.idCard.value) else Some(Malformed)
    else if Trim(c.name) == "" || c.checkItems == [] then Some(Malformed)
    else None
  }

  lemma {:induction false} ReasonsAre(cards: seq<TrelloCard>, source: Source, first: nat, archived: set<string>,
                                      id: string)
    requires archived == set l | l in source.lists && l.closed :: l.id
    ensures var reasons := SkippedReasons(cards, ColumnIds(LiveLists(source), first), archived);
            LastReasonOf(source, cards, id) == if id in reasons then Some(reasons[id]) else None
  {
    if cards != [] {
      ReasonsAre(cards[..|cards| - 1], source, first, archived, id);
      WhyIs(source, first, cards[|cards| - 1], archived);
    }
  }

  lemma KeptAsIff(source: Source, first: nat, archived: set<string>, id: string)
    requires archived == set l | l in source.lists && l.closed :: l.id
    ensures Filter(KeptAs(id, ColumnIds(LiveLists(source), first), archived), source.cards) != []
            <==> CardKept(source, id)
  {
    var p := KeptAs(id, ColumnIds(LiveLists(source), first), archived);
    FilterNone(p, source.cards);
    forall c | c in source.cards ensures p(c) <==> c.id == id && WhySkipped(source, c).None? {
      WhyIs(source, first, c, archived);
    }
  }

  lemma HasTaskIff(read: ReadResult, parsers: Parsers, first: nat, w: Work, plan: Plan, id: string)
    requires Planned(read, parsers, first, w, plan)
    ensures id in w.ts.taskIdByTrelloCardId <==> CardKept(read.source, id)
  {
    PlacedCardsAre(read, parsers, first, w, plan);
    LiveListsAre(read.source);
    ListsAre(read.source.lists, first, w.columnsFrom, w.columns, w.columnIds, w.archived, w.logs.issues, w.logs.lists);
    ListsResult(read.source.lists, first, w.columnsFrom, w.columns, w.columnIds, w.archived, w.logs.issues,
                w.logs.lists);
    KeptAsIff(read.source, w.columnsFrom, w.archived, id);
    if id in w.ts.taskIdByTrelloCardId {
      TaskOnlyWhenKept(read.source.cards, w.columnIds, w.archived, w.columns, w.setting, w.tasksFrom, id);
    }
    if CardKept(read.source, id) {
      TaskWhenKept(read.source.cards, w.columnIds, w.archived, w.columns, w.setting, w.tasksFrom, id);
    }
  }

  lemma ReasonIs(read: ReadResult, parsers: Parsers, first: nat, w: Work, plan: Plan, id: string)
    requires Planned(read, parsers, first, w, plan)
    ensures LastReasonOf(read.source, read.source.cards, id) == if id in w.reasons then Some(w.reasons[id]) else None
  {
    LiveListsAre(read.source);
    ListsAre(read.source.lists, first, w.columnsFrom, w.columns, w.columnIds, w.archived, w.logs.issues, w.logs.lists);
    CardsAre(read.source.cards, w.columnIds, w.archived, w.reasons, w.cards, w.logs.labels, w.logs.cards);
    ReasonsAre(read.source.cards, read.source, w.columnsFrom, w.archived, id);
  }

  lemma UnhungIs(read: ReadResult, parsers: Parsers, first: nat, w: Work, plan: Plan, c: TrelloChecklist)
    requires Planned(read, parsers, first, w, plan)
    ensures var fate := ChecklistFate(c, w.ts.taskIdByTrelloCardId, w.reasons);
            if WhyUnhung(read.source, c).Some? then fate == Dropped(WhyUnhung(read.source, c).value) else fate.Kept?
  {
    if c.idCard.Some? {
      HasTaskIff(read, parsers, first, w, plan, c.idCard.value);
      ReasonIs(read, parsers, first, w, plan, c.idCard.value);
    }
  }

  lemma {:induction false} ChecklistItems(cs: seq<TrelloChecklist>, taskIds: map<string, nat>,
                                          reasons: map<string, Reason>, source: Source, reason: Reason)
    requires forall c | c in cs ::
               var fate := ChecklistFate(c, taskIds, reasons);
               if WhyUnhung(source, c).Some? then fate == Dropped(WhyUnhung(source, c).value) else fate.Kept?
    ensures Items(ChecklistSkips(cs, taskIds, reasons), ChecklistScope, reason)
            == |Filter((c: TrelloChecklist) => WhyUnhung(source, c) == Some(reason), cs)|
  {
    if cs != [] {
      var before, c := cs[..|cs| - 1], cs[|cs| - 1];
      assert c in cs;
      ChecklistItems(before, taskIds, reasons, source, reason);
      ItemsAppend(ChecklistSkips(before, taskIds, reasons), ChecklistSkip(c, taskIds, reasons), ChecklistScope, reason);
      if WhyUnhung(source, c).Some? {
        ItemsOne(ChecklistSkip(c, taskIds, reasons)[0], ChecklistScope, reason);
      }
    }
  }

  /** Under each reason the report counts the checklists left behind for it, and the reader's issues with it. */
  lemma ChecklistsReported(read: ReadResult, parsers: Parsers, first: nat, w: Work, plan: Plan, reason: Reason)
    requires Planned(read, parsers, first, w, plan)
    ensures Reports(plan.skipped, ChecklistScope, reason,
                    |Filter((c: TrelloChecklist) => WhyUnhung(read.source, c) == Some(reason), read.source.checklists)|
                    + IssuesUnder(read, ChecklistScope, reason))
  {
    var source := read.source;
    OtherPhasesQuiet(read, parsers, first, w, plan, ChecklistScope, reason);
    LogsOfIssues(read.issues, w.logs.issues, ChecklistScope, reason);
    LogsOfChecklists(source.checklists, w.ts.taskIdByTrelloCardId, w.reasons, w.lists, w.logs.tasks, w.logs.checklists);
    ItemsAppend(w.logs.tasks, ChecklistSkips(source.checklists, w.ts.taskIdByTrelloCardId, w.reasons), ChecklistScope,
                reason);
    forall c | c in source.checklists
      ensures var fate := ChecklistFate(c, w.ts.taskIdByTrelloCardId, w.reasons);
              if WhyUnhung(source, c).Some? then fate == Dropped(WhyUnhung(source, c).value) else fate.Kept?
    {
      UnhungIs(read, parsers, first, w, plan, c);
    }
    ChecklistItems(source.checklists, w.ts.taskIdByTrelloCardId, w.reasons, source, reason);
    PlanReports(read, parsers, first, w, plan, ChecklistScope, reason);
  }

  // ---- The rest of the report ----

  /** The columns are reported as waiting for a category, all of them at once. */
  lemma ColumnsReported(read: ReadResult, parsers: Parsers, first: nat, w: Work, plan: Plan)
    requires Planned(read, parsers, first, w, plan)
    ensures Reports(plan.skipped, ColumnScope, Defaulted, |plan.columns| + IssuesUnder(read, ColumnScope, Defaulted))
  {
    OtherPhasesQuiet(read, parsers, first, w, plan, ColumnScope, Defaulted);
    LogsOfIssues(read.issues, w.logs.issues, ColumnScope, Defaulted);
    LogsOfLists(read.source.lists, first, w.columnsFrom, w.columns, w.columnIds, w.archived, w.logs.issues,
                w.logs.lists, Defaulted);
    PlanReports(read, parsers, first, w, plan, ColumnScope, Defaulted);
  }

  /** Members and comments are counted and never carried over. */
  lemma MembersAndCommentsReported(read: ReadResult, parsers: Parsers, first: nat, w: Work, plan: Plan)
    requires Planned(read, parsers, first, w, plan)
    ensures Reports(plan.skipped, MemberScope, Unmappable,
                    read.source.memberCount + IssuesUnder(read, MemberScope, Unmappable))
    ensures Reports(plan.skipped, CommentScope, OutOfScope,
                    read.source.commentCount + IssuesUnder(read, CommentScope, OutOfScope))
  {
    CountedReported(read, parsers, first, w, plan, MemberScope, Unmappable);
    CountedReported(read, parsers, first, w, plan, CommentScope, OutOfScope);
  }

  lemma CountedReported(read: ReadResult, parsers: Parsers, first: nat, w: Work, plan: Plan, scope: Scope,
                        reason: Reason)
    requires Planned(read, parsers, first, w, plan)
    requires (scope == MemberScope && reason == Unmappable) || (scope == CommentScope && reason == OutOfScope)
    ensures Reports(plan.skipped, scope, reason,
                    (if scope == MemberScope then read.source.memberCount else read.source.commentCount)
                    + IssuesUnder(read, scope, reason))
  {
    var a, b := CountedOnly(read.source)[0], CountedOnly(read.source)[1];
    OtherPhasesQuiet(read, parsers, first, w, plan, scope, reason);
    LogsOfIssues(read.issues, w.logs.issues, scope, reason);
    ItemsAppend(w.logs.items, CountedOnly(read.source), scope, reason);
    ItemsAppend([a], [b], scope, reason);
    assert CountedOnly(read.source) == [a] + [b];
    ItemsOne(a, scope, reason);
    ItemsOne(b, scope, reason);
    ReportCounts(w.logs.items + CountedOnly(read.source), scope, reason);
  }

  lemma {:induction false} LabelItems(labels: seq<TrelloLabel>, parsers: Parsers, reason: Reason)
    ensures Items(LabelSkips(labels, parsers), LabelScope, reason)
            == if reason == Defaulted
                 then |Filter((l: TrelloLabel) => parsers.colorToSlot(l.color).1 || Trim(l.name) == "", labels)|
               else 0
  {
    if labels != [] {
      var before, l := labels[..|labels| - 1], labels[|labels| - 1];
      LabelItems(before, parsers, reason);
      ItemsAppend(LabelSkips(before, parsers), LabelSkip(l, parsers), LabelScope, reason);
      if LabelSkip(l, parsers) != [] {
        ItemsOne(LabelSkip(l, parsers)[0], LabelScope, reason);
      }
    }
  }

  ghost predicate HasLabel(source: Source, id: string) {
    exists l | l in source.labels :: l.id == id
  }

  /** How many of the label ids of a card the export has no label for. */
  ghost function LabelsMissing(source: Source): TrelloCard -> nat {
    (c: TrelloCard) => |Filter((id: string) => !HasLabel(source, id), c.idLabels)|
  }

  /** How many of the attachments of a card are refused for that reason. */
  function LinksRefused(parsers: Parsers, reason: Reason): TrelloCard -> nat {
    (c: TrelloCard) => |Filter((a: TrelloAttachment) => parsers.classifyUrl(a.url) == Refused(reason), c.attachments)|
  }

  lemma {:induction false} HasLabelIff(labels: seq<TrelloLabel>, first: nat, id: string)
    ensures id in LabelIds(labels, first) <==> exists l | l in labels :: l.id == id
  {
    if labels != [] {
      HasLabelIff(labels[..|labels| - 1], first, id);
      PrefixMore(labels, |labels| - 1);
      BeforeLast(labels);
    }
  }

  lemma {:induction false} MissingItems(ids: seq<string>, source: Source, first: nat, name: string, reason: Reason)
    ensures Items(UnknownLabels(ids, LabelIds(source.labels, first), name), LabelScope, reason)
            == if reason == Malformed then |Filter((id: string) => !HasLabel(source, id), ids)| else 0
  {
    if ids != [] {
      var before, id := ids[..|ids| - 1], ids[|ids| - 1];
      var labelIds := LabelIds(source.labels, first);
      MissingItems(before, source, first, name, reason);
      HasLabelIff(source.labels, first, id);
      ItemsAppend(UnknownLabels(before, labelIds, name), UnknownLabel(id, labelIds, name), LabelScope, reason);
      if id !in labelIds {
        ItemsOne(UnknownLabel(id, labelIds, name)[0], LabelScope, reason);
      }
    }
  }

  lemma {:induction false} RefusedItems(attachments: seq<TrelloAttachment>, parsers: Parsers, reason: Reason)
    ensures Items(RefusedUrls(attachments, parsers), AttachmentScope, reason)
            == |Filter((a: TrelloAttachment) => parsers.classifyUrl(a.url) == Refused(reason), attachments)|
    ensures Items(RefusedUrls(attachments, parsers), LabelScope, reason) == 0
  {
    if attachments != [] {
      var before, a := attachments[..|attachments| - 1], attachments[|attachments| - 1];
      RefusedItems(before, parsers, reason);
      match parsers.classifyUrl(a.url)
      case Storable(_) => NothingBehind(RefusedUrls(before, parsers));
      case Refused(r) =>
        var e := Event(AttachmentScope, r, 1, [Some(a.name)]);
        ItemsAppend(RefusedUrls(before, parsers), [e], AttachmentScope, reason);
        ItemsAppend(RefusedUrls(before, parsers), [e], LabelScope, reason);
        ItemsOne(e, AttachmentScope, reason);
        ItemsOne(e, LabelScope, reason);
    }
  }

  lemma OneTaskItems(p: Placed, s: Setting, source: Source, first: nat, reason: Reason)
    requires s.labelIds == LabelIds(source.labels, first)
    ensures Items(TaskSkip(p, s), AttachmentScope, reason) == LinksRefused(s.parsers, reason)(p.card)
    ensures Items(TaskSkip(p, s), LabelScope, reason)
            == if reason == Malformed then LabelsMissing(source)(p.card) else 0
  {
    var a := UnknownLabels(p.card.idLabels, s.labelIds, p.card.name);
    var b := RefusedUrls(p.card.attachments, s.parsers);
    MissingItems(p.card.idLabels, source, first, p.card.name, reason);
    RefusedItems(p.card.attachments, s.parsers, reason);
    ItemsAppend(a, b, LabelScope, reason);
    ItemsAppend(a, b, AttachmentScope, reason);
    UnknownLabelsScope(p.card.idLabels, s.labelIds, p.card.name);
    TotalNone(a, AttachmentScope);
    ItemsWithin(a, AttachmentScope, reason);
  }

  lemma {:induction false} TaskItems(placed: seq<Placed>, s: Setting, source: Source, first: nat, reason: Reason)
    requires s.labelIds == LabelIds(source.labels, first)
    ensures Items(TaskSkips(placed, s), AttachmentScope, reason)
            == Sum(LinksRefused(s.parsers, reason), Map(CardOf, placed))
    ensures Items(TaskSkips(placed, s), LabelScope, reason)
            == if reason == Malformed then Sum(LabelsMissing(source), Map(CardOf, placed)) else 0
  {
    if placed != [] {
      var before, p := placed[..|placed| - 1], placed[|placed| - 1];
      TaskItems(before, s, source, first, reason);
      OneTaskItems(p, s, source, first, reason);
      ItemsAppend(TaskSkips(before, s), TaskSkip(p, s), AttachmentScope, reason);
      ItemsAppend(TaskSkips(before, s), TaskSkip(p, s), LabelScope, reason);
      assert Map(CardOf, placed) == Map(CardOf, before) + [p.card];
      SumMore(LinksRefused(s.parsers, reason), Map(CardOf, before), p.card);
      SumMore(LabelsMissing(source), Map(CardOf, before), p.card);
    }
  }

  /** Attachments of imported cards are reported under the reason their URL was refused for. */
  lemma AttachmentsReported(read: ReadResult, parsers: Parsers, first: nat, w: Work, plan: Plan, reason: Reason)
    requires Planned(read, parsers, first, w, plan)
    ensures Reports(plan.skipped, AttachmentScope, reason,
                    Sum(LinksRefused(parsers, reason), Landed(read.source))
                        + IssuesUnder(read, AttachmentScope, reason))
  {
    var scope := AttachmentScope;
    OtherPhasesQuiet(read, parsers, first, w, plan, scope, reason);
    LogsOfIssues(read.issues, w.logs.issues, scope, reason);
    TaskPhaseItems(read, parsers, first, w, plan, reason);
    PlanReports(read, parsers, first, w, plan, scope, reason);
  }

  lemma TaskPhaseItems(read: ReadResult, parsers: Parsers, first: nat, w: Work, plan: Plan, reason: Reason)
    requires Planned(read, parsers, first, w, plan)
    ensures Items(w.logs.tasks, AttachmentScope, reason)
            == Items(w.logs.cards, AttachmentScope, reason) + Sum(LinksRefused(parsers, reason), Landed(read.source))
    ensures Items(w.logs.tasks, LabelScope, reason)
            == Items(w.logs.cards, LabelScope, reason)
               + if reason == Malformed then Sum(LabelsMissing(read.source), Landed(read.source)) else 0
  {
    PlacedCardsAre(read, parsers, first, w, plan);
    LabelRowsAre(read.source.labels, parsers, first, w.labelsFrom, w.labels, w.setting.labelIds, w.logs.lists,
                 w.logs.labels);
    LogsOfTasks(w.columns, w.cards, w.setting, w.tasksFrom, w.ts, w.placed, w.logs.cards, w.logs.tasks);
    TaskItems(w.placed, w.setting, read.source, w.labelsFrom, reason);
    ItemsAppend(w.logs.cards, TaskSkips(w.placed, w.setting), AttachmentScope, reason);
    ItemsAppend(w.logs.cards, TaskSkips(w.placed, w.setting), LabelScope, reason);
  }

  /** A label whose colour or name is made up is reported as such, a label id without a label as malformed. */
  lemma LabelsReported(read: ReadResult, parsers: Parsers, first: nat, w: Work, plan: Plan)
    requires Planned(read, parsers, first, w, plan)
    ensures Reports(plan.skipped, LabelScope, Defaulted,
                    |Filter((l: TrelloLabel) => parsers.colorToSlot(l.color).1 || Trim(l.name) == "",
                            read.source.labels)| + IssuesUnder(read, LabelScope, Defaulted))
    ensures Reports(plan.skipped, LabelScope, Malformed,
                    Sum(LabelsMissing(read.source), Landed(read.source)) + IssuesUnder(read, LabelScope, Malformed))
  {
    LabelReasonReported(read, parsers, first, w, plan, Defaulted);
    LabelReasonReported(read, parsers, first, w, plan, Malformed);
  }

  lemma LabelReasonReported(read: ReadResult, parsers: Parsers, first: nat, w: Work, plan: Plan, reason: Reason)
    requires Planned(read, parsers, first, w, plan)
    ensures Reports(plan.skipped, LabelScope, reason,
                    Items(LabelSkips(read.source.labels, parsers), LabelScope, reason)
                    + (if reason == Malformed then Sum(LabelsMissing(read.source), Landed(read.source)) else 0)
                    + IssuesUnder(read, LabelScope, reason))
    ensures Items(LabelSkips(read.source.labels, parsers), LabelScope, reason)
            == if reason == Defaulted
                 then |Filter((l: TrelloLabel) => parsers.colorToSlot(l.color).1 || Trim(l.name) == "",
                              read.source.labels)|
               else 0
  {
    OtherPhasesQuiet(read, parsers, first, w, plan, LabelScope, reason);
    LogsOfIssues(read.issues, w.logs.issues, LabelScope, reason);
    LogsOfLabels(read.source.labels, parsers, first, w.labelsFrom, w.labels, w.setting.labelIds, w.logs.lists,
                 w.logs.labels);
    ItemsAppend(w.logs.lists, LabelSkips(read.source.labels, parsers), LabelScope, reason);
    LabelItems(read.source.labels, parsers, reason);
    TaskPhaseItems(read, parsers, first, w, plan, reason);
    PlanReports(read, parsers, first, w, plan, LabelScope, reason);
  }
}
