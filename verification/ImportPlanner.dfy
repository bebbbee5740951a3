/**
  The import planner as a whole (apps/api/src/import/trello-import-planner.ts): a read export becomes
  the rows that will be written and a report of what will not, and nothing falls between the two.
*/
module ImportPlanner {
  import opened ImportPhases
  import opened ImportSkip
  import opened Rows
  import opened TrelloExport
  import opened Wrappers
  import Columns

  /** What had been skipped after each phase. */
  datatype Logs = Logs(
    issues: seq<Event>, lists: seq<Event>, labels: seq<Event>, cards: seq<Event>, tasks: seq<Event>,
    checklists: seq<Event>, items: seq<Event>)

  /** Everything the planner works out on the way; ids start at the board's own. */
  datatype Work = Work(
    columnsFrom: nat, columns: seq<ColumnRow>, columnIds: map<string, nat>, archived: set<string>,
    labelsFrom: nat, labels: seq<LabelRow>, tasksFrom: nat, setting: Setting,
    reasons: map<string, Reason>, cards: map<nat, seq<TrelloCard>>, placed: seq<Placed>, ts: TaskState,
    lists: map<nat, seq<TrelloChecklist>>, hung: seq<Hung>, ls: ListState,
    logs: Logs)

  function CountedOnly(source: Source): seq<Event> {
    [Event(MemberScope, Unmappable, source.memberCount, []), Event(CommentScope, OutOfScope, source.commentCount, [])]
  }

  function PlanOf(source: Source, w: Work, first: nat, skipped: seq<Group>): Plan {
    Plan(first, if IsUnnamed(source.name) then BOARD_NAME_FALLBACK else source.name, EmptyToNull(source.desc),
         w.columns, w.labels, w.ts.tasks, w.ts.taskLabels, w.ls.checklists, w.ls.checklistItems, w.ts.attachments,
             skipped)
  }

  /** A plan of an export: each phase's result from the ones before it, and a report of everything logged. */
  ghost predicate Planned(read: ReadResult, parsers: Parsers, first: nat, w: Work, plan: Plan) {
    && w.setting.boardId == first && w.setting.parsers == parsers
    && w.columnsFrom == first + 1 && w.labelsFrom == w.columnsFrom + |w.columns|
        && w.tasksFrom == w.labelsFrom + |w.labels|
    && IssuesReported(read.issues, [], w.logs.issues)
    && ListsPlanned(read.source.lists, first, w.columnsFrom, w.columns, w.columnIds, w.archived, w.logs.issues,
                    w.logs.lists)
    && LabelsPlanned(read.source.labels, parsers, first, w.labelsFrom, w.labels, w.setting.labelIds, w.logs.lists,
                     w.logs.labels)
    && CardsPlanned(read.source.cards, w.columnIds, w.archived, w.reasons, w.cards, w.logs.labels, w.logs.cards)
    && TasksPlanned(w.columns, w.cards, w.setting, w.tasksFrom, w.ts, w.placed, w.logs.cards, w.logs.tasks)
    && ChecklistsPlanned(read.source.checklists, w.ts.taskIdByTrelloCardId, w.reasons, w.lists, w.logs.tasks,
                         w.logs.checklists)
    && ListRowsPlanned(w.ts.tasks, w.lists, w.ts.next, w.ls, w.hung, w.logs.checklists, w.logs.items)
    && plan == PlanOf(read.source, w, first, plan.skipped)
    && plan.skipped == Report(w.logs.items + CountedOnly(read.source))
  }

  method PlanTrelloImport(read: ReadResult, parsers: Parsers, first: nat) returns (plan: Plan)
    ensures exists w :: Planned(read, parsers, first, w, plan)
  {
    var source := read.source;
    var skips := new SkipCollector();
    ReportIssues(read.issues, skips);
    ghost var l1 := skips.log;
    var boardId, columnsFrom: nat := first, first + 1;
    var columns, columnIds, archived, next := PlanLists(source.lists, boardId, columnsFrom, skips);
    ghost var l2 := skips.log;
    var labels, labelIds, afterLabels := PlanLabels(source.labels, parsers, boardId, next, skips);
    ghost var l3 := skips.log;
    var skippedCardReasons, cardsByColumnId := PlanCards(source.cards, columnIds, archived, skips);
    ghost var l4 := skips.log;
    var setting := Setting(boardId, labelIds, parsers);
    ghost var placed;
    var ts;
    ts, placed := PlanTasks(columns, cardsByColumnId, setting, afterLabels, skips);
    ghost var l5 := skips.log;
    var checklistsByTaskId := PlanChecklists(source.checklists, ts.taskIdByTrelloCardId, skippedCardReasons, skips);
    ghost var l6 := skips.log;
    ghost var hung;
    var ls;
    ls, hung := PlanChecklistRows(ts.tasks, checklistsByTaskId, ts.next, skips);
    ghost var l7 := skips.log;
    skips.AddMany(MemberScope, Unmappable, source.memberCount, []);
    skips.AddMany(CommentScope, OutOfScope, source.commentCount, []);
    TwoMore(l7, CountedOnly(source)[0], CountedOnly(source)[1]);
    var skipped := skips.ToReport();
    plan := Plan(boardId, if IsUnnamed(source.name) then BOARD_NAME_FALLBACK else source.name, EmptyToNull(source.desc),
                 columns, labels, ts.tasks, ts.taskLabels, ls.checklists, ls.checklistItems, ts.attachments, skipped);
    ghost var w := Work(columnsFrom, columns, columnIds, archived, next, labels, afterLabels, setting,
                        skippedCardReasons, cardsByColumnId, placed, ts,
                        checklistsByTaskId, hung, ls, Logs(l1, l2, l3, l4, l5, l6, l7));
    assert Planned(read, parsers, first, w, plan);
  }

  lemma TwoMore(log: seq<Event>, a: Event, b: Event)
    ensures log + [a] + [b] == log + [a, b]
  {
  }

  // ---- What each phase comes to ----

  lemma ListsTotal(lists: seq<TrelloList>, boardId: nat, from: nat, columns: seq<ColumnRow>,
                   columnIds: map<string, nat>,
                   archived: set<string>, log: seq<Event>, log': seq<Event>, scope: Scope)
    requires ListsPlanned(lists, boardId, from, columns, columnIds, archived, log, log') && scope != ColumnScope
    ensures Total(log', scope) == Total(log, scope) + if scope == ListScope then |lists| - |columns| else 0
  {
    assert Unfolded(0);
    var event := Event(ColumnScope, Defaulted, |columns|, Map(NameSample, columns));
    SortPermutation(PosOrder(ListId, ListPos), Filter(LiveList, lists));
    TotalAppend(log + ListSkips(lists), [event], scope);
    TotalAppend(log, ListSkips(lists), scope);
    TotalOne(event, scope);
    ListSkipsCounted(lists, scope);
  }

  lemma ListsResult(lists: seq<TrelloList>, boardId: nat, from: nat, columns: seq<ColumnRow>,
                    columnIds: map<string, nat>,
                    archived: set<string>, log: seq<Event>, log': seq<Event>)
    requires ListsPlanned(lists, boardId, from, columns, columnIds, archived, log, log')
    ensures Issued(multiset(Map(ColumnId, columns)), from, from + |columns|) && Distinct(Map(ColumnId, columns))
    ensures forall c | c in columns :: c.boardId == boardId
    ensures forall c | c in columnIds :: columnIds[c] in Map(ColumnId, columns)
    ensures |columns| == |OrderedLists(lists)|
    ensures forall k | 0 <= k < |columns| ::
            columns[k].position == Columns.RebalancedAt(k) && columns[k].name == OrderedLists(lists)[k].name
  {
    assert Unfolded(0);
    IssuedInTurn(Map(ColumnId, columns), from);
    IssuedDistinct(Map(ColumnId, columns), multiset(Map(ColumnId, columns)), from, from + |columns|);
    ColumnIdsRange(OrderedLists(lists), from);
    forall c | c in columnIds ensures columnIds[c] in Map(ColumnId, columns) {
      assert Map(ColumnId, columns)[columnIds[c] - from] == columnIds[c];
    }
  }

  lemma LabelsTotal(labels: seq<TrelloLabel>, parsers: Parsers, boardId: nat, from: nat, rows: seq<LabelRow>,
                    labelIds: map<string, nat>, log: seq<Event>, log': seq<Event>, scope: Scope)
    requires LabelsPlanned(labels, parsers, boardId, from, rows, labelIds, log, log') && scope != LabelScope
    ensures Total(log', scope) == Total(log, scope)
  {
    assert Unfolded(0);
    LabelSkipsCounted(labels, parsers);
    TotalAppend(log, LabelSkips(labels, parsers), scope);
    TotalNone(LabelSkips(labels, parsers), scope);
  }

  lemma LabelsResult(labels: seq<TrelloLabel>, parsers: Parsers, boardId: nat, from: nat, rows: seq<LabelRow>,
                     labelIds: map<string, nat>, log: seq<Event>, log': seq<Event>)
    requires LabelsPlanned(labels, parsers, boardId, from, rows, labelIds, log, log')
    ensures Issued(multiset(Map(LabelId, rows)), from, from + |rows|)
    ensures forall r | r in rows :: r.boardId == boardId
    ensures forall l | l in labelIds.Values :: l in Map(LabelId, rows)
  {
    assert Unfolded(0);
    IssuedInTurn(Map(LabelId, rows), from);
    LabelIdsRange(labels, from);
    forall l | l in labelIds.Values ensures l in Map(LabelId, rows) {
      assert Map(LabelId, rows)[l - from] == l;
    }
  }

  lemma CardsTotal(cards: seq<TrelloCard>, columnIds: map<string, nat>, archived: set<string>,
                   reasons: map<string, Reason>,
                   buckets: map<nat, seq<TrelloCard>>, log: seq<Event>, log': seq<Event>, scope: Scope)
    requires CardsPlanned(cards, columnIds, archived, reasons, buckets, log, log')
    ensures Total(log', scope) == Total(log, scope)
                                  + if scope == CardScope
                                      then |cards| - |Filter(Stays(CardFates(columnIds, archived)), cards)| else 0
    ensures buckets == CardBuckets(cards, columnIds, archived)
  {
    assert Unfolded(0);
    TotalAppend(log, CardSkips(cards, columnIds, archived), scope);
    CardSkipsCounted(cards, columnIds, archived, scope);
  }

  lemma TasksTotal(columns: seq<ColumnRow>, buckets: map<nat, seq<TrelloCard>>, s: Setting, from: nat, st: TaskState,
                   placed: seq<Placed>, log: seq<Event>, log': seq<Event>, scope: Scope)
    requires TasksPlanned(columns, buckets, s, from, st, placed, log, log') && scope != LabelScope
    ensures Total(log', scope) == Total(log, scope)
                                  + if scope == AttachmentScope then Sum(AttachmentsRead, placed) - |st.attachments|
                                      else 0
  {
    assert Unfolded(0);
    TotalAppend(log, TaskSkips(placed, s), scope);
    TaskSkipsCounted(from, placed, s, scope);
  }

  lemma TasksResult(columns: seq<ColumnRow>, buckets: map<nat, seq<TrelloCard>>, s: Setting, from: nat, st: TaskState,
                    placed: seq<Placed>, log: seq<Event>, log': seq<Event>)
    requires TasksPlanned(columns, buckets, s, from, st, placed, log, log')
    ensures placed == PlacedCards(columns, buckets) && |st.tasks| == |placed|
    ensures from <= st.next && Issued(TaskPhaseIds(st), from, st.next)
    ensures TaskReferences(st, s.labelIds) && Distinct(Map(PairOf, st.taskLabels))
    ensures forall t | t in st.tasks :: t.boardId == s.boardId && t.columnId in Map(ColumnId, columns)
  {
    assert Unfolded(0);
    TaskIdsIssued(from, placed, s);
    TaskReferencesHold(from, placed, s);
    PairsDistinct(from, placed, s);
    TaskHomes(columns, buckets, s, from, placed);
  }

  lemma TaskHomes(columns: seq<ColumnRow>, buckets: map<nat, seq<TrelloCard>>, s: Setting, from: nat,
                  placed: seq<Placed>)
    requires placed == PlacedCards(columns, buckets)
    ensures forall t | t in AddTasks(from, placed, s).tasks ::
            t.boardId == s.boardId && t.columnId in Map(ColumnId, columns)
  {
    var tasks := AddTasks(from, placed, s).tasks;
    TaskShapes(from, placed, s);
    PlacedHomes(columns, buckets);
    forall t | t in tasks ensures t.boardId == s.boardId && t.columnId in Map(ColumnId, columns) {
      var k :| 0 <= k < |tasks| && tasks[k] == t;
      assert placed[k] in placed;
    }
  }

  lemma ChecklistsTotal(cs: seq<TrelloChecklist>, taskIds: map<string, nat>, reasons: map<string, Reason>,
                        buckets: map<nat, seq<TrelloChecklist>>, log: seq<Event>, log': seq<Event>, scope: Scope)
    requires ChecklistsPlanned(cs, taskIds, reasons, buckets, log, log')
    ensures Total(log', scope)
            == Total(log, scope)
               + if scope == ChecklistScope then |cs| - |Filter(Stays(ChecklistFates(taskIds, reasons)), cs)| else 0
    ensures buckets == ChecklistBuckets(cs, taskIds, reasons)
  {
    assert Unfolded(0);
    TotalAppend(log, ChecklistSkips(cs, taskIds, reasons), scope);
    ChecklistSkipsCounted(cs, taskIds, reasons, scope);
  }

  lemma ListRowsTotal(tasks: seq<TaskRow>, buckets: map<nat, seq<TrelloChecklist>>, from: nat, st: ListState,
                      hung: seq<Hung>,
                      log: seq<Event>, log': seq<Event>, scope: Scope)
    requires ListRowsPlanned(tasks, buckets, from, st, hung, log, log') && scope != ChecklistItemScope
    ensures Total(log', scope) == Total(log, scope)
  {
    assert Unfolded(0);
    HungSkipsScope(hung);
    TotalAppend(log, HungSkips(hung), scope);
    TotalNone(HungSkips(hung), scope);
  }

  lemma ListRowsResult(tasks: seq<TaskRow>, buckets: map<nat, seq<TrelloChecklist>>, from: nat, st: ListState,
                       hung: seq<Hung>,
                       log: seq<Event>, log': seq<Event>)
    requires ListRowsPlanned(tasks, buckets, from, st, hung, log, log')
    ensures hung == HungLists(tasks, buckets) && |st.checklists| == |hung|
    ensures from <= st.next && Issued(ListPhaseIds(st), from, st.next)
    ensures forall r | r in st.checklists :: r.taskId in Map(TaskId, tasks)
    ensures forall r | r in st.checklistItems :: r.checklistId in Map(ChecklistRowId, st.checklists)
  {
    assert Unfolded(0);
    ListIdsIssued(from, hung);
    ListReferences(from, hung);
    HungHomes(tasks, buckets);
    forall r | r in st.checklists ensures r.taskId in Map(TaskId, tasks) {
      var k :| 0 <= k < |st.checklists| && st.checklists[k] == r;
      assert hung[k] in hung;
    }
  }

  /** Every card that keeps a column becomes one task. */
  lemma KeptCardsPlaced(columns: seq<ColumnRow>, cards: seq<TrelloCard>, columnIds: map<string, nat>,
                        archived: set<string>)
    requires Distinct(Map(ColumnId, columns)) && forall c | c in columnIds :: columnIds[c] in Map(ColumnId, columns)
    ensures |PlacedCards(columns, CardBuckets(cards, columnIds, archived))|
            == |Filter(Stays(CardFates(columnIds, archived)), cards)|
  {
    var fate, homes := CardFates(columnIds, archived), Map(ColumnId, columns);
    PlacedCount(columns, cards, columnIds, archived);
    HomesCount(fate, homes, cards);
    forall c | c in cards ensures GoesAmong(fate, homes)(c) == Stays(fate)(c) {
    }
    FilterAgree(GoesAmong(fate, homes), Stays(fate), cards);
  }

  lemma KeptChecklistsHung(tasks: seq<TaskRow>, cs: seq<TrelloChecklist>, taskIds: map<string, nat>,
                           reasons: map<string, Reason>)
    requires Distinct(Map(TaskId, tasks)) && forall c | c in taskIds :: taskIds[c] in Map(TaskId, tasks)
    ensures |HungLists(tasks, ChecklistBuckets(cs, taskIds, reasons))|
            == |Filter(Stays(ChecklistFates(taskIds, reasons)), cs)|
  {
    var fate, homes := ChecklistFates(taskIds, reasons), Map(TaskId, tasks);
    HungCount(tasks, cs, taskIds, reasons);
    HomesCount(fate, homes, cs);
    forall c | c in cs ensures GoesAmong(fate, homes)(c) == Stays(fate)(c) {
    }
    FilterAgree(GoesAmong(fate, homes), Stays(fate), cs);
  }

  // ---- Results ----

  function Reported(plan: Plan, scope: Scope): nat {
    Sum(CountIn(scope), plan.skipped)
  }

  lemma CountedOnlyScopes(source: Source, scope: Scope)
    requires scope != MemberScope && scope != CommentScope
    ensures Total(CountedOnly(source), scope) == 0
  {
    TotalNone(CountedOnly(source), scope);
  }

  lemma ReportTotals(read: ReadResult, parsers: Parsers, first: nat, w: Work, plan: Plan, scope: Scope)
    requires Planned(read, parsers, first, w, plan) && scope != MemberScope && scope != CommentScope
    ensures Reported(plan, scope) == Total(w.logs.items, scope)
  {
    TotalReported(w.logs.items + CountedOnly(read.source), scope);
    TotalAppend(w.logs.items, CountedOnly(read.source), scope);
    CountedOnlyScopes(read.source, scope);
  }

  lemma IssuesResult(issues: seq<Issue>, log: seq<Event>, log': seq<Event>, scope: Scope)
    requires IssuesReported(issues, log, log')
    ensures Total(log', scope) == Total(log, scope) + |Filter(InScope(scope), issues)|
  {
    assert Unfolded(0);
    TotalAppend(log, IssueEvents(issues), scope);
    IssueEventsCounted(issues, scope);
  }

  /** Cards and checklists that were kept. */
  function KeptCards(read: ReadResult, w: Work): nat {
    |Filter(Stays(CardFates(w.columnIds, w.archived)), read.source.cards)|
  }

  function KeptChecklists(read: ReadResult, w: Work): nat {
    |Filter(Stays(ChecklistFates(w.ts.taskIdByTrelloCardId, w.reasons)), read.source.checklists)|
  }

  lemma ListsSkipped(read: ReadResult, parsers: Parsers, first: nat, w: Work, plan: Plan, scope: Scope)
    requires Planned(read, parsers, first, w, plan) && scope != ColumnScope
    ensures Total(w.logs.lists, scope) == Total(w.logs.issues, scope)
            + if scope == ListScope then |read.source.lists| - |w.columns| else 0
  {
    ListsTotal(read.source.lists, first, w.columnsFrom, w.columns, w.columnIds, w.archived, w.logs.issues, w.logs.lists,
               scope);
  }

  lemma LabelsSkipped(read: ReadResult, parsers: Parsers, first: nat, w: Work, plan: Plan, scope: Scope)
    requires Planned(read, parsers, first, w, plan) && scope != LabelScope
    ensures Total(w.logs.labels, scope) == Total(w.logs.lists, scope)
  {
    LabelsTotal(read.source.labels, parsers, first, w.labelsFrom, w.labels, w.setting.labelIds, w.logs.lists,
                w.logs.labels, scope);
  }

  lemma CardsSkipped(read: ReadResult, parsers: Parsers, first: nat, w: Work, plan: Plan, scope: Scope)
    requires Planned(read, parsers, first, w, plan)
    ensures Total(w.logs.cards, scope) == Total(w.logs.labels, scope)
            + if scope == CardScope then |read.source.cards| - KeptCards(read, w) else 0
  {
    CardsTotal(read.source.cards, w.columnIds, w.archived, w.reasons, w.cards, w.logs.labels, w.logs.cards, scope);
  }

  lemma TasksSkipped(read: ReadResult, parsers: Parsers, first: nat, w: Work, plan: Plan, scope: Scope)
    requires Planned(read, parsers, first, w, plan) && scope != LabelScope
    ensures Total(w.logs.tasks, scope) == Total(w.logs.cards, scope)
            + if scope == AttachmentScope then Sum(AttachmentsRead, w.placed) - |w.ts.attachments| else 0
  {
    TasksTotal(w.columns, w.cards, w.setting, w.tasksFrom, w.ts, w.placed, w.logs.cards, w.logs.tasks, scope);
  }

  lemma ChecklistsSkipped(read: ReadResult, parsers: Parsers, first: nat, w: Work, plan: Plan, scope: Scope)
    requires Planned(read, parsers, first, w, plan)
    ensures Total(w.logs.checklists, scope) == Total(w.logs.tasks, scope)
            + if scope == ChecklistScope then |read.source.checklists| - KeptChecklists(read, w) else 0
  {
    ChecklistsTotal(read.source.checklists, w.ts.taskIdByTrelloCardId, w.reasons, w.lists, w.logs.tasks,
                    w.logs.checklists, scope);
  }

  lemma ItemsSkipped(read: ReadResult, parsers: Parsers, first: nat, w: Work, plan: Plan, scope: Scope)
    requires Planned(read, parsers, first, w, plan) && scope != ChecklistItemScope
    ensures Total(w.logs.items, scope) == Total(w.logs.checklists, scope)
  {
    ListRowsTotal(w.ts.tasks, w.lists, w.ts.next, w.ls, w.hung, w.logs.checklists, w.logs.items, scope);
  }

  /** What the report counts under a scope, phase by phase. */
  lemma ScopeTotal(read: ReadResult, parsers: Parsers, first: nat, w: Work, plan: Plan, scope: Scope)
    requires Planned(read, parsers, first, w, plan) && scope in {ListScope, CardScope, ChecklistScope, AttachmentScope}
    ensures Reported(plan, scope)
            == |Filter(InScope(scope), read.issues)|
               + match scope
                 case ListScope => |read.source.lists| - |w.columns|
                 case CardScope => |read.source.cards| - KeptCards(read, w)
                 case ChecklistScope => |read.source.checklists| - KeptChecklists(read, w)
                 case _ => Sum(AttachmentsRead, w.placed) - |w.ts.attachments|
  {
    ReportTotals(read, parsers, first, w, plan, scope);
    IssuesResult(read.issues, [], w.logs.issues, scope);
    ListsSkipped(read, parsers, first, w, plan, scope);
    LabelsSkipped(read, parsers, first, w, plan, scope);
    CardsSkipped(read, parsers, first, w, plan, scope);
    TasksSkipped(read, parsers, first, w, plan, scope);
    ChecklistsSkipped(read, parsers, first, w, plan, scope);
    ItemsSkipped(read, parsers, first, w, plan, scope);
  }

  lemma TasksCounted(read: ReadResult, parsers: Parsers, first: nat, w: Work, plan: Plan)
    requires Planned(read, parsers, first, w, plan)
    ensures |plan.tasks| == KeptCards(read, w)
  {
    ListsResult(read.source.lists, first, w.columnsFrom, w.columns, w.columnIds, w.archived, w.logs.issues,
                w.logs.lists);
    CardsTotal(read.source.cards, w.columnIds, w.archived, w.reasons, w.cards, w.logs.labels, w.logs.cards, CardScope);
    TasksResult(w.columns, w.cards, w.setting, w.tasksFrom, w.ts, w.placed, w.logs.cards, w.logs.tasks);
    KeptCardsPlaced(w.columns, read.source.cards, w.columnIds, w.archived);
  }

  lemma ChecklistsCounted(read: ReadResult, parsers: Parsers, first: nat, w: Work, plan: Plan)
    requires Planned(read, parsers, first, w, plan)
    ensures |plan.checklists| == KeptChecklists(read, w)
  {
    TasksResult(w.columns, w.cards, w.setting, w.tasksFrom, w.ts, w.placed, w.logs.cards, w.logs.tasks);
    ChecklistsTotal(read.source.checklists, w.ts.taskIdByTrelloCardId, w.reasons, w.lists, w.logs.tasks,
                    w.logs.checklists, CardScope);
    ListRowsResult(w.ts.tasks, w.lists, w.ts.next, w.ls, w.hung, w.logs.checklists, w.logs.items);
    TaskIdsDistinct(w.ts, w.tasksFrom);
    KeptChecklistsHung(w.ts.tasks, read.source.checklists, w.ts.taskIdByTrelloCardId, w.reasons);
  }

  /**
    Lists, cards and checklists that were read, and attachments of imported cards: each is a row or is
    counted in the report.
  */
  lemma PlanConserves(read: ReadResult, parsers: Parsers, first: nat, w: Work, plan: Plan)
    requires Planned(read, parsers, first, w, plan)
    ensures |read.source.lists| + |Filter(InScope(ListScope), read.issues)|
            == |plan.columns| + Reported(plan, ListScope)
    ensures |read.source.cards| + |Filter(InScope(CardScope), read.issues)| == |plan.tasks| + Reported(plan, CardScope)
    ensures |read.source.checklists| + |Filter(InScope(ChecklistScope), read.issues)|
            == |plan.checklists| + Reported(plan, ChecklistScope)
    ensures Sum(AttachmentsRead, w.placed) + |Filter(InScope(AttachmentScope), read.issues)|
            == |plan.attachments| + Reported(plan, AttachmentScope)
  {
    ScopeTotal(read, parsers, first, w, plan, ListScope);
    ScopeTotal(read, parsers, first, w, plan, CardScope);
    ScopeTotal(read, parsers, first, w, plan, ChecklistScope);
    ScopeTotal(read, parsers, first, w, plan, AttachmentScope);
    TasksCounted(read, parsers, first, w, plan);
    ChecklistsCounted(read, parsers, first, w, plan);
  }

  lemma TaskIdsDistinct(st: TaskState, from: int)
    requires Issued(TaskPhaseIds(st), from, st.next)
    ensures Distinct(Map(TaskId, st.tasks))
  {
    IssuedDistinct(Map(TaskId, st.tasks), TaskPhaseIds(st), from, st.next);
  }

  /** The attachments of a card are read whole or the card is not, so none is ever an issue of its own. */
  lemma NoAttachmentIssues(raw: Json)
    requires IsBoard(raw)
    ensures Filter(InScope(AttachmentScope), IssuesOf(raw)) == []
  {
    var p := InScope(AttachmentScope);
    var a := SectionIssues(Field(raw, ListsKey), ListScope, ListOf, NoIssues);
    var b := SectionIssues(Field(raw, CardsKey), CardScope, CardOf, NoIssues);
    var c := SectionIssues(Field(raw, LabelsKey), LabelScope, LabelOf, NoIssues);
    var d := SectionIssues(Field(raw, ChecklistsKey), ChecklistScope, ChecklistOf, LineIssues);
    var e, f := AbsentIssue(Field(raw, ActionsKey), CommentScope), AbsentIssue(Field(raw, MembersKey), MemberScope);
    LinesOnly(ItemsOf(Field(raw, ListsKey)));
    LinesOnly(ItemsOf(Field(raw, CardsKey)));
    LinesOnly(ItemsOf(Field(raw, LabelsKey)));
    LinesOnly(ItemsOf(Field(raw, ChecklistsKey)));
    SectionScopes(Field(raw, ListsKey), ListScope, ListOf, NoIssues, AttachmentScope);
    SectionScopes(Field(raw, CardsKey), CardScope, CardOf, NoIssues, AttachmentScope);
    SectionScopes(Field(raw, LabelsKey), LabelScope, LabelOf, NoIssues, AttachmentScope);
    SectionScopes(Field(raw, ChecklistsKey), ChecklistScope, ChecklistOf, LineIssues, AttachmentScope);
    FilterNone(p, e);
    FilterNone(p, f);
    SplitSix(p, a, b, c, d, e, f);
  }

  /**
    From the raw file to the report nothing is lost: every entry of an array of lists, cards or
    checklists became a row or was counted under its scope, and so was every attachment of a card
    that was imported.
  */
  lemma NothingIsLost(raw: Json, parsers: Parsers, first: nat, w: Work, plan: Plan)
    requires IsBoard(raw) && Planned(ReadResult(SourceOf(raw), IssuesOf(raw)), parsers, first, w, plan)
    ensures |ItemsOf(Field(raw, ListsKey))| == |plan.columns| + Reported(plan, ListScope)
    ensures Field(raw, CardsKey).Array? ==> |ItemsOf(Field(raw, CardsKey))| == |plan.tasks| + Reported(plan, CardScope)
    ensures Field(raw, ChecklistsKey).Array? ==>
              |ItemsOf(Field(raw, ChecklistsKey))| == |plan.checklists| + Reported(plan, ChecklistScope)
    ensures Sum(AttachmentsRead, w.placed) == |plan.attachments| + Reported(plan, AttachmentScope)
  {
    PlanConserves(ReadResult(SourceOf(raw), IssuesOf(raw)), parsers, first, w, plan);
    ReadingConserves(raw);
    NoAttachmentIssues(raw);
  }

  function AllIds(plan: Plan): multiset<int> {
    multiset{plan.boardId as int}
    + multiset(Map(ColumnId, plan.columns)) + multiset(Map(LabelId, plan.labels))
    + (multiset(Map(TaskId, plan.tasks)) + multiset(Map(TaskLabelId, plan.taskLabels))
       + multiset(Map(AttachmentId, plan.attachments)))
    + (multiset(Map(ChecklistRowId, plan.checklists)) + multiset(Map(ItemRowId, plan.checklistItems)))
  }

  /** Every reference of the plan names a row of the plan; the column a task names is on the task's own board. */
  ghost predicate WellReferenced(plan: Plan) {
    && (forall c | c in plan.columns :: c.boardId == plan.boardId)
    && (forall l | l in plan.labels :: l.boardId == plan.boardId)
    && (forall t | t in plan.tasks :: t.boardId == plan.boardId && t.columnId in Map(ColumnId, plan.columns))
    && (forall r | r in plan.taskLabels ::
        r.taskId in Map(TaskId, plan.tasks) && r.labelId in Map(LabelId, plan.labels))
    && (forall r | r in plan.checklists :: r.taskId in Map(TaskId, plan.tasks))
    && (forall r | r in plan.checklistItems :: r.checklistId in Map(ChecklistRowId, plan.checklists))
    && (forall r | r in plan.attachments :: r.taskId in Map(TaskId, plan.tasks))
  }

  lemma ColumnsIssued(read: ReadResult, parsers: Parsers, first: nat, w: Work, plan: Plan)
    requires Planned(read, parsers, first, w, plan)
    ensures Issued(multiset(Map(ColumnId, w.columns)), w.columnsFrom, w.labelsFrom)
  {
    ListsResult(read.source.lists, first, w.columnsFrom, w.columns, w.columnIds, w.archived, w.logs.issues,
                w.logs.lists);
  }

  lemma LabelsIssued(read: ReadResult, parsers: Parsers, first: nat, w: Work, plan: Plan)
    requires Planned(read, parsers, first, w, plan)
    ensures Issued(multiset(Map(LabelId, w.labels)), w.labelsFrom, w.tasksFrom)
  {
    LabelsResult(read.source.labels, parsers, first, w.labelsFrom, w.labels, w.setting.labelIds, w.logs.lists,
                 w.logs.labels);
  }

  lemma TasksIssued(read: ReadResult, parsers: Parsers, first: nat, w: Work, plan: Plan)
    requires Planned(read, parsers, first, w, plan)
    ensures w.tasksFrom <= w.ts.next && Issued(TaskPhaseIds(w.ts), w.tasksFrom, w.ts.next)
  {
    TasksResult(w.columns, w.cards, w.setting, w.tasksFrom, w.ts, w.placed, w.logs.cards, w.logs.tasks);
  }

  lemma ListsIssued(read: ReadResult, parsers: Parsers, first: nat, w: Work, plan: Plan)
    requires Planned(read, parsers, first, w, plan)
    ensures w.ts.next <= w.ls.next && Issued(ListPhaseIds(w.ls), w.ts.next, w.ls.next)
  {
    ListRowsResult(w.ts.tasks, w.lists, w.ts.next, w.ls, w.hung, w.logs.checklists, w.logs.items);
  }

  /** The counter hands out each id once, across all eight tables. */
  lemma EveryIdOnce(read: ReadResult, parsers: Parsers, first: nat, w: Work, plan: Plan)
    requires Planned(read, parsers, first, w, plan)
    ensures Issued(AllIds(plan), first, w.ls.next)
  {
    ColumnsIssued(read, parsers, first, w, plan);
    LabelsIssued(read, parsers, first, w, plan);
    TasksIssued(read, parsers, first, w, plan);
    ListsIssued(read, parsers, first, w, plan);
    IssuedFive(multiset(Map(ColumnId, w.columns)), multiset(Map(LabelId, w.labels)), TaskPhaseIds(w.ts),
               ListPhaseIds(w.ls),
               first, w.labelsFrom, w.tasksFrom, w.ts.next, w.ls.next);
  }

  lemma IssuedFive(c: multiset<int>, l: multiset<int>, t: multiset<int>, k: multiset<int>, n0: int, n1: int, n2: int,
                   n3: int, n4: int)
    requires n0 + 1 <= n1 <= n2 <= n3 <= n4
    requires Issued(c, n0 + 1, n1) && Issued(l, n1, n2) && Issued(t, n2, n3) && Issued(k, n3, n4)
    ensures Issued(multiset{n0} + c + l + t + k, n0, n4)
  {
    IssuedOne(n0);
    IssuedJoin(multiset{n0}, c, n0, n0 + 1, n1);
    IssuedJoin(multiset{n0} + c, l, n0, n1, n2);
    IssuedJoin(multiset{n0} + c + l, t, n0, n2, n3);
    IssuedJoin(multiset{n0} + c + l + t, k, n0, n3, n4);
  }

  /** References all resolve, and no card carries a label twice, whatever ids the export repeats. */
  lemma PlanIsWellFormed(read: ReadResult, parsers: Parsers, first: nat, w: Work, plan: Plan)
    requires Planned(read, parsers, first, w, plan)
    ensures WellReferenced(plan)
    ensures Distinct(Map(PairOf, plan.taskLabels))
  {
    ListsResult(read.source.lists, first, w.columnsFrom, w.columns, w.columnIds, w.archived, w.logs.issues,
                w.logs.lists);
    LabelsResult(read.source.labels, parsers, first, w.labelsFrom, w.labels, w.setting.labelIds, w.logs.lists,
                 w.logs.labels);
    TasksResult(w.columns, w.cards, w.setting, w.tasksFrom, w.ts, w.placed, w.logs.cards, w.logs.tasks);
    ListRowsResult(w.ts.tasks, w.lists, w.ts.next, w.ls, w.hung, w.logs.checklists, w.logs.items);
  }

  function TaskOfColumn(columnId: int): TaskRow -> bool {
    (t: TaskRow) => t.columnId == columnId
  }

  function CardInColumn(column: ColumnRow, columnIds: map<string, nat>, archived: set<string>): TrelloCard -> bool {
    LandsIn(column.id, columnIds, archived)
  }

  /** A task is its card's: texts, due date, known labels each once, storable links in order. */
  ghost predicate TaskOfCard(t: TaskRow, card: TrelloCard, plan: Plan, setting: Setting) {
    && t.title == card.name && t.description == EmptyToNull(card.desc) && t.dueDate == DueOf(setting.parsers, card.due)
    && CardBlock(plan.taskLabels, plan.attachments, card, setting, t.id)
  }

  /**
    The tasks of a column are the cards that land in it, in their order and a gap apart: the k-th
    holds what the k-th card holds and stands at (k + 1) gaps. Archived cards land nowhere.
  */
  lemma ColumnsHoldTheirCards(read: ReadResult, parsers: Parsers, first: nat, w: Work, plan: Plan, column: ColumnRow)
    requires Planned(read, parsers, first, w, plan) && column in plan.columns
    ensures var cards := OrderedByPos(CardId, CardPos,
                                      Filter(CardInColumn(column, w.columnIds, w.archived), read.source.cards));
            var tasks := Filter(TaskOfColumn(column.id), plan.tasks);
            |tasks| == |cards|
            && forall k | 0 <= k < |tasks| ::
                 !cards[k].closed && TaskOfCard(tasks[k], cards[k], plan, w.setting)
                 && tasks[k].position == Columns.RebalancedAt(k)
  {
    var cards := OrderedByPos(CardId, CardPos,
                              Filter(CardInColumn(column, w.columnIds, w.archived), read.source.cards));
    PlacedInColumn(read, parsers, first, w, plan, column);
    TasksAre(w.columns, w.cards, w.setting, w.tasksFrom, w.ts, w.placed, w.logs.cards, w.logs.tasks);
    FilterPairs(TaskOfColumn(column.id), OfColumn(column.id), Follows(plan, w.setting), w.ts.tasks, w.placed);
    LandedOpen(read.source.cards, column, w.columnIds, w.archived);
    forall k | 0 <= k < |cards| ensures !cards[k].closed { assert cards[k] in cards; }
  }

  lemma LandedOpen(cards: seq<TrelloCard>, column: ColumnRow, columnIds: map<string, nat>, archived: set<string>)
    ensures forall c | c in OrderedByPos(CardId, CardPos, Filter(CardInColumn(column, columnIds, archived), cards)) ::
            !c.closed
  {
    var landed := Filter(CardInColumn(column, columnIds, archived), cards);
    FilterIn(CardInColumn(column, columnIds, archived), cards);
    SortPermutation(PosOrder(CardId, CardPos), landed);
    forall c | c in OrderedByPos(CardId, CardPos, landed) ensures !c.closed {
      assert c in multiset(OrderedByPos(CardId, CardPos, landed));
      assert c in landed;
    }
  }

  lemma PlacedInColumn(read: ReadResult, parsers: Parsers, first: nat, w: Work, plan: Plan, column: ColumnRow)
    requires Planned(read, parsers, first, w, plan) && column in plan.columns
    ensures var cards := OrderedByPos(CardId, CardPos,
                                      Filter(CardInColumn(column, w.columnIds, w.archived), read.source.cards));
            Filter(OfColumn(column.id), w.placed) == PlacedIn(cards, column.id)
  {
    ListsResult(read.source.lists, first, w.columnsFrom, w.columns, w.columnIds, w.archived, w.logs.issues,
                w.logs.lists);
    CardsTotal(read.source.cards, w.columnIds, w.archived, w.reasons, w.cards, w.logs.labels, w.logs.cards, CardScope);
    TasksResult(w.columns, w.cards, w.setting, w.tasksFrom, w.ts, w.placed, w.logs.cards, w.logs.tasks);
    CardBucketHolds(read.source.cards, w.columnIds, w.archived, column.id);
    ColumnBlock(w.columns, w.cards, column);
  }

  ghost function Follows(plan: Plan, s: Setting): (TaskRow, Placed) -> bool {
    (t: TaskRow, p: Placed) =>
      t.columnId == p.columnId && t.position == p.position && TaskOfCard(t, p.card, plan, s)
  }

  lemma TasksAre(columns: seq<ColumnRow>, buckets: map<nat, seq<TrelloCard>>, s: Setting, from: nat, st: TaskState,
                 placed: seq<Placed>, log: seq<Event>, log': seq<Event>)
    requires TasksPlanned(columns, buckets, s, from, st, placed, log, log')
    ensures |st.tasks| == |placed| && CardBlocks(st, placed, s)
    ensures forall k | 0 <= k < |placed| ::
              && st.tasks[k].columnId == placed[k].columnId && st.tasks[k].position == placed[k].position
              && st.tasks[k].title == placed[k].card.name && st.tasks[k].description == EmptyToNull(placed[k].card.desc)
              && st.tasks[k].dueDate == DueOf(s.parsers, placed[k].card.due)
  {
    assert Unfolded(0);
    TaskShapes(from, placed, s);
    CardBlocksHold(from, placed, s);
  }

  /** The k-th column is the k-th live list in Trello's order, at (k + 1) gaps. */
  lemma ColumnsFollowLists(read: ReadResult, parsers: Parsers, first: nat, w: Work, plan: Plan)
    requires Planned(read, parsers, first, w, plan)
    ensures |plan.columns| == |OrderedLists(read.source.lists)|
    ensures forall k | 0 <= k < |plan.columns| ::
              plan.columns[k].name == OrderedLists(read.source.lists)[k].name
                  && plan.columns[k].position == Columns.RebalancedAt(k)
  {
    ListsResult(read.source.lists, first, w.columnsFrom, w.columns, w.columnIds, w.archived, w.logs.issues,
                w.logs.lists);
  }

  function ListOfTask(taskId: int): ChecklistRow -> bool {
    (c: ChecklistRow) => c.taskId == taskId
  }

  predicate ListFollows(c: ChecklistRow, h: Hung) {
    c.taskId == h.taskId && c.title == h.checklist.name && c.position == h.position
  }

  /** The checklists of a task are the ones that hang off its card, in their order and a gap apart. */
  lemma TasksHoldTheirChecklists(read: ReadResult, parsers: Parsers, first: nat, w: Work, plan: Plan, task: TaskRow)
    requires Planned(read, parsers, first, w, plan) && task in plan.tasks
    ensures var lists := OrderedByPos(ChecklistId, ChecklistPos,
                           Filter(HangsOff(task.id, w.ts.taskIdByTrelloCardId, w.reasons), read.source.checklists));
            var rows := Filter(ListOfTask(task.id), plan.checklists);
            |rows| == |lists|
            && forall k | 0 <= k < |rows| ::
                rows[k].title == lists[k].name && rows[k].position == Columns.RebalancedAt(k)
  {
    HungOnTask(read, parsers, first, w, plan, task);
    ListRowsAre(w.ts.tasks, w.lists, w.ts.next, w.ls, w.hung, w.logs.checklists, w.logs.items);
    FilterPairs(ListOfTask(task.id), OnTask(task.id), ListFollows, w.ls.checklists, w.hung);
  }

  lemma HungOnTask(read: ReadResult, parsers: Parsers, first: nat, w: Work, plan: Plan, task: TaskRow)
    requires Planned(read, parsers, first, w, plan) && task in plan.tasks
    ensures var lists := OrderedByPos(ChecklistId, ChecklistPos,
                           Filter(HangsOff(task.id, w.ts.taskIdByTrelloCardId, w.reasons), read.source.checklists));
            Filter(OnTask(task.id), w.hung) == HungOn(lists, task.id)
  {
    TasksIssued(read, parsers, first, w, plan);
    TaskIdsDistinct(w.ts, w.tasksFrom);
    ChecklistsTotal(read.source.checklists, w.ts.taskIdByTrelloCardId, w.reasons, w.lists, w.logs.tasks,
                    w.logs.checklists, CardScope);
    ChecklistBucketHolds(read.source.checklists, w.ts.taskIdByTrelloCardId, w.reasons, task.id);
    ListRowsResult(w.ts.tasks, w.lists, w.ts.next, w.ls, w.hung, w.logs.checklists, w.logs.items);
    TaskBlock(w.ts.tasks, w.lists, task);
  }

  lemma ListRowsAre(tasks: seq<TaskRow>, buckets: map<nat, seq<TrelloChecklist>>, from: nat, st: ListState,
                    hung: seq<Hung>,
                    log: seq<Event>, log': seq<Event>)
    requires ListRowsPlanned(tasks, buckets, from, st, hung, log, log')
    ensures |st.checklists| == |hung| && forall k | 0 <= k < |hung| :: ListFollows(st.checklists[k], hung[k])
    ensures st == AddLists(from, hung)
  {
    assert Unfolded(0);
    ListReferences(from, hung);
  }

  /**
    The items of the k-th checklist are its named lines in their order, a gap apart, done exactly when
    Trello says complete.
  */
  lemma ChecklistsHoldTheirItems(read: ReadResult, parsers: Parsers, first: nat, w: Work, plan: Plan, k: nat)
    requires Planned(read, parsers, first, w, plan) && k < |plan.checklists|
    ensures |w.hung| == |plan.checklists| && ListFollows(plan.checklists[k], w.hung[k])
    ensures w.hung[k].checklist in read.source.checklists
    ensures var rows, lines := Filter(OfChecklist(plan.checklists[k].id), plan.checklistItems),
            UsableItems(w.hung[k].checklist);
            |rows| == |lines|
            && forall i | 0 <= i < |rows| ::
                 rows[i].content == lines[i].name && rows[i].isDone == (lines[i].state == Some("complete"))
                 && rows[i].position == Columns.RebalancedAt(i)
  {
    ListRowsAre(w.ts.tasks, w.lists, w.ts.next, w.ls, w.hung, w.logs.checklists, w.logs.items);
    assert Block(w.ls, w.hung[k], w.ls.checklists[k].id) by { ItemBlocks(w.ts.next, w.hung); }
    HungFromSource(read, parsers, first, w, plan, w.hung[k]);
  }

  // ---- Checklist lines ----

  /** Of all checklist lines: items, and lines counted in the report. */
  lemma LinesReported(read: ReadResult, parsers: Parsers, first: nat, w: Work, plan: Plan)
    requires Planned(read, parsers, first, w, plan)
    ensures |plan.checklistItems| + Reported(plan, ChecklistItemScope)
            == Sum(LinesRead, w.hung) + |Filter(InScope(ChecklistItemScope), read.issues)|
  {
    var scope := ChecklistItemScope;
    ReportTotals(read, parsers, first, w, plan, scope);
    IssuesResult(read.issues, [], w.logs.issues, scope);
    ListsSkipped(read, parsers, first, w, plan, scope);
    LabelsSkipped(read, parsers, first, w, plan, scope);
    CardsSkipped(read, parsers, first, w, plan, scope);
    TasksSkipped(read, parsers, first, w, plan, scope);
    ChecklistsSkipped(read, parsers, first, w, plan, scope);
    LineSkips(w.ts.tasks, w.lists, w.ts.next, w.ls, w.hung, w.logs.checklists, w.logs.items);
  }

  lemma LineSkips(tasks: seq<TaskRow>, buckets: map<nat, seq<TrelloChecklist>>, from: nat, st: ListState,
                  hung: seq<Hung>,
                  log: seq<Event>, log': seq<Event>)
    requires ListRowsPlanned(tasks, buckets, from, st, hung, log, log')
    ensures Total(log', ChecklistItemScope) + |st.checklistItems|
            == Total(log, ChecklistItemScope) + Sum(LinesRead, hung)
  {
    assert Unfolded(0);
    TotalAppend(log, HungSkips(hung), ChecklistItemScope);
    HungSkipsCounted(from, hung);
  }

  /**
    No checklist line is lost either: the lines read of the imported checklists and the unreadable
    lines of all raw checklists are the items and the lines counted in the report.
  */
  lemma NoLineIsLost(raw: Json, parsers: Parsers, first: nat, w: Work, plan: Plan)
    requires IsBoard(raw) && Planned(ReadResult(SourceOf(raw), IssuesOf(raw)), parsers, first, w, plan)
    ensures |plan.checklistItems| + Reported(plan, ChecklistItemScope)
            == Sum(LinesRead, w.hung) + Sum(LinesUnread, ItemsOf(Field(raw, ChecklistsKey)))
    ensures forall h | h in w.hung :: exists e ::
            e in ItemsOf(Field(raw, ChecklistsKey)) && ChecklistOf(e) == Some(h.checklist)
  {
    var read := ReadResult(SourceOf(raw), IssuesOf(raw));
    LinesReported(read, parsers, first, w, plan);
    LineIssuesOfBoard(raw);
    forall h | h in w.hung ensures exists e ::
        e in ItemsOf(Field(raw, ChecklistsKey)) && ChecklistOf(e) == Some(h.checklist) {
      HungFromSource(read, parsers, first, w, plan, h);
      ReadableFrom(ChecklistOf, ItemsOf(Field(raw, ChecklistsKey)), h.checklist);
    }
  }

  lemma {:induction false} ReadableFrom<T>(read: Json -> Option<T>, items: seq<Json>, x: T)
    requires x in Readable(read, items)
    ensures exists e :: e in items && read(e) == Some(x)
  {
    var before, last := items[..|items| - 1], items[|items| - 1];
    if read(last) == Some(x) {
      assert last in items;
    } else {
      ReadableFrom(read, before, x);
      var e :| e in before && read(e) == Some(x);
      assert e in items;
    }
  }

  lemma HungFromSource(read: ReadResult, parsers: Parsers, first: nat, w: Work, plan: Plan, h: Hung)
    requires Planned(read, parsers, first, w, plan) && h in w.hung
    ensures h.checklist in read.source.checklists
  {
    ListRowsResult(w.ts.tasks, w.lists, w.ts.next, w.ls, w.hung, w.logs.checklists, w.logs.items);
    BucketsFromSource(read.source.checklists, w.ts.taskIdByTrelloCardId, w.reasons, w.lists, w.logs.tasks,
                      w.logs.checklists);
    HungInBucket(w.ts.tasks, w.lists, h);
    SortPermutation(PosOrder(ChecklistId, ChecklistPos), Bucket(w.lists, h.taskId));
    assert h.checklist in multiset(OrderedByPos(ChecklistId, ChecklistPos, Bucket(w.lists, h.taskId)));
    assert h.checklist in Bucket(w.lists, h.taskId);
  }

  lemma BucketsFromSource(cs: seq<TrelloChecklist>, taskIds: map<string, nat>, reasons: map<string, Reason>,
                          buckets: map<nat, seq<TrelloChecklist>>, log: seq<Event>, log': seq<Event>)
    requires ChecklistsPlanned(cs, taskIds, reasons, buckets, log, log')
    ensures forall id: nat, c | c in Bucket(buckets, id) :: c in cs
  {
    assert Unfolded(0);
    forall id: nat, c | c in Bucket(buckets, id) ensures c in cs {
      ChecklistBucketHolds(cs, taskIds, reasons, id);
      FilterIn(HangsOff(id, taskIds, reasons), cs);
    }
  }

  lemma {:induction false} HungInBucket(tasks: seq<TaskRow>, buckets: map<nat, seq<TrelloChecklist>>, h: Hung)
    requires h in HungLists(tasks, buckets)
    ensures h.checklist in OrderedByPos(ChecklistId, ChecklistPos, Bucket(buckets, h.taskId))
  {
    var before, task := tasks[..|tasks| - 1], tasks[|tasks| - 1];
    if h in HungLists(before, buckets) {
      HungInBucket(before, buckets, h);
    } else {
      var lists := OrderedByPos(ChecklistId, ChecklistPos, Bucket(buckets, task.id));
      var k :| 0 <= k < |lists| && HungOn(lists, task.id)[k] == h;
      assert lists[k] in lists;
    }
  }
}
