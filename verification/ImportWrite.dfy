/**
  The import's write (apps/api/src/import/trello-import.service.ts, apps/api/src/import/import-config.ts):
  one transaction of chunked inserts, parents before children, against the keys of
  apps/api/prisma/schema.prisma.
*/
module ImportWrite {
  import opened ImportPhases
  import opened ImportPlanner
  import opened ImportSkip
  import opened Rows
  import opened TrelloExport
  import opened Wrappers

  const IMPORT_CHUNK_SIZE := 1000

  // ---- Chunks ----

  function Chunks<T>(rows: seq<T>, size: nat): seq<seq<T>>
    requires size > 0
    decreases |rows|
  {
    if rows == [] then []
    else if |rows| <= size then [rows]
    else [rows[..size]] + Chunks(rows[size..], size)
  }

  lemma {:induction false} FlattenFront<T>(first: seq<T>, chunks: seq<seq<T>>)
    ensures Flatten([first] + chunks) == first + Flatten(chunks)
    decreases |chunks|
  {
    if chunks == [] {
      assert [first][..0] == [];
      assert [first] + chunks == [first];
    } else {
      AppendLast([first], chunks);
      FlattenFront(first, chunks[..|chunks| - 1]);
      Append3(first, Flatten(chunks[..|chunks| - 1]), chunks[|chunks| - 1]);
    }
  }

  lemma Halves<T>(s: seq<T>, n: nat)
    requires n <= |s|
    ensures s[..n] + s[n..] == s
  {
  }

  /** Runs of at most `size`, all full but the last, none empty, that join to the rows. */
  lemma {:induction false} ChunksFacts<T>(rows: seq<T>, size: nat)
    requires size > 0
    ensures Flatten(Chunks(rows, size)) == rows
    ensures forall i | 0 <= i < |Chunks(rows, size)| ::
              && 0 < |Chunks(rows, size)[i]| <= size
              && (i < |Chunks(rows, size)| - 1 ==> |Chunks(rows, size)[i]| == size)
    decreases |rows|
  {
    if |rows| > size {
      ChunksFacts(rows[size..], size);
      FlattenFront(rows[..size], Chunks(rows[size..], size));
      Halves(rows, size);
    } else if rows != [] {
      assert [rows][..0] == [];
    }
  }

  /** The chunks from a start on. */
  function ChunksFrom<T>(rows: seq<T>, start: nat, size: nat): seq<seq<T>>
    requires size > 0
  {
    if start < |rows| then Chunks(rows[start..], size) else []
  }

  lemma ChunksFromFront<T>(rows: seq<T>, size: nat)
    requires size > 0
    ensures [] + ChunksFrom(rows, 0, size) == Chunks(rows, size)
  {
    Halves(rows, 0);
    assert rows[0..] == rows;
  }

  lemma NextChunk<T>(rows: seq<T>, start: nat, end: nat, size: nat)
    requires start < |rows| && size > 0 && end == if start + size < |rows| then start + size else |rows|
    ensures ChunksFrom(rows, start, size) == [rows[start..end]] + ChunksFrom(rows, start + size, size)
  {
    var rest := rows[start..];
    if start + size < |rows| {
      assert rest[..size] == rows[start..end];
      assert rest[size..] == rows[end..];
    } else {
      assert rest == rows[start..end];
      assert Chunks(rest, size) == [rest];
    }
  }

  method Chunked<T>(rows: seq<T>, size: nat) returns (chunks: seq<seq<T>>)
    requires size > 0
    ensures chunks == Chunks(rows, size)
    ensures Flatten(chunks) == rows
    ensures forall i | 0 <= i < |chunks| :: 0 < |chunks[i]| <= size && (i < |chunks| - 1 ==> |chunks[i]| == size)
  {
    chunks := [];
    var start := 0;
    ChunksFromFront(rows, size);
    while start < |rows|
      invariant 0 <= start
      invariant chunks + ChunksFrom(rows, start, size) == Chunks(rows, size)
    {
      var end := if start + size < |rows| then start + size else |rows|;
      NextChunk(rows, start, end, size);
      Append3(chunks, [rows[start..end]], ChunksFrom(rows, start + size, size));
      chunks := chunks + [rows[start..end]];
      start := start + size;
    }
    ChunksFacts(rows, size);
  }

  // ---- The tables and their keys ----

  datatype BoardRow = BoardRow(id: nat, workspaceId: int, name: string, description: Option<string>)

  function BoardId(b: BoardRow): int { b.id }

  datatype Counts = Counts(columns: nat, tasks: nat, labels: nat, checklists: nat, checklistItems: nat,
                           attachments: nat)

  /** The `board.imported` audit row. */
  datatype AuditRow = AuditRow(workspaceId: int, boardId: nat, name: string, source: string, imported: Counts,
                               skippedTotal: nat)

  /** The database as a value. */
  datatype Contents = Stored(
    boards: seq<BoardRow>, columns: seq<ColumnRow>, labels: seq<LabelRow>, tasks: seq<TaskRow>,
        taskLabels: seq<TaskLabelRow>,
    checklists: seq<ChecklistRow>, checklistItems: seq<ItemRow>, attachments: seq<AttachmentRow>,
        activities: seq<AuditRow>)

  predicate HasBoard(boards: seq<BoardRow>, boardId: nat) {
    exists b | b in boards :: b.id == boardId
  }

  /** `Task.column` is composite: the column must be on the task's own board. */
  predicate HasColumn(columns: seq<ColumnRow>, t: TaskRow) {
    exists c | c in columns :: c.boardId == t.boardId && c.id == t.columnId
  }

  predicate HasTask(tasks: seq<TaskRow>, taskId: nat) {
    exists t | t in tasks :: t.id == taskId
  }

  predicate HasLabel(labels: seq<LabelRow>, labelId: nat) {
    exists l | l in labels :: l.id == labelId
  }

  predicate HasChecklist(checklists: seq<ChecklistRow>, checklistId: nat) {
    exists c | c in checklists :: c.id == checklistId
  }

  ghost predicate ColumnsRefer(boards: seq<BoardRow>, columns: seq<ColumnRow>) {
    forall c | c in columns :: HasBoard(boards, c.boardId)
  }

  ghost predicate LabelsRefer(boards: seq<BoardRow>, labels: seq<LabelRow>) {
    forall l | l in labels :: HasBoard(boards, l.boardId)
  }

  ghost predicate TasksRefer(boards: seq<BoardRow>, columns: seq<ColumnRow>, tasks: seq<TaskRow>) {
    forall t | t in tasks :: HasBoard(boards, t.boardId) && HasColumn(columns, t)
  }

  ghost predicate TaskLabelsRefer(tasks: seq<TaskRow>, labels: seq<LabelRow>, taskLabels: seq<TaskLabelRow>) {
    forall r | r in taskLabels :: HasTask(tasks, r.taskId) && HasLabel(labels, r.labelId)
  }

  ghost predicate ChecklistsRefer(tasks: seq<TaskRow>, checklists: seq<ChecklistRow>) {
    forall c | c in checklists :: HasTask(tasks, c.taskId)
  }

  ghost predicate ItemsRefer(checklists: seq<ChecklistRow>, items: seq<ItemRow>) {
    forall i | i in items :: HasChecklist(checklists, i.checklistId)
  }

  ghost predicate AttachmentsRefer(tasks: seq<TaskRow>, attachments: seq<AttachmentRow>) {
    forall a | a in attachments :: HasTask(tasks, a.taskId)
  }

  /** No table holds an id twice, no task a label twice. */
  ghost predicate Keyed(c: Contents) {
    && Distinct(Map(BoardId, c.boards)) && Distinct(Map(ColumnId, c.columns)) && Distinct(Map(LabelId, c.labels))
    && Distinct(Map(TaskId, c.tasks)) && Distinct(Map(TaskLabelId, c.taskLabels)) && Distinct(Map(PairOf, c.taskLabels))
    && Distinct(Map(ChecklistRowId, c.checklists)) && Distinct(Map(ItemRowId, c.checklistItems))
    && Distinct(Map(AttachmentId, c.attachments))
  }

  /** Every foreign key names a row that is there. */
  ghost predicate Referred(c: Contents) {
    && ColumnsRefer(c.boards, c.columns) && LabelsRefer(c.boards, c.labels) && TasksRefer(c.boards, c.columns, c.tasks)
    && TaskLabelsRefer(c.tasks, c.labels, c.taskLabels) && ChecklistsRefer(c.tasks, c.checklists)
    && ItemsRefer(c.checklists, c.checklistItems) && AttachmentsRefer(c.tasks, c.attachments)
  }

  ghost predicate Sound(c: Contents) {
    Keyed(c) && Referred(c)
  }

  // ---- Inserts ----

  /** The rows of one `create` or `createMany`. */
  datatype Batch =
    | NewBoards(boards: seq<BoardRow>)
    | NewColumns(columns: seq<ColumnRow>)
    | NewLabels(labels: seq<LabelRow>)
    | NewTasks(tasks: seq<TaskRow>)
    | NewTaskLabels(taskLabels: seq<TaskLabelRow>)
    | NewChecklists(checklists: seq<ChecklistRow>)
    | NewItems(items: seq<ItemRow>)
    | NewAttachments(attachments: seq<AttachmentRow>)
    | NewAudits(audits: seq<AuditRow>)

  function ColumnBatch(rows: seq<ColumnRow>): Batch { NewColumns(rows) }
  function LabelBatch(rows: seq<LabelRow>): Batch { NewLabels(rows) }
  function TaskBatch(rows: seq<TaskRow>): Batch { NewTasks(rows) }
  function TaskLabelBatch(rows: seq<TaskLabelRow>): Batch { NewTaskLabels(rows) }
  function ChecklistBatch(rows: seq<ChecklistRow>): Batch { NewChecklists(rows) }
  function ItemBatch(rows: seq<ItemRow>): Batch { NewItems(rows) }
  function AttachmentBatch(rows: seq<AttachmentRow>): Batch { NewAttachments(rows) }

  function Grown(c: Contents, b: Batch): Contents {
    match b
    case NewBoards(rows) => c.(boards := c.boards + rows)
    case NewColumns(rows) => c.(columns := c.columns + rows)
    case NewLabels(rows) => c.(labels := c.labels + rows)
    case NewTasks(rows) => c.(tasks := c.tasks + rows)
    case NewTaskLabels(rows) => c.(taskLabels := c.taskLabels + rows)
    case NewChecklists(rows) => c.(checklists := c.checklists + rows)
    case NewItems(rows) => c.(checklistItems := c.checklistItems + rows)
    case NewAttachments(rows) => c.(attachments := c.attachments + rows)
    case NewAudits(rows) => c.(activities := c.activities + rows)
  }

  /** What the database checks of one insert: unique keys, and foreign keys against the rows there are. */
  ghost predicate Accepts(c: Contents, b: Batch) {
    match b
    case NewBoards(rows) => Distinct(Map(BoardId, c.boards + rows))
    case NewColumns(rows) => Distinct(Map(ColumnId, c.columns + rows)) && ColumnsRefer(c.boards, rows)
    case NewLabels(rows) => Distinct(Map(LabelId, c.labels + rows)) && LabelsRefer(c.boards, rows)
    case NewTasks(rows) => Distinct(Map(TaskId, c.tasks + rows)) && TasksRefer(c.boards, c.columns, rows)
    case NewTaskLabels(rows) =>
      && Distinct(Map(TaskLabelId, c.taskLabels + rows)) && Distinct(Map(PairOf, c.taskLabels + rows))
      && TaskLabelsRefer(c.tasks, c.labels, rows)
    case NewChecklists(rows) => Distinct(Map(ChecklistRowId, c.checklists + rows)) && ChecklistsRefer(c.tasks, rows)
    case NewItems(rows) => Distinct(Map(ItemRowId, c.checklistItems + rows)) && ItemsRefer(c.checklists, rows)
    case NewAttachments(rows) => Distinct(Map(AttachmentId, c.attachments + rows)) && AttachmentsRefer(c.tasks, rows)
    case NewAudits(_) => true
  }

  /** The checks made of the new rows alone are exactly what keeps the whole database sound. */
  lemma AcceptedExactlyWhenSound(c: Contents, b: Batch)
    requires Sound(c)
    ensures Accepts(c, b) <==> Sound(Grown(c, b))
  {
  }

  // ---- Sequences of inserts ----

  function Replay(c: Contents, log: seq<Batch>): Contents {
    if log == [] then c else Grown(Replay(c, log[..|log| - 1]), log[|log| - 1])
  }

  ghost predicate AcceptsNext(c: Contents, log: seq<Batch>, k: nat)
    requires k < |log|
  {
    Accepts(Replay(c, log[..k]), log[k])
  }

  /** No insert of the sequence is refused. */
  ghost predicate Accepted(c: Contents, log: seq<Batch>) {
    forall k | 0 <= k < |log| :: AcceptsNext(c, log, k)
  }

  lemma {:induction false} EveryPrefixSound(c: Contents, log: seq<Batch>, k: nat)
    requires Sound(c) && Accepted(c, log) && k <= |log|
    ensures Sound(Replay(c, log[..k]))
  {
    if k > 0 {
      EveryPrefixSound(c, log, k - 1);
      PrefixMore(log, k - 1);
      assert AcceptsNext(c, log, k - 1);
      AcceptedExactlyWhenSound(Replay(c, log[..k - 1]), log[k - 1]);
    }
  }

  lemma PrefixOfSum<T>(a: seq<T>, b: seq<T>, k: nat)
    requires k <= |a| + |b|
    ensures k <= |a| ==> (a + b)[..k] == a[..k]
    ensures |a| <= k ==> (a + b)[..k] == a + b[..k - |a|]
  {
  }

  lemma {:induction false} ReplayJoin(c: Contents, a: seq<Batch>, b: seq<Batch>)
    ensures Replay(c, a + b) == Replay(Replay(c, a), b)
    decreases |b|
  {
    if b == [] {
      assert a + b == a;
    } else {
      AppendLast(a, b);
      ReplayJoin(c, a, b[..|b| - 1]);
    }
  }

  lemma NextInFront(c: Contents, a: seq<Batch>, b: seq<Batch>, k: nat)
    requires k < |a|
    ensures AcceptsNext(c, a + b, k) == AcceptsNext(c, a, k)
  {
    PrefixOfSum(a, b, k);
  }

  lemma NextInBack(c: Contents, a: seq<Batch>, b: seq<Batch>, k: nat, n: nat)
    requires k < |b| && n == |a| + k
    ensures AcceptsNext(c, a + b, n) == AcceptsNext(Replay(c, a), b, k)
  {
    PrefixOfSum(a, b, n);
    ReplayJoin(c, a, b[..k]);
  }

  lemma AcceptedJoin(c: Contents, a: seq<Batch>, b: seq<Batch>)
    ensures Accepted(c, a + b) <==> Accepted(c, a) && Accepted(Replay(c, a), b)
    ensures Replay(c, a + b) == Replay(Replay(c, a), b)
  {
    ReplayJoin(c, a, b);
    if Accepted(c, a + b) {
      forall k | 0 <= k < |a| ensures AcceptsNext(c, a, k) {
        NextInFront(c, a, b, k);
      }
      forall k | 0 <= k < |b| ensures AcceptsNext(Replay(c, a), b, k) {
        NextInBack(c, a, b, k, |a| + k);
      }
    }
    if Accepted(c, a) && Accepted(Replay(c, a), b) {
      forall n | 0 <= n < |a + b| ensures AcceptsNext(c, a + b, n) {
        if n < |a| {
          NextInFront(c, a, b, n);
        } else {
          NextInBack(c, a, b, n - |a|, n);
        }
      }
    }
  }

  lemma AcceptedOne(c: Contents, b: Batch)
    ensures Accepted(c, [b]) <==> Accepts(c, b)
    ensures Replay(c, [b]) == Grown(c, b)
  {
    assert [b][..0] == [];
    assert AcceptsNext(c, [b], 0) <==> Accepts(c, b);
  }

  // ---- One list in chunks ----

  /** Rows that go in together go in one part after the other. */
  ghost predicate InParts<T>(wrap: seq<T> -> Batch, c: Contents, a: seq<T>, b: seq<T>) {
    && (Accepts(c, wrap(a + b)) ==> Accepts(c, wrap(a)) && Accepts(Grown(c, wrap(a)), wrap(b)))
    && Grown(Grown(c, wrap(a)), wrap(b)) == Grown(c, wrap(a + b))
    && Grown(c, wrap([])) == c
  }

  ghost predicate Chunkable<T(!new)>(wrap: seq<T> -> Batch) {
    forall c, a, b :: InParts(wrap, c, a, b)
  }

  lemma KeysInParts<T, K>(key: T -> K, was: seq<T>, a: seq<T>, b: seq<T>)
    ensures was + a + b == was + (a + b) && was + [] == was
    ensures Distinct(Map(key, was + (a + b))) ==> Distinct(Map(key, was + a))
  {
    var all, some := was + (a + b), was + a;
    Append3(was, a, b);
    if Distinct(Map(key, all)) {
      forall i, j | 0 <= i < j < |some| ensures key(some[i]) != key(some[j]) {
        assert Map(key, all)[i] != Map(key, all)[j];
      }
    }
  }

  lemma ColumnsInParts()
    ensures Chunkable(ColumnBatch)
  {
    forall c: Contents, a: seq<ColumnRow>, b: seq<ColumnRow> ensures InParts(ColumnBatch, c, a, b) {
      KeysInParts(ColumnId, c.columns, a, b);
    }
  }

  lemma LabelsInParts()
    ensures Chunkable(LabelBatch)
  {
    forall c: Contents, a: seq<LabelRow>, b: seq<LabelRow> ensures InParts(LabelBatch, c, a, b) {
      KeysInParts(LabelId, c.labels, a, b);
    }
  }

  lemma TasksInParts()
    ensures Chunkable(TaskBatch)
  {
    forall c: Contents, a: seq<TaskRow>, b: seq<TaskRow> ensures InParts(TaskBatch, c, a, b) {
      KeysInParts(TaskId, c.tasks, a, b);
    }
  }

  lemma TaskLabelsInParts()
    ensures Chunkable(TaskLabelBatch)
  {
    forall c: Contents, a: seq<TaskLabelRow>, b: seq<TaskLabelRow> ensures InParts(TaskLabelBatch, c, a, b) {
      KeysInParts(TaskLabelId, c.taskLabels, a, b);
      KeysInParts(PairOf, c.taskLabels, a, b);
    }
  }

  lemma ChecklistsInParts()
    ensures Chunkable(ChecklistBatch)
  {
    forall c: Contents, a: seq<ChecklistRow>, b: seq<ChecklistRow> ensures InParts(ChecklistBatch, c, a, b) {
      KeysInParts(ChecklistRowId, c.checklists, a, b);
    }
  }

  lemma ItemsInParts()
    ensures Chunkable(ItemBatch)
  {
    forall c: Contents, a: seq<ItemRow>, b: seq<ItemRow> ensures InParts(ItemBatch, c, a, b) {
      KeysInParts(ItemRowId, c.checklistItems, a, b);
    }
  }

  lemma AttachmentsInParts()
    ensures Chunkable(AttachmentBatch)
  {
    forall c: Contents, a: seq<AttachmentRow>, b: seq<AttachmentRow> ensures InParts(AttachmentBatch, c, a, b) {
      KeysInParts(AttachmentId, c.attachments, a, b);
    }
  }

  lemma {:induction false} ChunksAccepted<T(!new)>(c: Contents, chunks: seq<seq<T>>, wrap: seq<T> -> Batch)
    requires Chunkable(wrap) && Accepts(c, wrap(Flatten(chunks)))
    ensures Accepted(c, Map(wrap, chunks))
    ensures Replay(c, Map(wrap, chunks)) == Grown(c, wrap(Flatten(chunks)))
  {
    if chunks == [] {
      assert InParts(wrap, c, [], []);
    } else {
      var n := |chunks| - 1;
      var front, last := Flatten(chunks[..n]), chunks[n];
      assert InParts(wrap, c, front, last);
      ChunksAccepted(c, chunks[..n], wrap);
      assert Map(wrap, chunks) == Map(wrap, chunks[..n]) + [wrap(last)];
      AcceptedOne(Grown(c, wrap(front)), wrap(last));
      AcceptedJoin(c, Map(wrap, chunks[..n]), [wrap(last)]);
    }
  }

  function Pieces<T>(wrap: seq<T> -> Batch, rows: seq<T>): seq<Batch> {
    Map(wrap, Chunks(rows, IMPORT_CHUNK_SIZE))
  }

  lemma PiecesAccepted<T(!new)>(c: Contents, rows: seq<T>, wrap: seq<T> -> Batch)
    requires Chunkable(wrap) && Accepts(c, wrap(rows))
    ensures Accepted(c, Pieces(wrap, rows)) && Replay(c, Pieces(wrap, rows)) == Grown(c, wrap(rows))
  {
    ChunksFacts(rows, IMPORT_CHUNK_SIZE);
    ChunksAccepted(c, Chunks(rows, IMPORT_CHUNK_SIZE), wrap);
  }

  // ---- The inserts of a plan ----

  function CountsOf(plan: Plan): Counts {
    Counts(|plan.columns|, |plan.tasks|, |plan.labels|, |plan.checklists|, |plan.checklistItems|, |plan.attachments|)
  }

  function GroupCount(g: Group): nat {
    if g.count > 0 then g.count else 0
  }

  function BoardOf(plan: Plan, workspaceId: int): BoardRow {
    BoardRow(plan.boardId, workspaceId, plan.boardName, plan.description)
  }

  function AuditOf(plan: Plan, workspaceId: int): AuditRow {
    AuditRow(workspaceId, plan.boardId, plan.boardName, "trello", CountsOf(plan), Sum(GroupCount, plan.skipped))
  }

  function BoardWrites(plan: Plan, workspaceId: int): seq<Batch> {
    [NewBoards([BoardOf(plan, workspaceId)])] + (Pieces(ColumnBatch, plan.columns) + Pieces(LabelBatch, plan.labels))
  }

  function TaskWrites(plan: Plan): seq<Batch> {
    Pieces(TaskBatch, plan.tasks) + Pieces(TaskLabelBatch, plan.taskLabels)
  }

  function ContentWrites(plan: Plan): seq<Batch> {
    Pieces(ChecklistBatch, plan.checklists)
        + (Pieces(ItemBatch, plan.checklistItems) + Pieces(AttachmentBatch, plan.attachments))
  }

  /** Every insert of the transaction, in its order. */
  function Writes(plan: Plan, workspaceId: int): seq<Batch> {
    BoardWrites(plan, workspaceId)
        + (TaskWrites(plan) + (ContentWrites(plan) + [NewAudits([AuditOf(plan, workspaceId)])]))
  }

  ghost predicate KeysBelow<T>(rows: seq<T>, key: T -> int, first: nat) {
    Distinct(Map(key, rows)) && forall r | r in rows :: key(r) < first
  }

  lemma NewKeysFit<T>(was: seq<T>, data: seq<T>, key: T -> int, m: multiset<int>, first: nat, next: int)
    requires KeysBelow(was, key, first) && Issued(m, first, next) && multiset(Map(key, data)) <= m
    ensures Distinct(Map(key, was + data))
  {
    IssuedDistinct(Map(key, data), m, first, next);
    forall i, j | 0 <= i < j < |was + data| ensures key((was + data)[i]) != key((was + data)[j]) {
      if j < |was| {
        assert Map(key, was)[i] != Map(key, was)[j];
      } else if i < |was| {
        assert was[i] in was && Map(key, data)[j - |was|] in Map(key, data);
      } else {
        assert Map(key, data)[i - |was|] != Map(key, data)[j - |was|];
      }
    }
  }

  /** Every id in use is below the counter the plan's ids come from. */
  ghost predicate Below(c: Contents, first: nat) {
    && KeysBelow(c.boards, BoardId, first) && KeysBelow(c.columns, ColumnId, first)
        && KeysBelow(c.labels, LabelId, first)
    && KeysBelow(c.tasks, TaskId, first) && KeysBelow(c.taskLabels, TaskLabelId, first)
    && KeysBelow(c.checklists, ChecklistRowId, first) && KeysBelow(c.checklistItems, ItemRowId, first)
    && KeysBelow(c.attachments, AttachmentId, first)
  }

  /** What the planner proves of its plan, and all the write needs. */
  ghost predicate Writable(plan: Plan, first: nat, next: int) {
    Issued(AllIds(plan), first, next) && WellReferenced(plan) && Distinct(Map(PairOf, plan.taskLabels))
        && plan.boardId >= first
  }

  lemma InIds<T>(rows: seq<T>, key: T -> int, id: int)
    ensures id in Map(key, rows) ==> exists r :: r in rows && key(r) == id
  {
    if id in Map(key, rows) {
      var k :| 0 <= k < |rows| && Map(key, rows)[k] == id;
      assert rows[k] in rows;
    }
  }

  lemma ColumnsResolve(plan: Plan, columns: seq<ColumnRow>)
    requires WellReferenced(plan)
    ensures forall t | t in plan.tasks :: HasColumn(columns + plan.columns, t)
  {
    forall t | t in plan.tasks ensures HasColumn(columns + plan.columns, t) {
      InIds(plan.columns, ColumnId, t.columnId);
      var c :| c in plan.columns && ColumnId(c) == t.columnId;
      assert c in columns + plan.columns && c.boardId == t.boardId;
    }
  }

  lemma TasksResolve(plan: Plan, tasks: seq<TaskRow>, labels: seq<LabelRow>)
    requires WellReferenced(plan)
    ensures forall r | r in plan.taskLabels ::
            HasTask(tasks + plan.tasks, r.taskId) && HasLabel(labels + plan.labels, r.labelId)
    ensures forall r | r in plan.checklists :: HasTask(tasks + plan.tasks, r.taskId)
    ensures forall r | r in plan.attachments :: HasTask(tasks + plan.tasks, r.taskId)
  {
    forall id | id in Map(TaskId, plan.tasks) && id >= 0 ensures HasTask(tasks + plan.tasks, id) {
      InIds(plan.tasks, TaskId, id);
      var t :| t in plan.tasks && TaskId(t) == id;
      assert t in tasks + plan.tasks;
    }
    forall id | id in Map(LabelId, plan.labels) && id >= 0 ensures HasLabel(labels + plan.labels, id) {
      InIds(plan.labels, LabelId, id);
      var l :| l in plan.labels && LabelId(l) == id;
      assert l in labels + plan.labels;
    }
  }

  lemma ChecklistsResolve(plan: Plan, checklists: seq<ChecklistRow>)
    requires WellReferenced(plan)
    ensures forall r | r in plan.checklistItems :: HasChecklist(checklists + plan.checklists, r.checklistId)
  {
    forall r | r in plan.checklistItems ensures HasChecklist(checklists + plan.checklists, r.checklistId) {
      InIds(plan.checklists, ChecklistRowId, r.checklistId);
      var c :| c in plan.checklists && ChecklistRowId(c) == r.checklistId;
      assert c in checklists + plan.checklists;
    }
  }

  lemma IdsWithin(plan: Plan)
    ensures multiset(Map(ColumnId, plan.columns)) <= AllIds(plan) && multiset(Map(LabelId, plan.labels)) <= AllIds(plan)
    ensures multiset(Map(TaskId, plan.tasks)) <= AllIds(plan)
            && multiset(Map(TaskLabelId, plan.taskLabels)) <= AllIds(plan)
    ensures multiset(Map(AttachmentId, plan.attachments)) <= AllIds(plan)
    ensures multiset(Map(ChecklistRowId, plan.checklists)) <= AllIds(plan)
    ensures multiset(Map(ItemRowId, plan.checklistItems)) <= AllIds(plan)
    ensures plan.boardId in AllIds(plan)
  {
    PartsWithin(multiset{plan.boardId as int}, multiset(Map(ColumnId, plan.columns)),
                multiset(Map(LabelId, plan.labels)),
                multiset(Map(TaskId, plan.tasks)), multiset(Map(TaskLabelId, plan.taskLabels)),
                multiset(Map(AttachmentId, plan.attachments)), multiset(Map(ChecklistRowId, plan.checklists)),
                multiset(Map(ItemRowId, plan.checklistItems)));
  }

  lemma PartsWithin(a: multiset<int>, b: multiset<int>, c: multiset<int>, d: multiset<int>, e: multiset<int>,
                    f: multiset<int>, g: multiset<int>, h: multiset<int>)
    ensures var m := a + b + c + (d + e + f) + (g + h);
            a <= m && b <= m && c <= m && d <= m && e <= m && f <= m && g <= m && h <= m
  {
  }

  function WithBoard(c: Contents, plan: Plan, workspaceId: int): Contents {
    c.(boards := c.boards + [BoardOf(plan, workspaceId)], columns := c.columns + plan.columns,
       labels := c.labels + plan.labels)
  }

  function WithTasks(c: Contents, plan: Plan): Contents {
    c.(tasks := c.tasks + plan.tasks, taskLabels := c.taskLabels + plan.taskLabels)
  }

  function WithContents(c: Contents, plan: Plan): Contents {
    c.(checklists := c.checklists + plan.checklists, checklistItems := c.checklistItems + plan.checklistItems,
       attachments := c.attachments + plan.attachments)
  }

  lemma BoardFits(c: Contents, plan: Plan, workspaceId: int, first: nat)
    requires KeysBelow(c.boards, BoardId, first) && plan.boardId >= first
    ensures Accepts(c, NewBoards([BoardOf(plan, workspaceId)]))
    ensures HasBoard(c.boards + [BoardOf(plan, workspaceId)], plan.boardId)
  {
    var board := BoardOf(plan, workspaceId);
    IssuedOne(plan.boardId);
    assert Map(BoardId, [board]) == [plan.boardId];
    NewKeysFit(c.boards, [board], BoardId, multiset{plan.boardId as int}, plan.boardId, plan.boardId + 1);
    assert board in c.boards + [board];
  }

  lemma ColumnsAndLabelsAccepted(c: Contents, plan: Plan, first: nat, next: int)
    requires Writable(plan, first, next) && HasBoard(c.boards, plan.boardId)
    requires KeysBelow(c.columns, ColumnId, first) && KeysBelow(c.labels, LabelId, first)
    ensures var writes := Pieces(ColumnBatch, plan.columns) + Pieces(LabelBatch, plan.labels);
            && Accepted(c, writes)
            && Replay(c, writes) == c.(columns := c.columns + plan.columns, labels := c.labels + plan.labels)
  {
    IdsWithin(plan);
    NewKeysFit(c.columns, plan.columns, ColumnId, AllIds(plan), first, next);
    ColumnsInParts();
    PiecesAccepted(c, plan.columns, ColumnBatch);
    var c1 := Grown(c, ColumnBatch(plan.columns));
    NewKeysFit(c.labels, plan.labels, LabelId, AllIds(plan), first, next);
    LabelsInParts();
    PiecesAccepted(c1, plan.labels, LabelBatch);
    AcceptedJoin(c, Pieces(ColumnBatch, plan.columns), Pieces(LabelBatch, plan.labels));
  }

  /** The board with its columns and labels. */
  lemma BoardAccepted(c: Contents, plan: Plan, workspaceId: int, first: nat, next: int)
    requires Writable(plan, first, next) && Below(c, first)
    ensures Accepted(c, BoardWrites(plan, workspaceId))
    ensures Replay(c, BoardWrites(plan, workspaceId)) == WithBoard(c, plan, workspaceId)
  {
    var board := NewBoards([BoardOf(plan, workspaceId)]);
    BoardFits(c, plan, workspaceId, first);
    AcceptedOne(c, board);
    ColumnsAndLabelsAccepted(Grown(c, board), plan, first, next);
    AcceptedJoin(c, [board], Pieces(ColumnBatch, plan.columns) + Pieces(LabelBatch, plan.labels));
  }

  /** The tasks, once their board and columns are there, and the labels they carry. */
  lemma TasksAccepted(c: Contents, plan: Plan, columns: seq<ColumnRow>, labels: seq<LabelRow>, first: nat, next: int)
    requires Writable(plan, first, next) && KeysBelow(c.tasks, TaskId, first)
             && KeysBelow(c.taskLabels, TaskLabelId, first)
    requires c.columns == columns + plan.columns && c.labels == labels + plan.labels && HasBoard(c.boards, plan.boardId)
    requires Distinct(Map(PairOf, c.taskLabels)) && TaskLabelsRefer(c.tasks, labels, c.taskLabels)
    ensures Accepted(c, TaskWrites(plan)) && Replay(c, TaskWrites(plan)) == WithTasks(c, plan)
  {
    IdsWithin(plan);
    ColumnsResolve(plan, columns);
    NewKeysFit(c.tasks, plan.tasks, TaskId, AllIds(plan), first, next);
    TasksInParts();
    PiecesAccepted(c, plan.tasks, TaskBatch);
    var c1 := Grown(c, TaskBatch(plan.tasks));
    TasksResolve(plan, c.tasks, labels);
    NewKeysFit(c.taskLabels, plan.taskLabels, TaskLabelId, AllIds(plan), first, next);
    PairsStayDistinct(plan, first, next, c.taskLabels) by {
      forall r | r in c.taskLabels ensures r.taskId < first {
        var t :| t in c.tasks && t.id == r.taskId;
        assert TaskId(t) < first;
      }
    }
    TaskLabelsInParts();
    PiecesAccepted(c1, plan.taskLabels, TaskLabelBatch);
    AcceptedJoin(c, Pieces(TaskBatch, plan.tasks), Pieces(TaskLabelBatch, plan.taskLabels));
  }

  /** What hangs off the tasks. */
  lemma ContentsAccepted(c: Contents, plan: Plan, tasks: seq<TaskRow>, first: nat, next: int)
    requires Writable(plan, first, next) && c.tasks == tasks + plan.tasks
    requires KeysBelow(c.checklists, ChecklistRowId, first) && KeysBelow(c.checklistItems, ItemRowId, first)
    requires KeysBelow(c.attachments, AttachmentId, first)
    ensures Accepted(c, ContentWrites(plan)) && Replay(c, ContentWrites(plan)) == WithContents(c, plan)
  {
    IdsWithin(plan);
    TasksResolve(plan, tasks, []);
    NewKeysFit(c.checklists, plan.checklists, ChecklistRowId, AllIds(plan), first, next);
    ChecklistsInParts();
    PiecesAccepted(c, plan.checklists, ChecklistBatch);
    var c1 := Grown(c, ChecklistBatch(plan.checklists));
    ChecklistsResolve(plan, c.checklists);
    NewKeysFit(c.checklistItems, plan.checklistItems, ItemRowId, AllIds(plan), first, next);
    ItemsInParts();
    PiecesAccepted(c1, plan.checklistItems, ItemBatch);
    var c2 := Grown(c1, ItemBatch(plan.checklistItems));
    NewKeysFit(c.attachments, plan.attachments, AttachmentId, AllIds(plan), first, next);
    AttachmentsInParts();
    PiecesAccepted(c2, plan.attachments, AttachmentBatch);
    AcceptedJoin(c1, Pieces(ItemBatch, plan.checklistItems), Pieces(AttachmentBatch, plan.attachments));
    AcceptedJoin(c, Pieces(ChecklistBatch, plan.checklists),
                 Pieces(ItemBatch, plan.checklistItems) + Pieces(AttachmentBatch, plan.attachments));
  }

  /** The tables grew by the plan and by one audit row. */
  ghost predicate Written(plan: Plan, workspaceId: int, was: Contents, now: Contents) {
    && now.boards == was.boards + [BoardOf(plan, workspaceId)]
    && now.columns == was.columns + plan.columns
    && now.labels == was.labels + plan.labels
    && now.tasks == was.tasks + plan.tasks
    && now.taskLabels == was.taskLabels + plan.taskLabels
    && now.checklists == was.checklists + plan.checklists
    && now.checklistItems == was.checklistItems + plan.checklistItems
    && now.attachments == was.attachments + plan.attachments
    && now.activities == was.activities + [AuditOf(plan, workspaceId)]
  }

  /** A card carries a label at most once in the tables too. */
  lemma PairsStayDistinct(plan: Plan, first: nat, next: int, was: seq<TaskLabelRow>)
    requires Writable(plan, first, next) && Distinct(Map(PairOf, was)) && forall r | r in was :: r.taskId < first
    ensures Distinct(Map(PairOf, was + plan.taskLabels))
  {
    var all := was + plan.taskLabels;
    IdsWithin(plan);
    IssuedDistinct(Map(TaskId, plan.tasks), AllIds(plan), first, next);
    forall i, j | 0 <= i < j < |all| ensures PairOf(all[i]) != PairOf(all[j]) {
      if j < |was| {
        assert Map(PairOf, was)[i] != Map(PairOf, was)[j];
      } else if i < |was| {
        assert all[i] in was && all[j] in plan.taskLabels;
      } else {
        assert Map(PairOf, plan.taskLabels)[i - |was|] != Map(PairOf, plan.taskLabels)[j - |was|];
      }
    }
  }

  lemma JoinThree(c: Contents, x: seq<Batch>, c1: Contents, y: seq<Batch>, c2: Contents, z: seq<Batch>)
    requires Accepted(c, x) && Replay(c, x) == c1
    requires Accepted(c1, y) && Replay(c1, y) == c2
    requires Accepted(c2, z)
    ensures Accepted(c, x + (y + z)) && Replay(c, x + (y + z)) == Replay(c2, z)
  {
    AcceptedJoin(c1, y, z);
    AcceptedJoin(c, x, y + z);
  }

  /** No insert of a plan is refused, so the write cannot fail half-way; after the last one the plan is in. */
  lemma PlanIsAccepted(was: Contents, plan: Plan, workspaceId: int, first: nat, next: int)
    requires Sound(was) && Below(was, first) && Writable(plan, first, next)
    ensures Accepted(was, Writes(plan, workspaceId))
    ensures Written(plan, workspaceId, was, Replay(was, Writes(plan, workspaceId)))
  {
    var audit := NewAudits([AuditOf(plan, workspaceId)]);
    BoardAccepted(was, plan, workspaceId, first, next);
    var c1 := WithBoard(was, plan, workspaceId);
    assert HasBoard(c1.boards, plan.boardId) by { assert BoardOf(plan, workspaceId) in c1.boards; }
    TasksAccepted(c1, plan, was.columns, was.labels, first, next);
    var c2 := WithTasks(c1, plan);
    ContentsAccepted(c2, plan, was.tasks, first, next);
    var c3 := WithContents(c2, plan);
    AcceptedOne(c3, audit);
    AcceptedJoin(c2, ContentWrites(plan), [audit]);
    JoinThree(was, BoardWrites(plan, workspaceId), c1, TaskWrites(plan), c2, ContentWrites(plan) + [audit]);
  }

  // ---- The service ----

  class Database {
    var now: Contents
    /** The inserts so far, for the contracts only. */
    ghost var log: seq<Batch>

    constructor ()
      ensures now == Stored([], [], [], [], [], [], [], [], []) && log == []
    {
      now := Stored([], [], [], [], [], [], [], [], []);
      log := [];
    }

    method CreateMany(rows: Batch)
      requires Accepts(now, rows)
      modifies this
      ensures now == Grown(old(now), rows) && log == old(log) + [rows]
    {
      now := Grown(now, rows);
      log := log + [rows];
    }

    /** The loop over the chunks of one list. */
    method CreateAll<T>(data: seq<T>, wrap: seq<T> -> Batch)
      requires Accepted(now, Pieces(wrap, data))
      modifies this
      ensures now == Replay(old(now), Pieces(wrap, data)) && log == old(log) + Pieces(wrap, data)
    {
      ghost var pieces := Pieces(wrap, data);
      var chunks := Chunked(data, IMPORT_CHUNK_SIZE);
      for i := 0 to |chunks|
        invariant now == Replay(old(now), pieces[..i]) && log == old(log) + pieces[..i]
      {
        PrefixMore(pieces, i);
        assert AcceptsNext(old(now), pieces, i);
        CreateMany(wrap(chunks[i]));
      }
      PrefixMore(pieces, |pieces|);
    }
  }

  /**
    The transaction. The inserts are those of `Writes`, in its order; the database is sound before
    the first and after each of them, chunk by chunk, and in the end holds the plan and one audit row.
  */
  method WritePlan(db: Database, workspaceId: int, plan: Plan, ghost first: nat, ghost next: int)
    requires Sound(db.now) && Below(db.now, first) && Writable(plan, first, next)
    modifies db
    ensures db.log == old(db.log) + Writes(plan, workspaceId)
    ensures db.now == Replay(old(db.now), Writes(plan, workspaceId))
    ensures forall k | 0 <= k <= |Writes(plan, workspaceId)| ::
            Sound(Replay(old(db.now), Writes(plan, workspaceId)[..k]))
    ensures Written(plan, workspaceId, old(db.now), db.now)
  {
    ghost var was, writes := db.now, Writes(plan, workspaceId);
    PlanIsAccepted(was, plan, workspaceId, first, next);
    forall k | 0 <= k <= |writes| ensures Sound(Replay(was, writes[..k])) {
      EveryPrefixSound(was, writes, k);
    }
    ghost var audit := [NewAudits([AuditOf(plan, workspaceId)])];
    AcceptedJoin(was, BoardWrites(plan, workspaceId), TaskWrites(plan) + (ContentWrites(plan) + audit));
    WriteBoard(db, plan, workspaceId);
    AcceptedJoin(db.now, TaskWrites(plan), ContentWrites(plan) + audit);
    WriteTasks(db, plan);
    AcceptedJoin(db.now, ContentWrites(plan), audit);
    WriteContents(db, plan);
    AcceptedOne(db.now, NewAudits([AuditOf(plan, workspaceId)]));
    db.CreateMany(NewAudits([AuditOf(plan, workspaceId)]));
    Append4(old(db.log), BoardWrites(plan, workspaceId), TaskWrites(plan), ContentWrites(plan), audit);
  }

  lemma Append4<T>(log: seq<T>, a: seq<T>, b: seq<T>, c: seq<T>, d: seq<T>)
    ensures log + a + b + c + d == log + (a + (b + (c + d)))
  {
  }

  method WriteBoard(db: Database, plan: Plan, workspaceId: int)
    requires Accepted(db.now, BoardWrites(plan, workspaceId))
    modifies db
    ensures db.now == Replay(old(db.now), BoardWrites(plan, workspaceId))
    ensures db.log == old(db.log) + BoardWrites(plan, workspaceId)
  {
    var board := NewBoards([BoardOf(plan, workspaceId)]);
    AcceptedJoin(db.now, [board], Pieces(ColumnBatch, plan.columns) + Pieces(LabelBatch, plan.labels));
    AcceptedOne(db.now, board);
    db.CreateMany(board);
    AcceptedJoin(db.now, Pieces(ColumnBatch, plan.columns), Pieces(LabelBatch, plan.labels));
    db.CreateAll(plan.columns, ColumnBatch);
    db.CreateAll(plan.labels, LabelBatch);
    Append3(old(db.log) + [board], Pieces(ColumnBatch, plan.columns), Pieces(LabelBatch, plan.labels));
    Append3(old(db.log), [board], Pieces(ColumnBatch, plan.columns) + Pieces(LabelBatch, plan.labels));
  }

  method WriteTasks(db: Database, plan: Plan)
    requires Accepted(db.now, TaskWrites(plan))
    modifies db
    ensures db.now == Replay(old(db.now), TaskWrites(plan)) && db.log == old(db.log) + TaskWrites(plan)
  {
    AcceptedJoin(db.now, Pieces(TaskBatch, plan.tasks), Pieces(TaskLabelBatch, plan.taskLabels));
    db.CreateAll(plan.tasks, TaskBatch);
    db.CreateAll(plan.taskLabels, TaskLabelBatch);
    Append3(old(db.log), Pieces(TaskBatch, plan.tasks), Pieces(TaskLabelBatch, plan.taskLabels));
  }

  method WriteContents(db: Database, plan: Plan)
    requires Accepted(db.now, ContentWrites(plan))
    modifies db
    ensures db.now == Replay(old(db.now), ContentWrites(plan)) && db.log == old(db.log) + ContentWrites(plan)
  {
    var a, b, c := Pieces(ChecklistBatch, plan.checklists), Pieces(ItemBatch, plan.checklistItems),
        Pieces(AttachmentBatch, plan.attachments);
    AcceptedJoin(db.now, a, b + c);
    db.CreateAll(plan.checklists, ChecklistBatch);
    AcceptedJoin(db.now, b, c);
    db.CreateAll(plan.checklistItems, ItemBatch);
    db.CreateAll(plan.attachments, AttachmentBatch);
    Append3(old(db.log) + a, b, c);
    Append3(old(db.log), a, b + c);
  }

  datatype Report = Report(boardId: nat, boardName: string, imported: Counts, skipped: seq<Group>)

  /**
    Read, plan, write. A file that is not a board writes nothing; a board is imported whole, over a
    sequence of inserts of which every prefix leaves the database sound.
  */
  method ImportBoard(db: Database, workspaceId: int, parsed: Option<Json>, parsers: Parsers, first: nat)
    returns (r: Result<Report, TrelloExport.Error>, ghost w: Work, ghost plan: Plan)
    requires Sound(db.now) && Below(db.now, first)
    modifies db
    ensures r.Ok? <==> parsed.Some? && IsBoard(parsed.value)
    ensures r.Err? ==> db.now == old(db.now) && db.log == old(db.log)
    ensures r.Ok? ==>
              && Planned(ReadResult(SourceOf(parsed.value), IssuesOf(parsed.value)), parsers, first, w, plan)
              && db.log == old(db.log) + Writes(plan, workspaceId)
              && (forall k | 0 <= k <= |Writes(plan, workspaceId)| ::
                  Sound(Replay(old(db.now), Writes(plan, workspaceId)[..k])))
              && db.now == Replay(old(db.now), Writes(plan, workspaceId))
              && Written(plan, workspaceId, old(db.now), db.now)
              && r.value == Report(plan.boardId, plan.boardName, CountsOf(plan), plan.skipped)
  {
    var read := ParseTrelloExport(parsed);
    if read.Err? {
      r := Err(read.error);
      w, plan := *, *;
      return;
    }
    var p := PlanTrelloImport(read.value, parsers, first);
    w :| Planned(read.value, parsers, first, w, p);
    plan := p;
    EveryIdOnce(read.value, parsers, first, w, plan);
    PlanIsWellFormed(read.value, parsers, first, w, plan);
    WritePlan(db, workspaceId, p, first, w.ls.next);
    r := Ok(Report(p.boardId, p.boardName, CountsOf(p), p.skipped));
  }
}
