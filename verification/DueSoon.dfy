/**
  The due-soon scan (apps/api/src/notification/due-soon.worker.ts, and the matching rules of
  apps/api/src/notification/notification.service.ts): a keyset walk over the tasks falling due,
  one reminder for each assignee not told already, one signal for each recipient.
*/
module DueSoon {
  import opened Rows
  import opened Wrappers
  import Keyset

  /** 24 hours, in milliseconds: how far ahead the scan looks and how long a reminder holds. */
  const DUE_WINDOW_MS := 24 * 60 * 60 * 1000

  datatype Task = Task(id: int, workspaceId: int, dueDate: Option<int>, assignees: seq<int>)

  datatype Kind = DueSoonKind | OtherKind

  datatype Notification = Notification(workspaceId: int, userId: int, kind: Kind, taskId: int,
                                       createdAt: int, readAt: Option<int>)

  /** A row as the scan hands it to the insert. */
  datatype Draft = Draft(workspaceId: int, userId: int, taskId: int)

  function IdOf(t: Task): int { t.id }

  function PairOf(d: Draft): (int, int) { (d.userId, d.taskId) }

  function RecipientOf(d: Draft): (int, int) { (d.workspaceId, d.userId) }

  function DraftOf(n: Notification): Draft { Draft(n.workspaceId, n.userId, n.taskId) }

  function Stamped(at: int): Draft -> Notification {
    (d: Draft) => Notification(d.workspaceId, d.userId, DueSoonKind, d.taskId, at, None)
  }

  // ---- The tasks of a scan, in order ----

  function KeyOf(t: Task): (int, int) {
    (if t.dueDate.Some? then t.dueDate.value else 0, t.id)
  }

  predicate KeyBefore(a: (int, int), b: (int, int)) {
    a.0 < b.0 || (a.0 == b.0 && a.1 < b.1)
  }

  function DueBetween(now: int, until: int): Task -> bool {
    (t: Task) => t.dueDate.Some? && now < t.dueDate.value <= until && t.assignees != []
  }

  function DueTasks(tasks: seq<Task>, now: int): seq<Task> {
    Keyset.Listing(tasks, DueBetween(now, now + DUE_WINDOW_MS), KeyOf, KeyBefore)
  }

  function DuePage(tasks: seq<Task>, now: int, cursor: Option<(int, int)>, batchSize: nat): seq<Task> {
    Keyset.Page(tasks, DueBetween(now, now + DUE_WINDOW_MS), KeyOf, KeyBefore, cursor, batchSize)
  }

  function DraftFor(t: Task): int -> Draft {
    (u: int) => Draft(t.workspaceId, u, t.id)
  }

  function TaskDrafts(t: Task): seq<Draft> {
    if t.dueDate.None? then [] else Map(DraftFor(t), t.assignees)
  }

  /** One draft for each (task, assignee) pair. */
  function DraftsOf(ts: seq<Task>): seq<Draft> {
    if ts == [] then [] else DraftsOf(ts[..|ts| - 1]) + TaskDrafts(ts[|ts| - 1])
  }

  // ---- Who was told already ----

  predicate Covers(n: Notification, userId: int, taskId: int, since: int) {
    n.kind == DueSoonKind && n.userId == userId && n.taskId == taskId && (n.readAt == None || n.createdAt >= since)
  }

  predicate ShouldSkipDueSoon(notifications: seq<Notification>, userId: int, taskId: int, since: int) {
    exists n | n in notifications :: Covers(n, userId, taskId, since)
  }

  function NotTold(notifications: seq<Notification>, since: int): Draft -> bool {
    (d: Draft) => !ShouldSkipDueSoon(notifications, d.userId, d.taskId, since)
  }

  predicate UnreadFor(n: Notification, userId: int, taskId: int) {
    n.kind == DueSoonKind && n.userId == userId && n.taskId == taskId && n.readAt == None
  }

  predicate HasUnread(notifications: seq<Notification>, userId: int, taskId: int) {
    exists n | n in notifications :: UnreadFor(n, userId, taskId)
  }

  /** `createMany` with `skipDuplicates`: the partial unique index rejects a second unread reminder of a pair. */
  function InsertMany(notifications: seq<Notification>, rows: seq<Draft>, at: int): seq<Notification> {
    if rows == [] then notifications
    else
      var before, d := InsertMany(notifications, rows[..|rows| - 1], at), rows[|rows| - 1];
      if HasUnread(before, d.userId, d.taskId) then before else before + [Stamped(at)(d)]
  }

  /** The index itself: a user has at most one unread reminder of a task. */
  ghost predicate OneUnread(notifications: seq<Notification>) {
    forall i, j | 0 <= i < j < |notifications|
        && notifications[i].kind == DueSoonKind && notifications[j].kind == DueSoonKind
        && notifications[i].userId == notifications[j].userId && notifications[i].taskId == notifications[j].taskId
      :: notifications[i].readAt.Some? || notifications[j].readAt.Some?
  }

  lemma {:induction false} InsertKeepsOneUnread(notifications: seq<Notification>, rows: seq<Draft>, at: int)
    requires OneUnread(notifications)
    ensures OneUnread(InsertMany(notifications, rows, at))
    ensures notifications <= InsertMany(notifications, rows, at)
  {
    if rows != [] {
      InsertKeepsOneUnread(notifications, rows[..|rows| - 1], at);
      var before, d := InsertMany(notifications, rows[..|rows| - 1], at), rows[|rows| - 1];
      if !HasUnread(before, d.userId, d.taskId) {
        forall k | 0 <= k < |before| ensures !UnreadFor(before[k], d.userId, d.taskId) { assert before[k] in before; }
      }
    }
  }

  /** Rows nobody was told of yet, no pair twice, all go in as they are. */
  lemma {:induction false} InsertNew(notifications: seq<Notification>, rows: seq<Draft>, at: int)
    requires Distinct(Map(PairOf, rows))
    requires forall d | d in rows :: !HasUnread(notifications, d.userId, d.taskId)
    ensures InsertMany(notifications, rows, at) == notifications + Map(Stamped(at), rows)
  {
    if rows != [] {
      var before, d := rows[..|rows| - 1], rows[|rows| - 1];
      assert d in rows;
      assert forall k | 0 <= k < |before| :: Map(PairOf, before)[k] == Map(PairOf, rows)[k];
      InsertNew(notifications, before, at);
      NoTwin(rows);
      assert Map(Stamped(at), rows) == Map(Stamped(at), before) + [Stamped(at)(d)];
      forall n | n in Map(Stamped(at), before) ensures !UnreadFor(n, d.userId, d.taskId) {
        var k :| 0 <= k < |before| && Map(Stamped(at), before)[k] == n;
        assert before[k] in before;
      }
    }
  }

  ghost predicate ToldNews(news: seq<Notification>, d: Draft) {
    exists n | n in news :: n.workspaceId == d.workspaceId && n.userId == d.userId && n.taskId == d.taskId
  }

  ghost predicate UnreadReminder(notifications: seq<Notification>, d: Draft) {
    exists n | n in notifications ::
      n.kind == DueSoonKind && n.userId == d.userId && n.taskId == d.taskId && n.readAt.None?
  }

  ghost predicate AllNew(more: seq<Notification>, at: int) {
    forall n | n in more :: n.kind == DueSoonKind && n.createdAt == at && n.readAt.None?
  }

  /**
    Of drafts with different pairs the insert brings in, new and unread, exactly those whose user has
    no unread reminder of the task, and touches no other row.
  */
  lemma {:induction false} InsertedExactly(notifications: seq<Notification>, rows: seq<Draft>, at: int)
    returns (more: seq<Notification>)
    requires Distinct(Map(PairOf, rows))
    ensures InsertMany(notifications, rows, at) == notifications + more && AllNew(more, at)
    ensures forall d: Draft :: ToldNews(more, d) <==> d in rows && !UnreadReminder(notifications, d)
  {
    more := [];
    if rows != [] {
      var before, last := rows[..|rows| - 1], rows[|rows| - 1];
      assert forall k | 0 <= k < |before| :: Map(PairOf, before)[k] == Map(PairOf, rows)[k];
      NoTwin(rows);
      PrefixMore(rows, |rows| - 1);
      more := InsertedExactly(notifications, before, at);
      LastAlone(notifications, more, before, last);
      if !HasUnread(notifications + more, last.userId, last.taskId) {
        ToldLast(more, last, at);
        Append3(notifications, more, [Stamped(at)(last)]);
        more := more + [Stamped(at)(last)];
      }
    }
  }

  lemma LastAlone(notifications: seq<Notification>, more: seq<Notification>, before: seq<Draft>, last: Draft)
    requires forall d: Draft :: ToldNews(more, d) ==> d in before
    requires forall d | d in before :: PairOf(d) != PairOf(last)
    ensures HasUnread(notifications + more, last.userId, last.taskId) <==> UnreadReminder(notifications, last)
  {
    forall n | n in more ensures !UnreadFor(n, last.userId, last.taskId) {
      assert ToldNews(more, DraftOf(n));
    }
    if UnreadReminder(notifications, last) {
      var n :| n in notifications && n.kind == DueSoonKind && n.userId == last.userId && n.taskId == last.taskId
               && n.readAt.None?;
      assert n in notifications + more;
    }
  }

  lemma ToldLast(more: seq<Notification>, last: Draft, at: int)
    ensures forall d: Draft :: ToldNews(more + [Stamped(at)(last)], d) <==> ToldNews(more, d) || d == last
  {
    var n := Stamped(at)(last);
    forall d: Draft ensures ToldNews(more + [n], d) <==> ToldNews(more, d) || d == last {
      assert n in more + [n] && forall x | x in more :: x in more + [n];
      if ToldNews(more, d) {
        var x :| x in more && x.workspaceId == d.workspaceId && x.userId == d.userId && x.taskId == d.taskId;
        assert x in more + [n];
      }
    }
  }

  lemma NoTwin(rows: seq<Draft>)
    requires rows != [] && Distinct(Map(PairOf, rows))
    ensures forall d | d in rows[..|rows| - 1] :: PairOf(d) != PairOf(rows[|rows| - 1])
  {
    forall d | d in rows[..|rows| - 1] ensures PairOf(d) != PairOf(rows[|rows| - 1]) {
      var k :| 0 <= k < |rows| - 1 && rows[k] == d;
      assert Map(PairOf, rows)[k] != Map(PairOf, rows)[|rows| - 1];
    }
  }

  // ---- The worker ----

  /** Unique keys of the two tables the scan reads. */
  ghost predicate WellKeyed(tasks: seq<Task>) {
    && Distinct(Map(IdOf, tasks))
    && forall t | t in tasks :: Distinct(t.assignees)
  }

  /** What a scan adds: `news` are reminders of exactly the pairs in `ts` not told before it. */
  ghost predicate Told(was: seq<Notification>, news: seq<Notification>, ts: seq<Task>, since: int) {
    && Map(DraftOf, news) == Filter(NotTold(was, since), DraftsOf(ts))
    && (forall n | n in news :: n.kind == DueSoonKind && n.readAt == None && n.createdAt >= since + DUE_WINDOW_MS)
  }

  /** The batch's skip set against the one-pair rule, at the same cutoff. */
  ghost predicate SkipsExactly(skip: set<(int, int)>, pairs: seq<(int, int)>, notifications: seq<Notification>,
                               since: int) {
    forall u, t :: (u, t) in skip <==> (u, t) in pairs && ShouldSkipDueSoon(notifications, u, t, since)
  }

  lemma SkipOne(skip: set<(int, int)>, pairs: seq<(int, int)>, notifications: seq<Notification>, since: int, d: Draft)
    requires SkipsExactly(skip, pairs, notifications, since) && PairOf(d) in pairs
    ensures (d.userId, d.taskId) !in skip <==> NotTold(notifications, since)(d)
  {
  }

  lemma {:induction false} DraftsIn(ts: seq<Task>, t: Task)
    requires t in ts
    ensures forall d | d in TaskDrafts(t) :: d in DraftsOf(ts) && PairOf(d) in Map(PairOf, DraftsOf(ts))
  {
    var before := ts[..|ts| - 1];
    PrefixMore(ts, |ts| - 1);
    if t != ts[|ts| - 1] {
      DraftsIn(before, t);
    }
    assert forall d | d in TaskDrafts(t) :: d in DraftsOf(before) || d in TaskDrafts(ts[|ts| - 1]);
    forall d | d in TaskDrafts(t) ensures d in DraftsOf(ts) && PairOf(d) in Map(PairOf, DraftsOf(ts)) {
      assert d in DraftsOf(ts);
      var k :| 0 <= k < |DraftsOf(ts)| && DraftsOf(ts)[k] == d;
      assert Map(PairOf, DraftsOf(ts))[k] == PairOf(d);
    }
  }

  class DueSoonWorker {
    /** A scan reads the tasks and never writes one. */
    const tasks: seq<Task>
    var notifications: seq<Notification>
    /** `notification.unread_changed` signals sent, as (workspace, user). */
    var signals: multiset<(int, int)>

    constructor (tasks: seq<Task>, notifications: seq<Notification>)
      ensures this.tasks == tasks && this.notifications == notifications && signals == multiset{}
    {
      this.tasks, this.notifications, signals := tasks, notifications, multiset{};
    }

    /** The join of the pairs with the reminders that still hold. */
    method FindAlreadyNotified(pairs: seq<(int, int)>, since: int) returns (skip: set<(int, int)>)
      ensures SkipsExactly(skip, pairs, notifications, since)
      ensures forall u, t :: (u, t) in skip <==>
                (u, t) in pairs && exists n | n in notifications ::
                  && n.kind == DueSoonKind && n.userId == u && n.taskId == t
                  && (n.readAt.None? || n.createdAt >= since)
    {
      skip := set n | n in notifications && (n.userId, n.taskId) in pairs && n.kind == DueSoonKind
                      && (n.readAt == None || n.createdAt >= since) :: (n.userId, n.taskId);
    }

    method CreateMany(rows: seq<Draft>, at: int) returns (count: nat)
      modifies this`notifications
      ensures notifications == InsertMany(old(notifications), rows, at)
      ensures count == |notifications| - |old(notifications)|
    {
      count := 0;
      for i := 0 to |rows|
        invariant notifications == InsertMany(old(notifications), rows[..i], at)
        invariant count == |notifications| - |old(notifications)|
      {
        PrefixMore(rows, i);
        if !HasUnread(notifications, rows[i].userId, rows[i].taskId) {
          notifications := notifications + [Stamped(at)(rows[i])];
          count := count + 1;
        }
      }
      PrefixMore(rows, |rows|);
    }

    method NotifyBatch(batch: seq<Task>, since: int, at: int) returns (created: nat, recipients: seq<(int, int)>)
      modifies this`notifications
      ensures var rows := Filter(NotTold(old(notifications), since), DraftsOf(batch));
              && notifications == InsertMany(old(notifications), rows, at)
              && created == |notifications| - |old(notifications)|
              && recipients == if created == 0 then [] else Map(RecipientOf, rows)
    {
      var pairs := Map(PairOf, DraftsOf(batch));
      if |pairs| == 0 {
        return 0, [];
      }
      var skip := FindAlreadyNotified(pairs, since);
      var rows := BuildRows(batch, skip, since);
      if |rows| == 0 {
        return 0, [];
      }
      created := CreateMany(rows, at);
      return created, if created == 0 then [] else Map(RecipientOf, rows);
    }

    method BuildRows(batch: seq<Task>, skip: set<(int, int)>, since: int) returns (rows: seq<Draft>)
      requires SkipsExactly(skip, Map(PairOf, DraftsOf(batch)), notifications, since)
      ensures rows == Filter(NotTold(notifications, since), DraftsOf(batch))
    {
      rows := [];
      for i := 0 to |batch|
        invariant rows == Filter(NotTold(notifications, since), DraftsOf(batch[..i]))
      {
        var task := batch[i];
        PrefixMore(batch, i);
        FilterAppend(NotTold(notifications, since), DraftsOf(batch[..i]), TaskDrafts(task));
        if task.dueDate.Some? {
          DraftsIn(batch, task);
          var kept := PushRows(task, skip, since, Map(PairOf, DraftsOf(batch)));
          rows := rows + kept;
        }
      }
      PrefixMore(batch, |batch|);
    }

    /** The inner loop of a batch: one task's assignees. */
    method PushRows(task: Task, skip: set<(int, int)>, since: int, ghost pairs: seq<(int, int)>)
      returns (rows: seq<Draft>)
      requires task.dueDate.Some?
      requires forall d | d in TaskDrafts(task) :: PairOf(d) in pairs
      requires SkipsExactly(skip, pairs, notifications, since)
      ensures rows == Filter(NotTold(notifications, since), TaskDrafts(task))
    {
      rows := [];
      var drafts := TaskDrafts(task);
      for j := 0 to |task.assignees|
        invariant rows == Filter(NotTold(notifications, since), drafts[..j])
      {
        PrefixMore(drafts, j);
        var d := Draft(task.workspaceId, task.assignees[j], task.id);
        assert drafts[j] == d;
        SkipOne(skip, pairs, notifications, since, d);
        if (task.assignees[j], task.id) !in skip {
          rows := rows + [d];
        }
      }
      PrefixMore(drafts, |drafts|);
    }

    method EmitUnreadChanged(workspaceId: int, users: set<int>)
      modifies this`signals
      ensures signals == old(signals) + multiset(set u | u in users :: (workspaceId, u))
    {
      signals := signals + multiset(set u | u in users :: (workspaceId, u));
    }

    /** One signal for each (workspace, user) collected. */
    method EmitAll(recipients: map<int, set<int>>)
      modifies this`signals
      ensures signals == old(signals) + multiset(Collected(recipients, recipients.Keys))
    {
      var todo := recipients.Keys;
      while todo != {}
        invariant todo <= recipients.Keys
        invariant signals == old(signals) + multiset(Collected(recipients, recipients.Keys - todo))
        decreases |todo|
      {
        SomeElement(todo);
        var w: int :| w in todo;
        EmitUnreadChanged(w, recipients[w]);
        CollectedMore(recipients, recipients.Keys - todo, w);
        todo := todo - {w};
        assert recipients.Keys - todo == recipients.Keys - (todo + {w}) + {w};
      }
      assert recipients.Keys - todo == recipients.Keys;
    }

    method Collect(recipientsByWorkspace: map<int, set<int>>, recipients: seq<(int, int)>)
      returns (r: map<int, set<int>>)
      ensures Collected(r, r.Keys)
              == Collected(recipientsByWorkspace, recipientsByWorkspace.Keys) + (set p | p in recipients)
    {
      r := recipientsByWorkspace;
      for i := 0 to |recipients|
        invariant Collected(r, r.Keys)
                  == Collected(recipientsByWorkspace, recipientsByWorkspace.Keys) + (set p | p in recipients[..i])
      {
        PrefixMore(recipients, i);
        var (w, u) := recipients[i];
        var users := if w in r then r[w] else {};
        CollectedOne(r, w, u);
        r := r[w := users + {u}];
      }
      PrefixMore(recipients, |recipients|);
    }

    /** The query of the loop: the next tasks falling due past the cursor, when `done` are behind it. */
    method FindPage(now: int, cursor: Option<(int, int)>, batchSize: nat, ghost done: seq<Task>, ghost rest: seq<Task>)
      returns (page: seq<Task>, ghost rest': seq<Task>)
      requires WellKeyed(tasks) && DueTasks(tasks, now) == done + rest
      requires cursor == LastKey(done)
      ensures rest == page + rest'
      ensures |page| < batchSize ==> rest' == []
      ensures Distinct(Map(PairOf, DraftsOf(done + page)))
      ensures forall t | t in page :: t.dueDate.Some?
    {
      page := DuePage(tasks, now, cursor, batchSize);
      rest' := NextPage(tasks, now, batchSize, done, rest);
    }

    /** One turn of the loop: tell a page's assignees and remember who was told. */
    method ScanBatch(page: seq<Task>, since: int, at: int, recipientsByWorkspace: map<int, set<int>>,
                     ghost was: seq<Notification>, ghost news: seq<Notification>, ghost done: seq<Task>)
      returns (created: nat, r: map<int, set<int>>, ghost told: seq<Notification>)
      requires at >= since + DUE_WINDOW_MS
      requires Distinct(Map(PairOf, DraftsOf(done + page))) && Told(was, news, done, since)
      requires notifications == was + news
      requires Collected(recipientsByWorkspace, recipientsByWorkspace.Keys) == RecipientSet(news)
      modifies this`notifications
      ensures notifications == was + told && created + |news| == |told|
      ensures Told(was, told, done + page, since)
      ensures Collected(r, r.Keys) == RecipientSet(told)
    {
      ghost var more := NextBatch(was, news, done, page, since, at);
      told := news + more;
      var recipients;
      created, recipients := NotifyBatch(page, since, at);
      r := Collect(recipientsByWorkspace, recipients);
      RecipientsMore(news, more, recipients);
    }

    /**
      Run alone, a scan creates exactly one reminder for each (task, assignee) pair falling due
      that was not told already, in key order whatever the batch size, and signals each
      (workspace, user) that got one exactly once. `clock` gives the time of each batch's insert.
    */
    method RunScan(now: int, batchSize: nat, clock: nat -> int)
      returns (totalCreated: nat, ghost news: seq<Notification>)
      requires WellKeyed(tasks) && OneUnread(notifications) && batchSize > 0
      requires forall k :: clock(k) >= now
      modifies this
      ensures notifications == old(notifications) + news && totalCreated == |news|
      ensures Told(old(notifications), news, DueTasks(tasks, now), now - DUE_WINDOW_MS)
      ensures TellsExactly(tasks, old(notifications), news, now)
      ensures signals == old(signals) + multiset(set n | n in news :: (n.workspaceId, n.userId))
    {
      var since := now - DUE_WINDOW_MS;
      ghost var was := notifications;
      ghost var done, rest: seq<Task> := [], DueTasks(tasks, now);
      var cursor: Option<(int, int)> := None;
      var recipientsByWorkspace: map<int, set<int>> := map[];
      var batchCount := 0;
      totalCreated, news := 0, [];
      NothingTold(was, since);
      while true
        invariant DueTasks(tasks, now) == done + rest && cursor == LastKey(done)
        invariant notifications == was + news && totalCreated == |news|
        invariant Told(was, news, done, since)
        invariant Collected(recipientsByWorkspace, recipientsByWorkspace.Keys) == RecipientSet(news)
        invariant signals == old(signals)
        decreases |rest|
      {
        ghost var later;
        var page;
        page, later := FindPage(now, cursor, batchSize, done, rest);
        if |page| == 0 {
          break;
        }
        var created;
        created, recipientsByWorkspace,
            news := ScanBatch(page, since, clock(batchCount), recipientsByWorkspace, was, news, done);
        totalCreated := totalCreated + created;
        Append3(done, page, later);
        LastOfPage(done, page);
        done, rest := done + page, later;
        batchCount := batchCount + 1;
        if |page| < batchSize {
          break;
        }
        var last := page[|page| - 1];
        if last.dueDate.None? {
          break;
        }
        cursor := Some((last.dueDate.value, last.id));
      }
      AllDone(done, rest);
      ScanTellsExactly(tasks, now, was, news);
      EmitAll(recipientsByWorkspace);
    }
  }

  function Collected(m: map<int, set<int>>, ws: set<int>): set<(int, int)> {
    set w, u | w in ws && w in m && u in m[w] :: (w, u)
  }

  function RecipientSet(news: seq<Notification>): set<(int, int)> {
    set n | n in news :: (n.workspaceId, n.userId)
  }

  lemma SomeElement(s: set<int>)
    requires s != {}
    ensures exists w: int :: w in s
  {
    assert (forall w: int :: w !in s) ==> s == {};
  }

  lemma CollectedMore(m: map<int, set<int>>, ws: set<int>, w: int)
    requires w in m && w !in ws
    ensures multiset(Collected(m, ws + {w})) == multiset(Collected(m, ws)) + multiset(set u | u in m[w] :: (w, u))
  {
    var a, b := Collected(m, ws), set u | u in m[w] :: (w, u);
    assert Collected(m, ws + {w}) == a + b && a !! b;
  }

  lemma CollectedOne(m: map<int, set<int>>, w: int, u: int)
    ensures var users := if w in m then m[w] else {};
            var m' := m[w := users + {u}];
            Collected(m', m'.Keys) == Collected(m, m.Keys) + {(w, u)}
  {
  }

  /** The tasks falling due, as the pages will list them. */
  lemma DueFacts(tasks: seq<Task>, now: int)
    requires WellKeyed(tasks)
    ensures Keyset.StrictOrder(KeyBefore) && Distinct(Map(KeyOf, tasks))
    ensures var due := DueTasks(tasks, now);
            && Distinct(Map(IdOf, due))
            && (forall t :: t in due <==> t in tasks && DueBetween(now, now + DUE_WINDOW_MS)(t))
            && Distinct(Map(PairOf, DraftsOf(due)))
  {
    forall i, j | 0 <= i < j < |tasks| ensures KeyOf(tasks[i]) != KeyOf(tasks[j]) {
      assert Map(IdOf, tasks)[i] != Map(IdOf, tasks)[j];
    }
    Keyset.ListingFacts(tasks, DueBetween(now, now + DUE_WINDOW_MS), KeyOf, KeyBefore);
    var due := DueTasks(tasks, now);
    forall i, j | 0 <= i < j < |due| ensures due[i].id != due[j].id {
      assert due[i] in due && due[j] in due && Map(KeyOf, due)[i] != Map(KeyOf, due)[j];
      IdsApart(tasks, due[i], due[j]);
    }
    PairsDistinct(due);
  }

  lemma IdsApart(tasks: seq<Task>, x: Task, y: Task)
    requires Distinct(Map(IdOf, tasks)) && x in tasks && y in tasks && x != y
    ensures x.id != y.id
  {
    if x.id == y.id {
      KeyDetermines(IdOf, tasks, x, y);
    }
  }

  lemma DraftOrigin(ts: seq<Task>, d: Draft)
    requires d in DraftsOf(ts)
    ensures exists t :: t in ts && d in TaskDrafts(t)
  {
    if d in DraftsOf(ts[..|ts| - 1]) {
      DraftOrigin(ts[..|ts| - 1], d);
    } else {
      assert ts[|ts| - 1] in ts;
    }
  }

  lemma {:induction false} PairsDistinct(ts: seq<Task>)
    requires Distinct(Map(IdOf, ts)) && forall t | t in ts :: Distinct(t.assignees)
    ensures Distinct(Map(PairOf, DraftsOf(ts)))
  {
    if ts != [] {
      var before, t := ts[..|ts| - 1], ts[|ts| - 1];
      assert t in ts;
      assert forall k | 0 <= k < |before| :: Map(IdOf, before)[k] == Map(IdOf, ts)[k];
      PairsDistinct(before);
      forall d | d in DraftsOf(before) ensures d.taskId != t.id {
        DraftOrigin(before, d);
        var o :| o in before && d in TaskDrafts(o);
        var k :| 0 <= k < |before| && before[k] == o;
        assert Map(IdOf, ts)[k] != Map(IdOf, ts)[|ts| - 1];
      }
      DistinctJoin(DraftsOf(before), TaskDrafts(t), t.id);
    }
  }

  lemma DistinctJoin(a: seq<Draft>, b: seq<Draft>, taskId: int)
    requires Distinct(Map(PairOf, a)) && Distinct(Map(PairOf, b))
    requires (forall d | d in a :: d.taskId != taskId) && (forall d | d in b :: d.taskId == taskId)
    ensures Distinct(Map(PairOf, a + b))
  {
    forall i, j | 0 <= i < j < |a + b| ensures PairOf((a + b)[i]) != PairOf((a + b)[j]) {
      if j < |a| {
        assert Map(PairOf, a)[i] != Map(PairOf, a)[j];
      } else if i < |a| {
        assert (a + b)[i] in a && (a + b)[j] in b;
      } else {
        assert Map(PairOf, b)[i - |a|] != Map(PairOf, b)[j - |a|];
      }
    }
  }

  lemma {:induction false} DraftsAppend(a: seq<Task>, b: seq<Task>)
    ensures DraftsOf(a + b) == DraftsOf(a) + DraftsOf(b)
  {
    if b == [] {
      assert a + b == a;
    } else {
      DraftsAppend(a, b[..|b| - 1]);
      AppendLast(a, b);
      Append3(DraftsOf(a), DraftsOf(b[..|b| - 1]), TaskDrafts(b[|b| - 1]));
    }
  }

  /** The reminders inserted so far in a scan say nothing about the pairs still to come. */
  lemma EarlierBatchesDoNotMatter(was: seq<Notification>, news: seq<Notification>, since: int, done: seq<Draft>,
                                  rows: seq<Draft>)
    requires Distinct(Map(PairOf, done + rows)) && forall n | n in news :: DraftOf(n) in done
    ensures Filter(NotTold(was + news, since), rows) == Filter(NotTold(was, since), rows)
  {
    forall d | d in rows ensures NotTold(was + news, since)(d) == NotTold(was, since)(d) {
      forall n | n in news ensures PairOf(DraftOf(n)) != PairOf(d) { PairsApart(done, rows, DraftOf(n), d); }
    }
    FilterAgree(NotTold(was + news, since), NotTold(was, since), rows);
  }

  lemma PairsApart(a: seq<Draft>, b: seq<Draft>, x: Draft, y: Draft)
    requires Distinct(Map(PairOf, a + b)) && x in a && y in b
    ensures PairOf(x) != PairOf(y)
  {
    var i :| 0 <= i < |a| && a[i] == x;
    var j :| 0 <= j < |b| && b[j] == y;
    assert Map(PairOf, a + b)[i] != Map(PairOf, a + b)[|a| + j];
  }

  lemma RecipientsMore(news: seq<Notification>, more: seq<Notification>, recipients: seq<(int, int)>)
    requires recipients == Map(RecipientOf, Map(DraftOf, more))
    ensures RecipientSet(news + more) == RecipientSet(news) + (set p | p in recipients)
  {
    forall n | n in more ensures (n.workspaceId, n.userId) in recipients {
      var k :| 0 <= k < |more| && more[k] == n;
      assert recipients[k] == (n.workspaceId, n.userId);
    }
    forall p | p in recipients ensures exists n :: n in more && p == (n.workspaceId, n.userId) {
      var k :| 0 <= k < |recipients| && recipients[k] == p;
      assert more[k] in more;
    }
  }

  function LastKey(done: seq<Task>): Option<(int, int)> {
    if done == [] then None else Some(KeyOf(done[|done| - 1]))
  }

  lemma LastOfPage(done: seq<Task>, page: seq<Task>)
    requires page != [] && page[|page| - 1].dueDate.Some?
    ensures LastKey(done + page) == Some((page[|page| - 1].dueDate.value, page[|page| - 1].id))
  {
  }

  lemma DuePageIsSlice(tasks: seq<Task>, now: int, batchSize: nat, n: nat, cursor: Option<(int, int)>)
    requires WellKeyed(tasks) && n <= |DueTasks(tasks, now)|
    requires cursor == if n == 0 then None else Some(KeyOf(DueTasks(tasks, now)[n - 1]))
    ensures var due := DueTasks(tasks, now);
            DuePage(tasks, now, cursor, batchSize) == due[n..if |due| - n > batchSize then n + batchSize else |due|]
  {
    DueFacts(tasks, now);
    Keyset.PageIsSlice(tasks, DueBetween(now, now + DUE_WINDOW_MS), KeyOf, KeyBefore, n, batchSize);
  }

  /** A page asked for behind `done` is the front of `rest`. */
  lemma NextPage(tasks: seq<Task>, now: int, batchSize: nat, done: seq<Task>, rest: seq<Task>)
    returns (later: seq<Task>)
    requires WellKeyed(tasks) && DueTasks(tasks, now) == done + rest
    ensures var page := DuePage(tasks, now, LastKey(done), batchSize);
            && rest == page + later && (|page| < batchSize ==> later == [])
            && Distinct(Map(PairOf, DraftsOf(done + page)))
            && forall t | t in page :: t.dueDate.Some?
  {
    ghost var page := SlicePage(tasks, now, batchSize, DueTasks(tasks, now), done, rest);
    DueFacts(tasks, now);
    later := PageOfRest(DueTasks(tasks, now), done, rest, page, batchSize);
  }

  lemma SlicePage(tasks: seq<Task>, now: int, batchSize: nat, due: seq<Task>, done: seq<Task>, rest: seq<Task>)
    returns (page: seq<Task>)
    requires WellKeyed(tasks) && due == DueTasks(tasks, now) && due == done + rest
    ensures page == DuePage(tasks, now, LastKey(done), batchSize)
    ensures page == due[|done|..if |due| - |done| > batchSize then |done| + batchSize else |due|]
  {
    LastKeyIs(due, done, rest);
    DuePageIsSlice(tasks, now, batchSize, |done|, LastKey(done));
    page := DuePage(tasks, now, LastKey(done), batchSize);
  }

  lemma LastKeyIs(due: seq<Task>, done: seq<Task>, rest: seq<Task>)
    requires due == done + rest
    ensures LastKey(done) == if |done| == 0 then None else Some(KeyOf(due[|done| - 1]))
  {
  }

  lemma PageOfRest(due: seq<Task>, done: seq<Task>, rest: seq<Task>, page: seq<Task>, batchSize: nat)
    returns (later: seq<Task>)
    requires due == done + rest && Distinct(Map(PairOf, DraftsOf(due))) && (forall t | t in due :: t.dueDate.Some?)
    requires page == due[|done|..if |due| - |done| > batchSize then |done| + batchSize else |due|]
    ensures rest == page + later && (|page| < batchSize ==> later == [])
    ensures Distinct(Map(PairOf, DraftsOf(done + page)))
    ensures forall t | t in page :: t.dueDate.Some?
  {
    var k := if |rest| > batchSize then batchSize else |rest|;
    assert page == rest[..k];
    later := rest[k..];
    Cut(rest, k);
    Append3(done, page, later);
    DraftsAppend(done + page, later);
    DistinctFront(DraftsOf(done + page), DraftsOf(later));
    assert forall t | t in page :: t in due;
  }

  lemma Cut<T>(s: seq<T>, k: nat)
    requires k <= |s|
    ensures s == s[..k] + s[k..]
  {
  }

  lemma AllDone(done: seq<Task>, rest: seq<Task>)
    requires rest == []
    ensures done + rest == done
  {
  }

  lemma NothingTold(was: seq<Notification>, since: int)
    ensures Told(was, [], [], since) && was + [] == was
    ensures Collected(map[], {}) == RecipientSet([])
  {
  }

  /** What the insert of the next page makes of the table. */
  lemma NextBatch(was: seq<Notification>, news: seq<Notification>, done: seq<Task>, page: seq<Task>, since: int,
                  at: int)
    returns (more: seq<Notification>)
    requires at >= since + DUE_WINDOW_MS
    requires Distinct(Map(PairOf, DraftsOf(done + page))) && Told(was, news, done, since)
    ensures var rows := Filter(NotTold(was + news, since), DraftsOf(page));
            InsertMany(was + news, rows, at) == was + (news + more) && rows == Map(DraftOf, more)
    ensures Told(was, news + more, done + page, since)
  {
    DraftsAppend(done, page);
    DistinctBack(DraftsOf(done), DraftsOf(page));
    NewsFromDone(was, news, DraftsOf(done), since);
    EarlierBatchesDoNotMatter(was, news, since, DraftsOf(done), DraftsOf(page));
    more := InsertRows(was + news, DraftsOf(page), since, at);
    Append3(was, news, more);
    ToldMore(was, news, more, done, page, since);
  }

  lemma InsertRows(now: seq<Notification>, drafts: seq<Draft>, since: int, at: int) returns (more: seq<Notification>)
    requires Distinct(Map(PairOf, drafts))
    ensures var rows := Filter(NotTold(now, since), drafts);
            InsertMany(now, rows, at) == now + more && Map(DraftOf, more) == rows
    ensures forall x | x in more :: x.kind == DueSoonKind && x.readAt == None && x.createdAt == at
  {
    var rows := Filter(NotTold(now, since), drafts);
    FilterIn(NotTold(now, since), drafts);
    FilterDistinct(NotTold(now, since), PairOf, drafts);
    InsertNew(now, rows, at);
    more := Map(Stamped(at), rows);
    MapTwice(Stamped(at), DraftOf, (d: Draft) => d, rows);
    MapSame((d: Draft) => d, rows);
  }

  lemma NewsFromDone(was: seq<Notification>, news: seq<Notification>, done: seq<Draft>, since: int)
    requires Map(DraftOf, news) == Filter(NotTold(was, since), done)
    ensures forall x | x in news :: DraftOf(x) in done
  {
    FilterIn(NotTold(was, since), done);
    forall x | x in news ensures DraftOf(x) in done {
      var k :| 0 <= k < |news| && news[k] == x;
      assert Map(DraftOf, news)[k] == DraftOf(x);
    }
  }

  lemma DistinctFront(a: seq<Draft>, b: seq<Draft>)
    requires Distinct(Map(PairOf, a + b))
    ensures Distinct(Map(PairOf, a))
  {
    assert forall k | 0 <= k < |a| :: Map(PairOf, a + b)[k] == Map(PairOf, a)[k];
  }

  lemma DistinctBack(a: seq<Draft>, b: seq<Draft>)
    requires Distinct(Map(PairOf, a + b))
    ensures Distinct(Map(PairOf, b))
  {
    forall i, j | 0 <= i < j < |b| ensures PairOf(b[i]) != PairOf(b[j]) {
      assert Map(PairOf, a + b)[|a| + i] != Map(PairOf, a + b)[|a| + j];
    }
  }

  lemma ToldMore(was: seq<Notification>, news: seq<Notification>, more: seq<Notification>, done: seq<Task>,
                 page: seq<Task>, since: int)
    requires Told(was, news, done, since) && Told(was, more, page, since)
    ensures Told(was, news + more, done + page, since)
  {
    DraftsAppend(done, page);
    FilterAppend(NotTold(was, since), DraftsOf(done), DraftsOf(page));
    MapAppend(DraftOf, news, more);
  }

  lemma {:induction false} AssigneeDrafts(ts: seq<Task>, d: Draft)
    ensures d in DraftsOf(ts) <==> exists t ::
            t in ts && t.dueDate.Some? && d == Draft(t.workspaceId, d.userId, t.id) && d.userId in t.assignees
  {
    if d in DraftsOf(ts) {
      DraftOrigin(ts, d);
      var t :| t in ts && d in TaskDrafts(t);
      var k :| 0 <= k < |TaskDrafts(t)| && TaskDrafts(t)[k] == d;
      assert t.assignees[k] == d.userId;
    }
    if t :| t in ts && t.dueDate.Some? && d == Draft(t.workspaceId, d.userId, t.id) && d.userId in t.assignees {
      DraftsIn(ts, t);
      var k :| 0 <= k < |t.assignees| && t.assignees[k] == d.userId;
      assert TaskDrafts(t)[k] == d;
    }
  }

  /** A task of the draft falls due within 24 hours and its user is assigned to it. */
  ghost predicate FallsDueFor(tasks: seq<Task>, now: int, d: Draft) {
    exists t | t in tasks ::
      && t.id == d.taskId && t.workspaceId == d.workspaceId && d.userId in t.assignees
      && t.dueDate.Some? && now < t.dueDate.value <= now + 86_400_000
  }

  /** The user has a reminder of the task that is unread or not older than 24 hours. */
  ghost predicate ReminderHolds(was: seq<Notification>, now: int, d: Draft) {
    exists n | n in was ::
      && n.kind == DueSoonKind && n.userId == d.userId && n.taskId == d.taskId
      && (n.readAt.None? || n.createdAt >= now - 86_400_000)
  }

  /** Pair by pair, one unread reminder exactly when the task falls due, the user is assigned and no reminder holds. */
  ghost predicate TellsExactly(tasks: seq<Task>, was: seq<Notification>, news: seq<Notification>, now: int) {
    && (forall n | n in news :: n.kind == DueSoonKind && n.readAt.None? && n.createdAt >= now)
    && (forall d: Draft :: ToldNews(news, d) <==> FallsDueFor(tasks, now, d) && !ReminderHolds(was, now, d))
    && (forall i, j | 0 <= i < j < |news| :: news[i].userId != news[j].userId || news[i].taskId != news[j].taskId)
  }

  lemma SkipsWhatHolds(was: seq<Notification>, now: int, d: Draft)
    ensures NotTold(was, now - DUE_WINDOW_MS)(d) <==> !ReminderHolds(was, now, d)
  {
  }

  lemma DueWhatFallsDue(tasks: seq<Task>, due: seq<Task>, now: int, d: Draft)
    requires forall t :: t in due <==> t in tasks && DueBetween(now, now + DUE_WINDOW_MS)(t)
    ensures d in DraftsOf(due) <==> FallsDueFor(tasks, now, d)
  {
    AssigneeDrafts(due, d);
    if d in DraftsOf(due) {
      var t :| t in due && t.dueDate.Some? && d == Draft(t.workspaceId, d.userId, t.id) && d.userId in t.assignees;
      assert t in tasks;
    }
    if FallsDueFor(tasks, now, d) {
      var t :| t in tasks && t.id == d.taskId && t.workspaceId == d.workspaceId && d.userId in t.assignees
               && t.dueDate.Some? && now < t.dueDate.value <= now + 86_400_000;
      assert t in due && d == Draft(t.workspaceId, d.userId, t.id);
    }
  }

  lemma NewsAreDrafts(news: seq<Notification>, d: Draft)
    ensures ToldNews(news, d) <==> d in Map(DraftOf, news)
  {
    if ToldNews(news, d) {
      var n :| n in news && n.workspaceId == d.workspaceId && n.userId == d.userId && n.taskId == d.taskId;
      var k :| 0 <= k < |news| && news[k] == n;
      assert Map(DraftOf, news)[k] == d;
    }
    if d in Map(DraftOf, news) {
      var k :| 0 <= k < |news| && Map(DraftOf, news)[k] == d;
      assert news[k] in news;
    }
  }

  lemma PairTold(tasks: seq<Task>, now: int, was: seq<Notification>, news: seq<Notification>, d: Draft)
    requires WellKeyed(tasks) && Told(was, news, DueTasks(tasks, now), now - DUE_WINDOW_MS)
    ensures ToldNews(news, d) <==> FallsDueFor(tasks, now, d) && !ReminderHolds(was, now, d)
  {
    NewsAreDrafts(news, d);
    FilterIn(NotTold(was, now - DUE_WINDOW_MS), DraftsOf(DueTasks(tasks, now)));
    DueFacts(tasks, now);
    DueWhatFallsDue(tasks, DueTasks(tasks, now), now, d);
    SkipsWhatHolds(was, now, d);
  }

  lemma PairsToldOnce(news: seq<Notification>, drafts: seq<Draft>)
    requires Map(DraftOf, news) == drafts && Distinct(Map(PairOf, drafts))
    ensures forall i, j | 0 <= i < j < |news| :: news[i].userId != news[j].userId || news[i].taskId != news[j].taskId
  {
    forall i, j | 0 <= i < j < |news|
      ensures news[i].userId != news[j].userId || news[i].taskId != news[j].taskId
    {
      assert Map(PairOf, drafts)[i] != Map(PairOf, drafts)[j];
      assert drafts[i] == DraftOf(news[i]) && drafts[j] == DraftOf(news[j]);
    }
  }

  lemma ScanTellsExactly(tasks: seq<Task>, now: int, was: seq<Notification>, news: seq<Notification>)
    requires WellKeyed(tasks) && Told(was, news, DueTasks(tasks, now), now - DUE_WINDOW_MS)
    ensures TellsExactly(tasks, was, news, now)
  {
    DueFacts(tasks, now);
    FilterDistinct(NotTold(was, now - DUE_WINDOW_MS), PairOf, DraftsOf(DueTasks(tasks, now)));
    PairsToldOnce(news, Filter(NotTold(was, now - DUE_WINDOW_MS), DraftsOf(DueTasks(tasks, now))));
    forall d ensures ToldNews(news, d) <==> FallsDueFor(tasks, now, d) && !ReminderHolds(was, now, d) {
      PairTold(tasks, now, was, news, d);
    }
  }

  // ---- The order of the new reminders ----

  predicate DueNoLater(s: Task, t: Task) {
    && s.dueDate.Some? && t.dueDate.Some?
    && (s.dueDate.value < t.dueDate.value || (s.dueDate.value == t.dueDate.value && s.id <= t.id))
  }

  /** Tasks of two drafts, the first due no later than the second. */
  ghost predicate DraftsInOrder(tasks: seq<Task>, a: Draft, b: Draft) {
    forall s, t | s in tasks && t in tasks && s.id == a.taskId && t.id == b.taskId :: DueNoLater(s, t)
  }

  ghost predicate AllInOrder(tasks: seq<Task>, drafts: seq<Draft>) {
    forall i, j | 0 <= i < j < |drafts| :: DraftsInOrder(tasks, drafts[i], drafts[j])
  }

  lemma {:induction false} FilterInOrder(tasks: seq<Task>, p: Draft -> bool, drafts: seq<Draft>)
    requires AllInOrder(tasks, drafts)
    ensures AllInOrder(tasks, Filter(p, drafts))
  {
    if drafts != [] {
      var before, d := drafts[..|drafts| - 1], drafts[|drafts| - 1];
      FilterInOrder(tasks, p, before);
      FilterIn(p, before);
      forall x | x in Filter(p, before) ensures DraftsInOrder(tasks, x, d) {
        var k :| 0 <= k < |before| && before[k] == x;
        assert drafts[k] == x;
      }
    }
  }

  lemma SameTask(tasks: seq<Task>, t: Task, id: int)
    requires Distinct(Map(IdOf, tasks)) && t in tasks && t.id == id
    ensures forall s | s in tasks && s.id == id :: s == t
  {
    forall s | s in tasks && s.id == id ensures s == t { KeyDetermines(IdOf, tasks, s, t); }
  }

  lemma TasksInOrder(tasks: seq<Task>, s: Task, t: Task, a: Draft, b: Draft)
    requires Distinct(Map(IdOf, tasks)) && s in tasks && t in tasks && DueNoLater(s, t)
    requires a in TaskDrafts(s) && b in TaskDrafts(t)
    ensures DraftsInOrder(tasks, a, b)
  {
    SameTask(tasks, s, a.taskId);
    SameTask(tasks, t, b.taskId);
  }

  lemma {:induction false} DraftsFollowTasks(tasks: seq<Task>, due: seq<Task>)
    requires Distinct(Map(IdOf, tasks)) && (forall t | t in due :: t in tasks && t.dueDate.Some?)
    requires forall i, j | 0 <= i < j < |due| :: DueNoLater(due[i], due[j])
    ensures AllInOrder(tasks, DraftsOf(due))
  {
    if due != [] {
      var before, t := due[..|due| - 1], due[|due| - 1];
      assert t in due;
      DraftsFollowTasks(tasks, before);
      var a, b := DraftsOf(before), TaskDrafts(t);
      forall x, y | x in a && y in b ensures DraftsInOrder(tasks, x, y) {
        DraftOrigin(before, x);
        var s :| s in before && x in TaskDrafts(s);
        var k :| 0 <= k < |before| && before[k] == s;
        assert due[k] == s;
        TasksInOrder(tasks, s, t, x, y);
      }
      forall x, y | x in b && y in b ensures DraftsInOrder(tasks, x, y) { TasksInOrder(tasks, t, t, x, y); }
      OrderJoin(tasks, a, b);
    }
  }

  lemma OrderJoin(tasks: seq<Task>, a: seq<Draft>, b: seq<Draft>)
    requires AllInOrder(tasks, a)
    requires forall x, y | (x in a || x in b) && y in b :: DraftsInOrder(tasks, x, y)
    ensures AllInOrder(tasks, a + b)
  {
  }

  lemma DueInOrder(tasks: seq<Task>, now: int)
    requires WellKeyed(tasks)
    ensures AllInOrder(tasks, DraftsOf(DueTasks(tasks, now)))
  {
    var due := DueTasks(tasks, now);
    DueFacts(tasks, now);
    Keyset.ListingFacts(tasks, DueBetween(now, now + DUE_WINDOW_MS), KeyOf, KeyBefore);
    KeysInOrder(due);
    DraftsFollowTasks(tasks, due);
  }

  lemma KeysInOrder(due: seq<Task>)
    requires forall t | t in due :: t.dueDate.Some?
    requires forall i, j | 0 <= i < j < |due| :: KeyBefore(KeyOf(due[i]), KeyOf(due[j]))
    ensures forall i, j | 0 <= i < j < |due| :: DueNoLater(due[i], due[j])
  {
    forall i, j | 0 <= i < j < |due| ensures DueNoLater(due[i], due[j]) {
      assert due[i] in due && due[j] in due;
    }
  }

  lemma NewsInOrder(tasks: seq<Task>, news: seq<Notification>, i: nat, j: nat, s: Task, t: Task)
    requires AllInOrder(tasks, Map(DraftOf, news)) && i < j < |news|
    requires s in tasks && t in tasks && s.id == news[i].taskId && t.id == news[j].taskId
    ensures DueNoLater(s, t)
  {
    assert DraftsInOrder(tasks, Map(DraftOf, news)[i], Map(DraftOf, news)[j]);
  }

  /** New reminders stand in the order of their tasks: earlier due dates first, equal ones by task id. */
  lemma ScanTellsInOrder(tasks: seq<Task>, now: int, was: seq<Notification>, news: seq<Notification>, i: nat, j: nat,
                         s: Task, t: Task)
    requires WellKeyed(tasks) && Told(was, news, DueTasks(tasks, now), now - DUE_WINDOW_MS)
    requires i < j < |news| && s in tasks && t in tasks && s.id == news[i].taskId && t.id == news[j].taskId
    ensures s.dueDate.Some? && t.dueDate.Some?
    ensures s.dueDate.value < t.dueDate.value || (s.dueDate == t.dueDate && s.id <= t.id)
  {
    DueInOrder(tasks, now);
    FilterInOrder(tasks, NotTold(was, now - DUE_WINDOW_MS), DraftsOf(DueTasks(tasks, now)));
    NewsInOrder(tasks, news, i, j, s, t);
  }

  // ---- Runs: scanners, readers and the clock ----

  /** A scanner between the check of a batch and its insert. */
  datatype Pending = Pending(since: int, rows: seq<Draft>)

  datatype State = State(notifications: seq<Notification>, clock: int, pending: map<int, Pending>)

  datatype Event =
    | Tick(ms: nat)
    | Check(scanner: int, startedAt: int, drafts: seq<Draft>)
    | Insert(scanner: int)
    | Abandon(scanner: int)
    | MarkRead(index: nat)
    | MarkAllRead(workspaceId: int, userId: int)

  predicate Enabled(s: State, e: Event) {
    match e
    case Check(scanner, startedAt, _) => scanner !in s.pending && startedAt <= s.clock
    case Insert(scanner) => scanner in s.pending
    case MarkRead(index) => index < |s.notifications|
    case _ => true
  }

  function ReadNow(n: Notification, at: int): Notification {
    if n.readAt == None then n.(readAt := Some(at)) else n
  }

  function ReadAll(workspaceId: int, userId: int, at: int): Notification -> Notification {
    (n: Notification) => if n.workspaceId == workspaceId && n.userId == userId then ReadNow(n, at) else n
  }

  function Next(s: State, e: Event): State
    requires Enabled(s, e)
  {
    match e
    case Tick(ms) => s.(clock := s.clock + ms)
    case Check(scanner, startedAt, drafts) =>
      var since := startedAt - DUE_WINDOW_MS;
      s.(pending := s.pending[scanner := Pending(since, Filter(NotTold(s.notifications, since), drafts))])
    case Insert(scanner) =>
      s.(notifications := InsertMany(s.notifications, s.pending[scanner].rows, s.clock),
         pending := s.pending - {scanner})
    case Abandon(scanner) => s.(pending := s.pending - {scanner})
    case MarkRead(i) => s.(notifications := s.notifications[i := ReadNow(s.notifications[i], s.clock)])
    case MarkAllRead(w, u) => s.(notifications := Map(ReadAll(w, u, s.clock), s.notifications))
  }

  /** With `alone`, no scan starts a batch while another is between check and insert. */
  function Run(events: seq<Event>, alone: bool): Option<State> {
    if events == [] then Some(State([], 0, map[]))
    else
      var before, e := Run(events[..|events| - 1], alone), events[|events| - 1];
      if before.Some? && Enabled(before.value, e) && (alone && e.Check? ==> before.value.pending == map[])
      then Some(Next(before.value, e))
      else None
  }

  /** The k-th row as it was, or marked read. */
  predicate MarkedAt(a: seq<Notification>, b: seq<Notification>, k: nat)
    requires k < |a| && k < |b|
  {
    b[k] == a[k] || (b[k] == a[k].(readAt := b[k].readAt) && b[k].readAt.Some?)
  }

  lemma ReadKeepsOneUnread(a: seq<Notification>, b: seq<Notification>)
    requires OneUnread(a) && |a| == |b|
    requires forall k | 0 <= k < |a| :: MarkedAt(a, b, k)
    ensures OneUnread(b)
  {
    forall i, j | 0 <= i < j < |b|
      ensures UnreadFor(b[i], b[j].userId, b[j].taskId) ==> !UnreadFor(b[j], b[j].userId, b[j].taskId)
    {
      assert MarkedAt(a, b, i) && MarkedAt(a, b, j);
      assert UnreadFor(a[i], a[j].userId, a[j].taskId) ==> !UnreadFor(a[j], a[j].userId, a[j].taskId);
    }
  }

  /** However many scanners run, nobody ever has two unread reminders of a task. */
  lemma {:induction false} NeverTwoUnread(events: seq<Event>, alone: bool)
    requires Run(events, alone).Some?
    ensures OneUnread(Run(events, alone).value.notifications)
  {
    if events != [] {
      NeverTwoUnread(events[..|events| - 1], alone);
      var s, e := Run(events[..|events| - 1], alone).value, events[|events| - 1];
      match e
      case Insert(scanner) => InsertKeepsOneUnread(s.notifications, s.pending[scanner].rows, s.clock);
      case MarkRead(i) => ReadKeepsOneUnread(s.notifications, Next(s, e).notifications);
      case MarkAllRead(w, u) => ReadKeepsOneUnread(s.notifications, Next(s, e).notifications);
      case _ =>
    }
  }

  predicate SamePair(a: Notification, b: Notification) {
    a.kind == DueSoonKind && b.kind == DueSoonKind && a.userId == b.userId && a.taskId == b.taskId
  }

  /** Any two reminders of a pair are more than 24 hours apart. */
  ghost predicate Spaced(notifications: seq<Notification>) {
    forall i, j | 0 <= i < j < |notifications| && SamePair(notifications[i], notifications[j])
      :: notifications[j].createdAt - notifications[i].createdAt > DUE_WINDOW_MS
  }

  /** What a check established and, as long as nobody else inserts, the insert still finds. */
  ghost predicate StillDue(notifications: seq<Notification>, p: Pending) {
    forall d, n | d in p.rows && n in notifications && UnreadOrNot(n, d) :: n.readAt.Some? && n.createdAt < p.since
  }

  predicate UnreadOrNot(n: Notification, d: Draft) {
    n.kind == DueSoonKind && n.userId == d.userId && n.taskId == d.taskId
  }

  ghost predicate Calm(s: State) {
    && Spaced(s.notifications)
    && (forall a, b | a in s.pending && b in s.pending :: a == b)
    && (forall a | a in s.pending ::
        s.pending[a].since + DUE_WINDOW_MS <= s.clock && StillDue(s.notifications, s.pending[a]))
  }

  lemma {:induction false} InsertSpaced(notifications: seq<Notification>, rows: seq<Draft>, at: int)
    requires Spaced(notifications)
    requires forall d, n | d in rows && n in notifications && UnreadOrNot(n, d) :: at - n.createdAt > DUE_WINDOW_MS
    ensures var after := InsertMany(notifications, rows, at);
            && Spaced(after) && notifications <= after
            && forall k | |notifications| <= k < |after| :: after[k].readAt == None
  {
    if rows != [] {
      var before, d := rows[..|rows| - 1], rows[|rows| - 1];
      assert d in rows;
      InsertSpaced(notifications, before, at);
      var now := InsertMany(notifications, before, at);
      if !HasUnread(now, d.userId, d.taskId) {
        forall k | 0 <= k < |now| && UnreadOrNot(now[k], d) ensures at - now[k].createdAt > DUE_WINDOW_MS {
          assert now[k] in now && now[k].readAt != None by { assert !UnreadFor(now[k], d.userId, d.taskId); }
          assert now[k] in notifications;
        }
      }
    }
  }

  lemma ReadKeepsCalm(s: State, b: seq<Notification>)
    requires Calm(s) && |b| == |s.notifications|
    requires forall k | 0 <= k < |b| :: MarkedAt(s.notifications, b, k)
    ensures Calm(s.(notifications := b))
  {
    forall i, j | 0 <= i < j < |b| && SamePair(b[i], b[j]) ensures b[j].createdAt - b[i].createdAt > DUE_WINDOW_MS {
      assert MarkedAt(s.notifications, b, i) && MarkedAt(s.notifications, b, j);
      assert SamePair(s.notifications[i], s.notifications[j]);
    }
    forall a, d, n | a in s.pending && d in s.pending[a].rows && n in b && UnreadOrNot(n, d)
      ensures n.readAt.Some? && n.createdAt < s.pending[a].since
    {
      var k :| 0 <= k < |b| && b[k] == n;
      assert MarkedAt(s.notifications, b, k);
      assert s.notifications[k] in s.notifications && UnreadOrNot(s.notifications[k], d);
    }
  }

  lemma CheckKeepsCalm(s: State, scanner: int, startedAt: int, drafts: seq<Draft>)
    requires Calm(s) && s.pending == map[] && startedAt <= s.clock
    ensures Calm(Next(s, Check(scanner, startedAt, drafts)))
  {
    var since := startedAt - DUE_WINDOW_MS;
    FilterIn(NotTold(s.notifications, since), drafts);
    forall d, n | d in Filter(NotTold(s.notifications, since), drafts) && n in s.notifications && UnreadOrNot(n, d)
      ensures n.readAt.Some? && n.createdAt < since
    {
      assert !Covers(n, d.userId, d.taskId, since);
    }
  }

  /** Scans that follow one another never repeat a reminder within 24 hours, whatever is marked read in between. */
  lemma {:induction false} SequentialScansAreSpaced(events: seq<Event>)
    requires Run(events, true).Some?
    ensures Calm(Run(events, true).value)
  {
    if events != [] {
      SequentialScansAreSpaced(events[..|events| - 1]);
      var s, e := Run(events[..|events| - 1], true).value, events[|events| - 1];
      match e
      case Check(scanner, startedAt, drafts) => CheckKeepsCalm(s, scanner, startedAt, drafts);
      case Insert(scanner) => InsertSpaced(s.notifications, s.pending[scanner].rows, s.clock);
      case MarkRead(i) => ReadKeepsCalm(s, Next(s, e).notifications);
      case MarkAllRead(w, u) => ReadKeepsCalm(s, Next(s, e).notifications);
      case _ =>
    }
  }

  // ---- Scans that overlap: when the spacing holds ----

  /** At its insert, a reminder's pair has an unread row, or none of the last 24 hours. */
  ghost predicate InTime(notifications: seq<Notification>, d: Draft, at: int) {
    || (exists n | n in notifications && UnreadOrNot(n, d) :: n.readAt.None?)
    || forall n | n in notifications && UnreadOrNot(n, d) :: at - n.createdAt > DUE_WINDOW_MS
  }

  /** Rows an insert appends are its own, new and unread. */
  lemma {:induction false} InsertedRows(notifications: seq<Notification>, rows: seq<Draft>, at: int)
    ensures notifications <= InsertMany(notifications, rows, at)
    ensures forall n | n in InsertMany(notifications, rows, at) :: n in notifications || exists d ::
            d in rows && n == Stamped(at)(d)
  {
    if rows != [] {
      var before, d := rows[..|rows| - 1], rows[|rows| - 1];
      InsertedRows(notifications, before, at);
      assert d in rows && forall x | x in before :: x in rows;
    }
  }

  lemma SpacedPrefix(a: seq<Notification>, b: seq<Notification>)
    requires a <= b && Spaced(b)
    ensures Spaced(a)
  {
    assert forall k | 0 <= k < |a| :: a[k] == b[k];
  }

  lemma SpacedMore(a: seq<Notification>, n: Notification)
    requires n.kind == DueSoonKind
    ensures Spaced(a + [n])
            <==> Spaced(a) && forall x | x in a && x.kind == DueSoonKind && x.userId == n.userId && x.taskId == n.taskId
                            :: n.createdAt - x.createdAt > DUE_WINDOW_MS
  {
    var b := a + [n];
    if Spaced(b) {
      SpacedPrefix(a, b);
      forall x | x in a && x.kind == DueSoonKind && x.userId == n.userId && x.taskId == n.taskId
        ensures n.createdAt - x.createdAt > DUE_WINDOW_MS
      {
        var k :| 0 <= k < |a| && a[k] == x;
        assert SamePair(b[k], b[|a|]);
      }
    }
  }

  /** What went in before a reminder of the same insert does not change whether it is in time. */
  lemma LastInTime(notifications: seq<Notification>, before: seq<Draft>, d: Draft, at: int)
    requires forall x | x in before :: InTime(notifications, x, at)
    ensures HasUnread(InsertMany(notifications, before, at), d.userId, d.taskId) ==> InTime(notifications, d, at)
    ensures !HasUnread(InsertMany(notifications, before, at), d.userId, d.taskId) ==>
              && !HasUnread(notifications, d.userId, d.taskId)
              && forall n | UnreadOrNot(n, d) :: n in InsertMany(notifications, before, at) <==> n in notifications
  {
    var now := InsertMany(notifications, before, at);
    InsertedRows(notifications, before, at);
    forall n | n in now && n !in notifications && UnreadOrNot(n, d) ensures UnreadFor(n, d.userId, d.taskId) {
      var x :| x in before && n == Stamped(at)(x);
    }
    if HasUnread(now, d.userId, d.taskId) {
      var n :| n in now && UnreadFor(n, d.userId, d.taskId);
      if n !in notifications {
        var x :| x in before && n == Stamped(at)(x);
        assert InTime(notifications, x, at);
        assert forall y :: UnreadOrNot(y, x) == UnreadOrNot(y, d);
      }
    }
  }

  /** One insert keeps reminders of a pair 24 hours apart exactly when each of its rows is in time. */
  lemma {:induction false} InsertSpacedIff(notifications: seq<Notification>, rows: seq<Draft>, at: int)
    requires Spaced(notifications)
    ensures Spaced(InsertMany(notifications, rows, at)) <==> forall d | d in rows :: InTime(notifications, d, at)
  {
    if rows != [] {
      var before, d := rows[..|rows| - 1], rows[|rows| - 1];
      var now, after := InsertMany(notifications, before, at), InsertMany(notifications, rows, at);
      assert d in rows && forall x | x in rows :: x in before || x == d;
      InsertSpacedIff(notifications, before, at);
      InsertedRows(now, [d], at);
      if Spaced(now) {
        LastInTime(notifications, before, d, at);
        SpacedMore(now, Stamped(at)(d));
      } else if Spaced(after) {
        SpacedPrefix(now, after);
      }
    }
  }

  /** Reading a row changes neither its pair nor its time. */
  lemma ReadKeepsSpacing(a: seq<Notification>, b: seq<Notification>)
    requires |a| == |b| && forall k | 0 <= k < |a| :: MarkedAt(a, b, k)
    ensures Spaced(a) <==> Spaced(b)
  {
    forall i, j | 0 <= i < j < |a|
      ensures SamePair(a[i], a[j]) == SamePair(b[i], b[j])
              && a[j].createdAt - a[i].createdAt == b[j].createdAt - b[i].createdAt
    {
      assert MarkedAt(a, b, i) && MarkedAt(a, b, j);
    }
  }

  /** The rows of an insert are in time; nothing else a run does can bring two reminders together. */
  ghost predicate StepInTime(s: State, e: Event) {
    e.Insert? && e.scanner in s.pending ==>
      forall d | d in s.pending[e.scanner].rows :: InTime(s.notifications, d, s.clock)
  }

  ghost predicate InsertsInTime(events: seq<Event>) {
    forall k | 0 <= k < |events| && Run(events[..k], false).Some? ::
        StepInTime(Run(events[..k], false).value, events[k])
  }

  lemma StepSpacedIff(s: State, e: Event)
    requires Enabled(s, e)
    ensures Spaced(Next(s, e).notifications) <==> Spaced(s.notifications) && StepInTime(s, e)
  {
    match e
    case Insert(scanner) =>
      var rows := s.pending[scanner].rows;
      InsertedRows(s.notifications, rows, s.clock);
      if Spaced(s.notifications) {
        InsertSpacedIff(s.notifications, rows, s.clock);
      } else if Spaced(Next(s, e).notifications) {
        SpacedPrefix(s.notifications, Next(s, e).notifications);
      }
    case MarkRead(i) => ReadKeepsSpacing(s.notifications, Next(s, e).notifications);
    case MarkAllRead(w, u) => ReadKeepsSpacing(s.notifications, Next(s, e).notifications);
    case _ =>
  }

  lemma InsertsInTimeMore(events: seq<Event>)
    requires events != [] && Run(events, false).Some?
    ensures InsertsInTime(events)
            <==> && InsertsInTime(events[..|events| - 1])
                 && StepInTime(Run(events[..|events| - 1], false).value, events[|events| - 1])
  {
    var n := |events| - 1;
    var before := events[..n];
    forall k | 0 <= k <= n ensures events[..k] == before[..k] { TakeTwice(events, n, k); }
    if InsertsInTime(events) {
      forall k | 0 <= k < n && Run(before[..k], false).Some?
        ensures StepInTime(Run(before[..k], false).value, before[k]) {
        assert events[..k] == before[..k] && events[k] == before[k];
      }
      assert events[..n] == before;
    }
    if InsertsInTime(before) && StepInTime(Run(before, false).value, events[n]) {
      forall k | 0 <= k <= n && Run(events[..k], false).Some?
        ensures StepInTime(Run(events[..k], false).value, events[k]) {
        if k < n {
          assert before[k] == events[k] && events[..k] == before[..k];
        }
      }
    }
  }

  lemma TakeTwice<T>(s: seq<T>, n: nat, k: nat)
    requires k <= n <= |s|
    ensures s[..n][..k] == s[..k]
  {
  }

  /**
    Over every run of overlapping scanners, readers and the clock: any two reminders of a pair are
    more than 24 hours apart exactly when every insert was in time.
  */
  lemma {:induction false} SpacedIff(events: seq<Event>)
    requires Run(events, false).Some?
    ensures Spaced(Run(events, false).value.notifications) <==> InsertsInTime(events)
  {
    if events != [] {
      var before, e := events[..|events| - 1], events[|events| - 1];
      SpacedIff(before);
      StepSpacedIff(Run(before, false).value, e);
      InsertsInTimeMore(events);
    }
  }

  lemma OneEvent(events: seq<Event>, e: Event)
    requires Run(events, false).Some? && Enabled(Run(events, false).value, e)
    ensures Run(events + [e], false) == Some(Next(Run(events, false).value, e))
  {
    assert (events + [e])[..|events + [e]| - 1] == events;
  }

  /** A pair a scanner holds and nobody has unread is unread in some row once the scanner inserts. */
  lemma {:induction false} InsertTells(notifications: seq<Notification>, rows: seq<Draft>, at: int, d: Draft)
    returns (i: nat)
    requires d in rows && !HasUnread(notifications, d.userId, d.taskId)
    ensures var after := InsertMany(notifications, rows, at);
            i < |after| && UnreadFor(after[i], d.userId, d.taskId) && after[i].createdAt == at
  {
    var before, last := rows[..|rows| - 1], rows[|rows| - 1];
    InsertedRows(notifications, before, at);
    var now := InsertMany(notifications, before, at);
    if d in before {
      i := InsertTells(notifications, before, at, d);
    } else if HasUnread(now, d.userId, d.taskId) {
      var n :| n in now && UnreadFor(n, d.userId, d.taskId);
      i :| 0 <= i < |now| && now[i] == n;
    } else {
      i := |now|;
    }
  }

  /**
    From every state in which two scanners hold a pair nobody has unread, the first inserts, the
    reader reads the row, the second inserts: two reminders of one pair at one moment.
  */
  lemma TwoScannersRepeat(events: seq<Event>, a: int, b: int, d: Draft) returns (i: nat)
    requires Run(events, false).Some? && a != b
    requires var s := Run(events, false).value;
             && a in s.pending && b in s.pending && d in s.pending[a].rows && d in s.pending[b].rows
             && !HasUnread(s.notifications, d.userId, d.taskId)
    ensures var run := Run(events + [Insert(a)] + [MarkRead(i)] + [Insert(b)], false);
            run.Some? && !Spaced(run.value.notifications)
  {
    var s := Run(events, false).value;
    i := InsertTells(s.notifications, s.pending[a].rows, s.clock, d);
    OneEvent(events, Insert(a));
    var s1 := Next(s, Insert(a));
    NeverTwoUnread(events + [Insert(a)], false);
    OneEvent(events + [Insert(a)], MarkRead(i));
    var s2 := Next(s1, MarkRead(i));
    var n := s2.notifications[i];
    assert n in s2.notifications && UnreadOrNot(n, d) && s2.clock - n.createdAt == 0;
    forall x | x in s2.notifications ensures !UnreadFor(x, d.userId, d.taskId) {
      var k :| 0 <= k < |s2.notifications| && s2.notifications[k] == x;
      if k != i {
        OnlyOne(s1.notifications, i, k, d);
      }
    }
    assert !InTime(s2.notifications, d, s2.clock);
    OneEvent(events + [Insert(a)] + [MarkRead(i)], Insert(b));
    assert !StepInTime(s2, Insert(b));
    StepSpacedIff(s2, Insert(b));
  }

  lemma OnlyOne(notifications: seq<Notification>, i: nat, k: nat, d: Draft)
    requires OneUnread(notifications) && i < |notifications| && k < |notifications| && i != k
    ensures !(UnreadFor(notifications[i], d.userId, d.taskId) && UnreadFor(notifications[k], d.userId, d.taskId))
  {
    var lo, hi := notifications[if i < k then i else k], notifications[if i < k then k else i];
    assert UnreadFor(lo, hi.userId, hi.taskId) ==> !UnreadFor(hi, hi.userId, hi.taskId);
  }

  /** Such states there are: two scanners that check one after the other. */
  lemma TwoScannersMeet(d: Draft)
    ensures var run := Run([Check(1, 0, [d])] + [Check(2, 0, [d])], false);
            && run.Some? && run.value.notifications == []
            && 1 in run.value.pending && 2 in run.value.pending
            && run.value.pending[1].rows == [d] && run.value.pending[2].rows == [d]
  {
    var one, two, p := Check(1, 0, [d]), Check(2, 0, [d]), Pending(-DUE_WINDOW_MS, [d]);
    FilterOne(NotTold([], -DUE_WINDOW_MS), d);
    var s0 := State([], 0, map[]);
    var s1 := State([], 0, map[1 := p]);
    assert Next(s0, one) == s1;
    OneEvent([], one);
    assert [] + [one] == [one];
    assert Next(s1, two) == State([], 0, map[1 := p, 2 := p]);
    OneEvent([one], two);
  }

  // ---- The same in terms of the interleaving ----

  ghost predicate Holding(events: seq<Event>, a: int) {
    Run(events, false).Some? && a in Run(events, false).value.pending
  }

  /** From before the j-th event to now the scanner has been between a check and its insert. */
  ghost predicate HeldSince(events: seq<Event>, a: int, j: nat) {
    forall m | j <= m <= |events| :: Holding(events[..m], a)
  }

  function RowsAfter(events: seq<Event>): nat {
    if Run(events, false).Some? then |Run(events, false).value.notifications| else 0
  }

  /** The j-th event is an insert, and it brought the i-th row. */
  ghost predicate InsertedAt(events: seq<Event>, j: nat, i: nat)
    requires j < |events|
  {
    events[j].Insert? && RowsAfter(events[..j]) <= i < RowsAfter(events[..j + 1])
  }

  /** The i-th row was inserted by another scanner while this one held its batch. */
  ghost predicate ToldWhileHeld(events: seq<Event>, a: int, i: nat) {
    exists j | 0 <= j < |events| :: InsertedAt(events, j, i) && HeldSince(events, a, j)
  }

  lemma HeldLonger(before: seq<Event>, e: Event, a: int, j: nat)
    requires HeldSince(before, a, j) && Holding(before + [e], a)
    ensures HeldSince(before + [e], a, j)
  {
    var events := before + [e];
    forall m | j <= m <= |events| ensures Holding(events[..m], a) {
      if m <= |before| {
        TakeOfSum(before, e, m);
      } else {
        assert events[..m] == events;
      }
    }
  }

  lemma TakeOfSum<T>(s: seq<T>, x: T, m: nat)
    requires m <= |s|
    ensures (s + [x])[..m] == s[..m]
  {
  }

  lemma ToldStays(before: seq<Event>, e: Event, a: int, i: nat)
    requires ToldWhileHeld(before, a, i) && Holding(before + [e], a)
    ensures ToldWhileHeld(before + [e], a, i)
  {
    var j :| 0 <= j < |before| && InsertedAt(before, j, i) && HeldSince(before, a, j);
    HeldLonger(before, e, a, j);
    TakeOfSum(before, e, j);
    TakeOfSum(before, e, j + 1);
    assert InsertedAt(before + [e], j, i);
  }

  lemma ToldNow(before: seq<Event>, e: Event, a: int, i: nat)
    requires e.Insert? && Holding(before, a) && Holding(before + [e], a)
    requires RowsAfter(before) <= i < RowsAfter(before + [e])
    ensures ToldWhileHeld(before + [e], a, i)
  {
    var events := before + [e];
    assert events[..|before|] == before && events[..|before| + 1] == events;
    assert InsertedAt(events, |before|, i);
    forall m | |before| <= m <= |events| ensures Holding(events[..m], a) {
      assert m == |before| || m == |before| + 1;
    }
    assert HeldSince(events, a, |before|);
  }

  /** A row of a pair some scanner holds: read and older than that scanner's cutoff, or told while it held its batch. */
  ghost predicate Accounted(events: seq<Event>, s: State, a: int, i: nat)
    requires a in s.pending && i < |s.notifications|
  {
    || (s.notifications[i].readAt.Some? && s.notifications[i].createdAt < s.pending[a].since)
    || ToldWhileHeld(events, a, i)
  }

  ghost predicate AllAccounted(events: seq<Event>, s: State) {
    && (forall a | a in s.pending :: s.pending[a].since + DUE_WINDOW_MS <= s.clock)
    && (forall a, i, d | a in s.pending && 0 <= i < |s.notifications| && d in s.pending[a].rows
                         && UnreadOrNot(s.notifications[i], d) :: Accounted(events, s, a, i))
  }

  lemma AccountedAfterCheck(s: State, scanner: int, startedAt: int, drafts: seq<Draft>, i: nat, d: Draft)
    requires Enabled(s, Check(scanner, startedAt, drafts)) && i < |s.notifications|
    requires d in Next(s, Check(scanner, startedAt, drafts)).pending[scanner].rows && UnreadOrNot(s.notifications[i], d)
    ensures s.notifications[i].readAt.Some? && s.notifications[i].createdAt < startedAt - DUE_WINDOW_MS
  {
    var since := startedAt - DUE_WINDOW_MS;
    FilterIn(NotTold(s.notifications, since), drafts);
    assert s.notifications[i] in s.notifications && !Covers(s.notifications[i], d.userId, d.taskId, since);
  }

  /** A row that was there before the step, of a batch that was held before it. */
  lemma AccountedStays(before: seq<Event>, e: Event, s: State, s': State, a: int, i: nat)
    requires Run(before + [e], false) == Some(s') && a in s.pending && a in s'.pending && s'.pending[a] == s.pending[a]
    requires i < |s.notifications| && i < |s'.notifications| && MarkedAt(s.notifications, s'.notifications, i)
    requires Accounted(before, s, a, i)
    ensures Accounted(before + [e], s', a, i)
  {
    if ToldWhileHeld(before, a, i) {
      ToldStays(before, e, a, i);
    }
  }

  lemma StepMarks(s: State, e: Event, i: nat)
    requires Enabled(s, e) && i < |s.notifications|
    ensures i < |Next(s, e).notifications| && MarkedAt(s.notifications, Next(s, e).notifications, i)
    ensures !e.Insert? ==> |Next(s, e).notifications| == |s.notifications|
  {
    if e.Insert? {
      InsertedRows(s.notifications, s.pending[e.scanner].rows, s.clock);
    }
  }

  lemma StepAccounted(before: seq<Event>, e: Event, s: State)
    requires Run(before, false) == Some(s) && Enabled(s, e) && AllAccounted(before, s)
    requires Run(before + [e], false) == Some(Next(s, e))
    ensures AllAccounted(before + [e], Next(s, e))
  {
    var s' := Next(s, e);
    forall a, i, d | a in s'.pending && 0 <= i < |s'.notifications| && d in s'.pending[a].rows
                     && UnreadOrNot(s'.notifications[i], d)
      ensures Accounted(before + [e], s', a, i)
    {
      if e.Check? && a == e.scanner {
        AccountedAfterCheck(s, e.scanner, e.startedAt, e.drafts, i, d);
      } else if i < |s.notifications| {
        StepMarks(s, e, i);
        assert UnreadOrNot(s.notifications[i], d);
        AccountedStays(before, e, s, s', a, i);
      } else {
        NewRowTold(before, e, s, a, i);
      }
    }
  }

  lemma NewRowTold(before: seq<Event>, e: Event, s: State, a: int, i: nat)
    requires Run(before, false) == Some(s) && Enabled(s, e) && Run(before + [e], false) == Some(Next(s, e))
    requires a in Next(s, e).pending && !(e.Check? && a == e.scanner)
    requires |s.notifications| <= i < |Next(s, e).notifications|
    ensures ToldWhileHeld(before + [e], a, i)
  {
    assert e.Insert?;
    ToldNow(before, e, a, i);
  }

  lemma {:induction false} RunAccounted(events: seq<Event>)
    requires Run(events, false).Some?
    ensures AllAccounted(events, Run(events, false).value)
  {
    if events != [] {
      var before, e := events[..|events| - 1], events[|events| - 1];
      RunAccounted(before);
      assert before + [e] == events;
      StepAccounted(before, e, Run(before, false).value);
    }
  }

  /**
    A scanner is overtaken on a pair: since its check another scanner told the pair, less than 24
    hours ago, and what it told has been read.
  */
  ghost predicate Overtaken(events: seq<Event>, a: int, d: Draft) {
    && Holding(events, a)
    && var s := Run(events, false).value;
       && !HasUnread(s.notifications, d.userId, d.taskId)
       && exists i | 0 <= i < |s.notifications| ::
            && UnreadOrNot(s.notifications[i], d) && s.clock - s.notifications[i].createdAt <= DUE_WINDOW_MS
            && ToldWhileHeld(events, a, i)
  }

  lemma InTimeUnlessOvertaken(events: seq<Event>, a: int, d: Draft)
    requires Holding(events, a) && d in Run(events, false).value.pending[a].rows
    ensures var s := Run(events, false).value; InTime(s.notifications, d, s.clock) <==> !Overtaken(events, a, d)
  {
    var s := Run(events, false).value;
    RunAccounted(events);
    if !InTime(s.notifications, d, s.clock) {
      var n :| n in s.notifications && UnreadOrNot(n, d) && s.clock - n.createdAt <= DUE_WINDOW_MS;
      var i :| 0 <= i < |s.notifications| && s.notifications[i] == n;
      assert Accounted(events, s, a, i);
      assert ToldWhileHeld(events, a, i);
    }
    if Overtaken(events, a, d) {
      var i :| 0 <= i < |s.notifications| && UnreadOrNot(s.notifications[i], d)
               && s.clock - s.notifications[i].createdAt <= DUE_WINDOW_MS;
      assert s.notifications[i] in s.notifications;
    }
  }

  /** No insert of the run comes from a scanner that was overtaken on one of its pairs. */
  ghost predicate NobodyOvertaken(events: seq<Event>) {
    forall k, d | 0 <= k < |events| && events[k].Insert? && Holding(events[..k], events[k].scanner)
                  && d in Run(events[..k], false).value.pending[events[k].scanner].rows ::
      !Overtaken(events[..k], events[k].scanner, d)
  }

  /**
    Over every run of overlapping scanners, readers and the clock: two reminders of a pair are more
    than 24 hours apart exactly when no scanner is overtaken.
  */
  lemma SpacedUnlessOvertaken(events: seq<Event>)
    requires Run(events, false).Some?
    ensures Spaced(Run(events, false).value.notifications) <==> NobodyOvertaken(events)
  {
    SpacedIff(events);
    if InsertsInTime(events) {
      forall k, d | 0 <= k < |events| && events[k].Insert? && Holding(events[..k], events[k].scanner)
                    && d in Run(events[..k], false).value.pending[events[k].scanner].rows
        ensures !Overtaken(events[..k], events[k].scanner, d)
      {
        assert StepInTime(Run(events[..k], false).value, events[k]);
        InTimeUnlessOvertaken(events[..k], events[k].scanner, d);
      }
    }
    if NobodyOvertaken(events) {
      forall k | 0 <= k < |events| && Run(events[..k], false).Some?
        ensures StepInTime(Run(events[..k], false).value, events[k])
      {
        StepInTimeUnlessOvertaken(events, k);
      }
    }
  }

  lemma StepInTimeUnlessOvertaken(events: seq<Event>, k: nat)
    requires k < |events| && Run(events[..k], false).Some? && NobodyOvertaken(events)
    ensures StepInTime(Run(events[..k], false).value, events[k])
  {
    var before, e := events[..k], events[k];
    var s := Run(before, false).value;
    if e.Insert? && e.scanner in s.pending {
      forall d | d in s.pending[e.scanner].rows ensures InTime(s.notifications, d, s.clock) {
        assert !Overtaken(events[..k], events[k].scanner, d);
        InTimeUnlessOvertaken(before, e.scanner, d);
      }
    }
  }
}
