/**
  Column requests as interleaved transactions on one board (apps/api/src/board/column.service.ts).

  A create, a move or a seeding waits for the board row's lock, reads the columns, and writes when
  it commits; a move first looks its column up without the lock. A deletion takes no board lock, so
  it can slip in between another transaction's read and its commit.
*/
module ColumnTransactions {
  import opened Rows
  import opened Wrappers
  import opened Columns

  datatype Request =
    | AddColumn(id: int, prev: Option<int>)
    | MoveColumn(id: int, prev: Option<int>, next: Option<int>)
    | SeedColumns(ids: (int, int, int))
    | RemoveColumn(id: int, hasTasks: bool)

  /** None when the request went through. */
  type Outcome = Option<Error>

  datatype Phase = Waiting | Locked | Planned(read: Table, writes: Writes) | Ended(outcome: Outcome)

  datatype Txn = Txn(request: Request, phase: Phase)

  datatype Entry = Entry(tid: nat, request: Request, outcome: Outcome, locked: bool)

  /**
    A board's rows, its transactions and its lock. The last four fields only record: which
    transaction brought a column id, the requests in the order the proof puts them (those up to the
    lock holder's read, and those since), and the order in which the lock was granted.
  */
  datatype State = State(
    table: Table,
    txns: map<nat, Txn>,
    holder: Option<nat>,
    owner: map<int, Option<nat>>,
    past: seq<Entry>,
    since: seq<Entry>,
    grants: seq<nat>)

  function Log(s: State): seq<Entry> {
    s.past + s.since
  }

  // ---- One request at a time ----

  function Alone(t: Table, r: Request): Result<Table, Error> {
    match r
    case AddColumn(id, prev) => Create(t, id, prev)
    case MoveColumn(id, prev, next) => Move(t, id, prev, next)
    case SeedColumns(ids) => Defaults(t, ids)
    case RemoveColumn(id, hasTasks) => Remove(t, id, hasTasks)
  }

  function OutcomeOf(r: Result<Table, Error>): Outcome {
    if r.Ok? then None else Some(r.error)
  }

  function After(t: Table, r: Request): Table {
    var a := Alone(t, r);
    if a.Ok? then a.value else t
  }

  /** The board after running the requests one after another. */
  function Replay(t: Table, log: seq<Entry>): Table {
    if log == [] then t else After(Replay(t, log[..|log| - 1]), log[|log| - 1].request)
  }

  function NewIds(r: Request): seq<int> {
    match r
    case AddColumn(id, _) => [id]
    case SeedColumns(ids) => [ids.0, ids.1, ids.2]
    case _ => []
  }

  /** New columns have ids no other column has. */
  predicate Fits(t: Table, r: Request) {
    && (forall x | x in NewIds(r) :: x !in Map(IdOf, t))
    && (r.SeedColumns? ==> Different(r.ids))
  }

  /** Every entry ended the way its request would have ended, had it run alone right there. */
  ghost predicate Faithful(t: Table, log: seq<Entry>) {
    log != [] ==>
      var before, e := log[..|log| - 1], log[|log| - 1];
      && Faithful(t, before)
      && Fits(Replay(t, before), e.request)
      && e.outcome == OutcomeOf(Alone(Replay(t, before), e.request))
  }

  // ---- Steps ----

  datatype Step =
    | Begin(tid: nat, request: Request)
    | Lock(tid: nat)
    | Read(tid: nat)
    | Commit(tid: nat)
    | Delete(tid: nat, id: int, hasTasks: bool)

  predicate Enabled(s: State, step: Step) {
    match step
    case Begin(tid, r) =>
      && tid !in s.txns && !r.RemoveColumn?
      && (forall x | x in NewIds(r) :: x !in s.owner)
      && (r.SeedColumns? ==> Different(r.ids))
    case Lock(tid) => tid in s.txns && s.txns[tid].phase.Waiting? && s.holder == None
    case Read(tid) => tid in s.txns && s.txns[tid].phase.Locked?
    case Commit(tid) => tid in s.txns && s.txns[tid].phase.Planned?
    case Delete(tid, _, _) => tid !in s.txns
  }

  function Plan(t: Table, r: Request): Result<Writes, Error> {
    match r
    case AddColumn(id, prev) => PlanCreate(t, id, prev)
    case MoveColumn(id, prev, next) => PlanMove(t, id, prev, next)
    case SeedColumns(ids) => PlanDefaults(t, ids)
    case RemoveColumn(_, _) => Err(NotFound)
  }

  /** A transaction that read the columns and has not committed. */
  predicate Pending(s: State) {
    s.holder.Some? && s.holder.value in s.txns && s.txns[s.holder.value].phase.Planned?
  }

  function ReadBy(s: State): Table
    requires Pending(s)
  {
    s.txns[s.holder.value].phase.read
  }

  /**
    Where a request that never held the lock stands: before a pending transaction only if that one saw
    no trace of it.
  */
  function Noted(s: State, e: Entry, id: int): State {
    if Pending(s) && id in Map(IdOf, ReadBy(s)) then s.(since := s.since + [e])
    else s.(past := s.past + [e])
  }

  function WithPhase(s: State, tid: nat, p: Phase): State
    requires tid in s.txns
  {
    s.(txns := s.txns[tid := s.txns[tid].(phase := p)])
  }

  function Owned(owner: map<int, Option<nat>>, ids: seq<int>, tid: Option<nat>): map<int, Option<nat>> {
    map x | x in owner.Keys + (set y | y in ids) :: if x in ids then tid else owner[x]
  }

  /** Open a transaction; a move looks its column up first. */
  function Begun(s: State, tid: nat, r: Request): State {
    var started := s.(txns := s.txns[tid := Txn(r, Waiting)], owner := Owned(s.owner, NewIds(r), Some(tid)));
    if r.MoveColumn? && (r.id !in Map(IdOf, s.table) || OwnNeighbour(r.id, r.prev, r.next)) then
      var e := OutcomeOf(Alone(s.table, r));
      Noted(started.(txns := s.txns[tid := Txn(r, Ended(e))]), Entry(tid, r, e, false), r.id)
    else started
  }

  function Granted(s: State, tid: nat): State
    requires tid in s.txns
  {
    WithPhase(s, tid, Locked).(holder := Some(tid), grants := s.grants + [tid])
  }

  /** Read the columns and work the positions out; a request that fails here rolls back. */
  function HasRead(s: State, tid: nat): State
    requires tid in s.txns
  {
    var r := s.txns[tid].request;
    match Plan(s.table, r)
    case Ok(w) => WithPhase(s, tid, Planned(s.table, w))
    case Err(e) =>
      WithPhase(s, tid, Ended(Some(e))).(holder := None, past := s.past + [Entry(tid, r, Some(e), true)])
  }

  /** The writes touch rows that still exist; the update of a moved column fails when it is gone. */
  function Committed(s: State, tid: nat): State
    requires tid in s.txns && s.txns[tid].phase.Planned?
  {
    var r, w := s.txns[tid].request, s.txns[tid].phase.writes;
    if r.MoveColumn? && r.id !in Map(IdOf, s.table)
    then WithPhase(s, tid, Ended(Some(NotFound))).(
           holder := None, past := s.past + s.since + [Entry(tid, r, Some(NotFound), true)], since := [])
    else WithPhase(s, tid, Ended(None)).(
           holder := None, table := Apply(s.table, w), past := s.past + [Entry(tid, r, None, true)] + s.since,
               since := [])
  }

  /** The whole deletion, at the moment its row goes. */
  function Deleted(s: State, tid: nat, id: int, hasTasks: bool): State {
    var r := RemoveColumn(id, hasTasks);
    var e := OutcomeOf(Alone(s.table, r));
    Noted(s, Entry(tid, r, e, false), id).(txns := s.txns[tid := Txn(r, Ended(e))], table := After(s.table, r))
  }

  function Next(s: State, step: Step): State
    requires Enabled(s, step)
  {
    match step
    case Begin(tid, r) => Begun(s, tid, r)
    case Lock(tid) => Granted(s, tid)
    case Read(tid) => HasRead(s, tid)
    case Commit(tid) => Committed(s, tid)
    case Delete(tid, id, hasTasks) => Deleted(s, tid, id, hasTasks)
  }

  function Init(t: Table): State {
    State(t, map[], None, Owned(map[], Map(IdOf, t), None), [], [], [])
  }

  /** The state after the steps, if each of them could be taken. */
  function Run(t: Table, steps: seq<Step>): Option<State> {
    if steps == [] then Some(Init(t))
    else
      var before := Run(t, steps[..|steps| - 1]);
      if before.Some? && Enabled(before.value, steps[|steps| - 1])
      then Some(Next(before.value, steps[|steps| - 1]))
      else None
  }

  // ---- Deletions commute with a pending transaction's writes ----

  lemma AppliedIds(t: Table, w: Writes)
    ensures Map(IdOf, Apply(t, w)) == Map(IdOf, t) + Map(IdOf, w.inserted)
  {
    assert forall k | 0 <= k < |t| :: IdOf(Rewriting(w.updates)(t[k])) == t[k].id;
  }

  lemma DeleteCommutes(t: Table, w: Writes, id: int)
    requires id !in Map(IdOf, w.inserted)
    ensures Filter(OtherThan(id), Apply(t, w)) == Apply(Filter(OtherThan(id), t), w)
  {
    FilterAppend(OtherThan(id), Map(Rewriting(w.updates), t), w.inserted);
    FilterMap(OtherThan(id), Rewriting(w.updates), OtherThan(id), t);
    forall c | c in w.inserted ensures c.id != id {
      var k :| 0 <= k < |w.inserted| && w.inserted[k] == c;
      assert Map(IdOf, w.inserted)[k] == c.id;
    }
    FilterAll(OtherThan(id), w.inserted);
  }

  /** What may happen beside a transaction that has read `read`: deletions, and moves refused at the door. */
  ghost predicate QuietAt(read: Table, now: Table, r: Request) {
    match r
    case RemoveColumn(id, _) => id in Map(IdOf, read)
    case MoveColumn(id, prev, next) => id in Map(IdOf, read) && (id !in Map(IdOf, now) || OwnNeighbour(id, prev, next))
    case _ => false
  }

  ghost predicate Quiet(read: Table, log: seq<Entry>) {
    log != [] ==>
      var before, e := log[..|log| - 1], log[|log| - 1];
      Quiet(read, before) && QuietAt(read, Replay(read, before), e.request)
  }

  ghost predicate NewTo(t: Table, w: Writes) {
    forall x | x in Map(IdOf, w.inserted) :: x !in Map(IdOf, t)
  }

  lemma QuietCommutes(read: Table, now: Table, w: Writes, r: Request)
    requires QuietAt(read, now, r) && NewTo(read, w)
    requires forall x | x in Map(IdOf, now) :: x in Map(IdOf, read)
    ensures OutcomeOf(Alone(Apply(now, w), r)) == OutcomeOf(Alone(now, r))
    ensures After(Apply(now, w), r) == Apply(After(now, r), w)
    ensures Fits(Apply(now, w), r)
    ensures forall x | x in Map(IdOf, After(now, r)) :: x in Map(IdOf, read)
  {
    AppliedIds(now, w);
    if r.RemoveColumn? && r.id in Map(IdOf, now) && !r.hasTasks {
      DeleteCommutes(now, w, r.id);
      FilterOtherIds(now, r.id);
      FilterIn((x: int) => x != r.id, Map(IdOf, now));
    }
  }

  lemma {:induction false} LogCommutes(read: Table, w: Writes, log: seq<Entry>)
    requires Faithful(read, log) && Quiet(read, log) && NewTo(read, w)
    ensures Faithful(Apply(read, w), log)
    ensures Replay(Apply(read, w), log) == Apply(Replay(read, log), w)
    ensures forall x | x in Map(IdOf, Replay(read, log)) :: x in Map(IdOf, read)
  {
    if log != [] {
      var before := log[..|log| - 1];
      LogCommutes(read, w, before);
      QuietCommutes(read, Replay(read, before), w, log[|log| - 1].request);
    }
  }

  lemma {:induction false} ReplayAppend(t: Table, a: seq<Entry>, b: seq<Entry>)
    ensures Replay(t, a + b) == Replay(Replay(t, a), b)
    ensures Faithful(t, a) && Faithful(Replay(t, a), b) ==> Faithful(t, a + b)
  {
    if b == [] {
      assert a + b == a;
    } else {
      ReplayAppend(t, a, b[..|b| - 1]);
      assert (a + b)[..|a + b| - 1] == a + b[..|b| - 1];
    }
  }

  lemma OneMore(t: Table, log: seq<Entry>, e: Entry)
    ensures Replay(t, log + [e]) == After(Replay(t, log), e.request)
    ensures (Faithful(t, log) && Fits(Replay(t, log), e.request)
             && e.outcome == OutcomeOf(Alone(Replay(t, log), e.request))) ==> Faithful(t, log + [e])
    ensures Quiet(t, log) && QuietAt(t, Replay(t, log), e.request) ==> Quiet(t, log + [e])
  {
    assert (log + [e])[..|log|] == log;
  }

  // ---- The invariant ----

  predicate Open(s: State, tid: nat) {
    tid in s.txns && !s.txns[tid].phase.Ended?
  }

  /** A column on the board was there from the start or came with a transaction that is over. */
  predicate Settled(s: State, x: int) {
    && x in s.owner
    && (s.owner[x].Some? ==> s.owner[x].value in s.txns && s.txns[s.owner[x].value].phase.Ended?)
  }

  predicate WellOpen(s: State, tid: nat)
    requires tid in s.txns
  {
    var r := s.txns[tid].request;
    && !r.RemoveColumn?
    && (forall x | x in NewIds(r) :: x in s.owner && s.owner[x] == Some(tid))
    && (r.SeedColumns? ==> Different(r.ids))
    && (r.MoveColumn? ==> !OwnNeighbour(r.id, r.prev, r.next))
  }

  ghost predicate IdsInv(s: State) {
    && (forall x | x in Map(IdOf, s.table) :: Settled(s, x))
    && (Pending(s) ==> forall x | x in Map(IdOf, ReadBy(s)) :: Settled(s, x))
    && (forall tid | Open(s, tid) :: WellOpen(s, tid))
  }

  ghost predicate LockInv(s: State) {
    && (forall tid | Open(s, tid) && !s.txns[tid].phase.Waiting? :: s.holder == Some(tid))
    && (s.holder.Some? ==> Open(s, s.holder.value) && !s.txns[s.holder.value].phase.Waiting?)
  }

  ghost predicate ReplayInv(t: Table, s: State) {
    && Faithful(t, s.past)
    && (if Pending(s) then
          var read := ReadBy(s);
          && Replay(t, s.past) == read
          && Faithful(read, s.since) && Quiet(read, s.since)
          && Replay(read, s.since) == s.table
          && Plan(read, s.txns[s.holder.value].request) == Ok(s.txns[s.holder.value].phase.writes)
        else s.since == [] && Replay(t, s.past) == s.table)
  }

  /** In every state the board is what its log gives, one request after another. */
  lemma LogReplays(t: Table, s: State)
    requires ReplayInv(t, s)
    ensures Faithful(t, Log(s)) && Replay(t, Log(s)) == s.table
  {
    ReplayAppend(t, s.past, s.since);
    assert s.since == [] ==> Log(s) == s.past;
  }

  lemma {:induction false} ReadCovers(read: Table, log: seq<Entry>)
    requires Faithful(read, log) && Quiet(read, log)
    ensures forall x | x in Map(IdOf, Replay(read, log)) :: x in Map(IdOf, read)
  {
    LogCommutes(read, Writes([], []), log);
  }

  /** A request that never held the lock, noted where the invariant needs it. */
  lemma NotedReplays(t: Table, s: State, tid: nat, r: Request, s': State)
    requires ReplayInv(t, s) && (r.RemoveColumn? || r.MoveColumn?)
    requires r.MoveColumn? ==> r.id !in Map(IdOf, s.table) || OwnNeighbour(r.id, r.prev, r.next)
    requires s' == Noted(s, Entry(tid, r, OutcomeOf(Alone(s.table, r)), false), r.id).(table := After(s.table, r))
    ensures ReplayInv(t, s')
  {
    var e := Entry(tid, r, OutcomeOf(Alone(s.table, r)), false);
    if Pending(s) && r.id in Map(IdOf, ReadBy(s)) {
      OneMore(ReadBy(s), s.since, e);
    } else if Pending(s) {
      ReadCovers(ReadBy(s), s.since);
      OneMore(t, s.past, e);
    } else {
      OneMore(t, s.past, e);
    }
  }

  lemma BeginReplays(t: Table, s: State, tid: nat, r: Request)
    requires ReplayInv(t, s) && LockInv(s) && Enabled(s, Begin(tid, r))
    ensures ReplayInv(t, Begun(s, tid, r))
  {
    var e := OutcomeOf(Alone(s.table, r));
    if r.MoveColumn? && (r.id !in Map(IdOf, s.table) || OwnNeighbour(r.id, r.prev, r.next)) {
      assert Owned(s.owner, [], Some(tid)) == s.owner;
      NotedReplays(t, s.(txns := s.txns[tid := Txn(r, Ended(e))]), tid, r, Begun(s, tid, r));
    }
  }

  lemma DeleteReplays(t: Table, s: State, tid: nat, id: int, hasTasks: bool)
    requires ReplayInv(t, s) && LockInv(s) && Enabled(s, Delete(tid, id, hasTasks))
    ensures ReplayInv(t, Deleted(s, tid, id, hasTasks))
  {
    var r := RemoveColumn(id, hasTasks);
    var e := OutcomeOf(Alone(s.table, r));
    NotedReplays(t, s.(txns := s.txns[tid := Txn(r, Ended(e))]), tid, r, Deleted(s, tid, id, hasTasks));
  }

  lemma OpenIdsAreNew(s: State, tid: nat, seen: Table)
    requires Open(s, tid) && WellOpen(s, tid)
    requires forall x | x in Map(IdOf, seen) :: Settled(s, x)
    ensures Fits(seen, s.txns[tid].request)
  {
  }

  lemma ReadReplays(t: Table, s: State, tid: nat)
    requires ReplayInv(t, s) && LockInv(s) && IdsInv(s) && Enabled(s, Read(tid))
    ensures ReplayInv(t, HasRead(s, tid))
  {
    var r := s.txns[tid].request;
    assert Open(s, tid) && s.holder == Some(tid);
    OpenIdsAreNew(s, tid, s.table);
    if Plan(s.table, r).Err? {
      PlanFails(s.table, r);
      OneMore(t, s.past, Entry(tid, r, Some(Plan(s.table, r).error), true));
    }
  }

  /**
    A plan that fails is how the request alone would have failed; a moved column that is gone is not
    found either way.
  */
  lemma PlanFails(t: Table, r: Request)
    requires !r.RemoveColumn? && Plan(t, r).Err?
    requires r.MoveColumn? ==> !OwnNeighbour(r.id, r.prev, r.next)
    ensures Alone(t, r) == Err(Plan(t, r).error)
  {
  }

  lemma PlanGoesThrough(t: Table, r: Request)
    requires !r.RemoveColumn? && Plan(t, r).Ok?
    requires r.MoveColumn? ==> r.id in Map(IdOf, t) && !OwnNeighbour(r.id, r.prev, r.next)
    ensures Alone(t, r) == Ok(Apply(t, Plan(t, r).value))
  {
  }

  lemma PlannedIds(t: Table, r: Request)
    requires Plan(t, r).Ok?
    ensures Map(IdOf, Plan(t, r).value.inserted) == NewIds(r)
  {
  }

  lemma CommitReplays(t: Table, s: State, tid: nat)
    requires ReplayInv(t, s) && LockInv(s) && IdsInv(s) && Enabled(s, Commit(tid))
    ensures ReplayInv(t, Committed(s, tid))
  {
    var r, w := s.txns[tid].request, s.txns[tid].phase.writes;
    assert Open(s, tid) && s.holder == Some(tid);
    var read := ReadBy(s);
    if r.MoveColumn? && r.id !in Map(IdOf, s.table) {
      LogReplays(t, s);
      OneMore(t, s.past + s.since, Entry(tid, r, Some(NotFound), true));
    } else {
      ReadCovers(read, s.since);
      OpenIdsAreNew(s, tid, read);
      PlannedIds(read, r);
      PlanGoesThrough(read, r);
      LogCommutes(read, w, s.since);
      OneMore(t, s.past, Entry(tid, r, None, true));
      ReplayAppend(t, s.past + [Entry(tid, r, None, true)], s.since);
    }
  }

  lemma LockKept(s: State, step: Step)
    requires IdsInv(s) && LockInv(s) && Enabled(s, step)
    ensures LockInv(Next(s, step))
  {
  }

  lemma SettledKept(s: State, step: Step, x: int)
    requires Enabled(s, step) && Settled(s, x)
    ensures Settled(Next(s, step), x)
  {
  }

  lemma OpenKept(s: State, step: Step, tid: nat)
    requires IdsInv(s) && Enabled(s, step) && Open(Next(s, step), tid)
    ensures WellOpen(Next(s, step), tid)
  {
    var s' := Next(s, step);
    if step.Begin? && step.tid == tid {
      assert s'.txns[tid] == Txn(step.request, Waiting);
    } else {
      assert Open(s, tid) && WellOpen(s, tid);
      assert s'.txns[tid].request == s.txns[tid].request;
    }
  }

  lemma ReadSettled(t: Table, s: State, step: Step, x: int)
    requires IdsInv(s) && LockInv(s) && ReplayInv(t, s) && Enabled(s, step)
    requires Pending(Next(s, step)) && x in Map(IdOf, ReadBy(Next(s, step)))
    ensures Settled(Next(s, step), x)
  {
    LockKept(s, step);
    assert Settled(s, x);
    SettledKept(s, step, x);
  }

  lemma OpenStayWell(s: State, step: Step)
    requires IdsInv(s) && LockInv(s) && Enabled(s, step)
    ensures forall tid | Open(Next(s, step), tid) :: WellOpen(Next(s, step), tid)
  {
    forall tid | Open(Next(s, step), tid) ensures WellOpen(Next(s, step), tid) { OpenKept(s, step, tid); }
  }

  lemma IdsInvKept(t: Table, s: State, step: Step)
    requires IdsInv(s) && LockInv(s) && ReplayInv(t, s) && Enabled(s, step)
    ensures IdsInv(Next(s, step))
  {
    var s' := Next(s, step);
    OpenStayWell(s, step);
    forall x | x in Map(IdOf, s'.table) ensures Settled(s', x) { TableSettled(t, s, step, x); }
    if Pending(s') {
      forall x | x in Map(IdOf, ReadBy(s')) ensures Settled(s', x) { ReadSettled(t, s, step, x); }
    }
  }

  lemma TableSettled(t: Table, s: State, step: Step, x: int)
    requires IdsInv(s) && LockInv(s) && ReplayInv(t, s) && Enabled(s, step)
    requires x in Map(IdOf, Next(s, step).table)
    ensures Settled(Next(s, step), x)
  {
    if x in Map(IdOf, s.table) {
      SettledKept(s, step, x);
    } else if step.Commit? {
      var r, w := s.txns[step.tid].request, s.txns[step.tid].phase.writes;
      assert Open(s, step.tid) && s.holder == Some(step.tid) && WellOpen(s, step.tid);
      AppliedIds(s.table, w);
      PlannedIds(ReadBy(s), r);
      assert x in NewIds(r) && s.owner[x] == Some(step.tid);
    } else if step.Delete? {
      FilterOtherIds(s.table, step.id);
      FilterIn((y: int) => y != step.id, Map(IdOf, s.table));
    }
  }

  // ---- The log against the transactions and the lock ----

  function TidOf(e: Entry): int {
    e.tid
  }

  predicate IsLocked(e: Entry) {
    e.locked
  }

  function EntryOf(s: State, tid: nat, locked: bool): Entry
    requires tid in s.txns && s.txns[tid].phase.Ended?
  {
    Entry(tid, s.txns[tid].request, s.txns[tid].phase.outcome, locked)
  }

  /** The log holds every request that is over, with its outcome, once, and nothing else. */
  ghost predicate LedgerInv(s: State) {
    && (forall e | e in Log(s) :: e.tid in s.txns && s.txns[e.tid] == Txn(e.request, Ended(e.outcome)))
    && (forall tid | tid in s.txns && s.txns[tid].phase.Ended? ::
          EntryOf(s, tid, true) in Log(s) || EntryOf(s, tid, false) in Log(s))
    && Distinct(Map(TidOf, Log(s)))
  }

  /** Those that held the lock stand in the order they were granted it. */
  ghost predicate GrantInv(s: State) {
    && s.grants == Map(TidOf, Filter(IsLocked, Log(s))) + (if s.holder.Some? then [s.holder.value as int] else [])
    && (forall e | e in s.since :: !e.locked)
  }

  lemma InsertedIn(log: seq<Entry>, i: nat, e: Entry)
    requires i <= |log|
    ensures forall x :: x in InsertAt(log, i, e) <==> x in log || x == e
  {
    assert log == log[..i] + log[i..];
  }

  lemma TidsStayDistinct(log: seq<Entry>, i: nat, e: Entry)
    requires i <= |log| && Distinct(Map(TidOf, log)) && forall x | x in log :: x.tid != e.tid
    ensures Distinct(Map(TidOf, InsertAt(log, i, e)))
  {
    MapInsertAt(TidOf, log, i, e);
    forall x | x in Map(TidOf, log) ensures x != e.tid {
      var k :| 0 <= k < |log| && Map(TidOf, log)[k] == x;
      assert log[k] in log;
    }
    InsertDistinct(Map(TidOf, log), i, e.tid);
  }

  lemma LedgerGrows(s: State, s': State, i: nat, e: Entry)
    requires LedgerInv(s) && i <= |Log(s)| && Log(s') == InsertAt(Log(s), i, e)
    requires e.tid in s.txns ==> !s.txns[e.tid].phase.Ended?
    requires s'.txns == s.txns[e.tid := Txn(e.request, Ended(e.outcome))]
    ensures LedgerInv(s')
  {
    var log, log' := Log(s), Log(s');
    InsertedIn(log, i, e);
    TidsStayDistinct(log, i, e);
    forall tid | tid in s'.txns && s'.txns[tid].phase.Ended?
      ensures EntryOf(s', tid, true) in log' || EntryOf(s', tid, false) in log'
    {
      if tid == e.tid {
        assert EntryOf(s', tid, e.locked) == e;
      } else {
        assert EntryOf(s, tid, true) in log || EntryOf(s, tid, false) in log;
      }
    }
  }

  lemma LockedInserted(past: seq<Entry>, e: Entry, since: seq<Entry>)
    requires forall x | x in since :: !x.locked
    ensures Map(TidOf, Filter(IsLocked, past + [e] + since))
            == Map(TidOf, Filter(IsLocked, past + since)) + (if e.locked then [e.tid] else [])
  {
    var pe := past + [e];
    FilterAppend(IsLocked, pe, since);
    FilterAppend(IsLocked, past, since);
    FilterNone(IsLocked, since);
    assert Filter(IsLocked, pe) == Filter(IsLocked, past) + (if e.locked then [e] else []) by {
      assert pe[..|pe| - 1] == past;
    }
  }

  /** A step that ends no transaction. */
  lemma LedgerSame(s: State, s': State, tid: nat, x: Txn)
    requires LedgerInv(s) && Log(s') == Log(s) && s'.txns == s.txns[tid := x] && !x.phase.Ended?
    requires tid in s.txns ==> !s.txns[tid].phase.Ended?
    ensures LedgerInv(s')
  {
    forall u | u in s'.txns && s'.txns[u].phase.Ended?
      ensures EntryOf(s', u, true) in Log(s') || EntryOf(s', u, false) in Log(s')
    {
      assert EntryOf(s, u, true) in Log(s) || EntryOf(s, u, false) in Log(s);
    }
  }

  lemma NotedLog(s: State, e: Entry, id: int) returns (i: nat)
    ensures i <= |Log(s)| && Log(Noted(s, e, id)) == InsertAt(Log(s), i, e)
    ensures (forall x | x in s.since :: !x.locked) && !e.locked ==>
              && (forall x | x in Noted(s, e, id).since :: !x.locked)
              && Map(TidOf, Filter(IsLocked, Log(Noted(s, e, id)))) == Map(TidOf, Filter(IsLocked, Log(s)))
  {
    if Pending(s) && id in Map(IdOf, ReadBy(s)) {
      i := |Log(s)|;
      InsertLast(Log(s), e);
      assert s.past + (s.since + [e]) == Log(s) + [e];
      if !e.locked {
        LockedInserted(Log(s), e, []);
        assert Log(s) + [e] + [] == Log(s) + [e] && Log(s) + [] == Log(s);
      }
    } else {
      i := |s.past|;
      InsertBetween(s.past, e, s.since);
      if (forall x | x in s.since :: !x.locked) && !e.locked {
        LockedInserted(s.past, e, s.since);
      }
    }
  }

  lemma InsertLast<T>(s: seq<T>, x: T)
    ensures InsertAt(s, |s|, x) == s + [x]
  {
  }

  lemma InsertBetween<T>(a: seq<T>, x: T, b: seq<T>)
    ensures InsertAt(a + b, |a|, x) == a + [x] + b
  {
  }

  /** Closing an entry that held the lock: it is granted before anything noted since. */
  lemma ClosedEarly(s: State, s': State, e: Entry)
    requires LedgerInv(s) && GrantInv(s) && s.holder == Some(e.tid) && e.locked
    requires e.tid in s.txns ==> !s.txns[e.tid].phase.Ended?
    requires s'.txns == s.txns[e.tid := Txn(e.request, Ended(e.outcome))]
    requires s'.since == [] && s'.holder == None && s'.grants == s.grants
    requires s'.past == s.past + [e] + s.since
    ensures LedgerInv(s') && GrantInv(s')
  {
    assert Log(s') == s.past + [e] + s.since;
    assert LedgerInv(s') by {
      InsertBetween(s.past, e, s.since);
      LedgerGrows(s, s', |s.past|, e);
    }
    assert GrantInv(s') by { LockedInserted(s.past, e, s.since); }
  }

  lemma ClosedLate(s: State, s': State, e: Entry)
    requires LedgerInv(s) && GrantInv(s) && s.holder == Some(e.tid) && e.locked
    requires e.tid in s.txns ==> !s.txns[e.tid].phase.Ended?
    requires s'.txns == s.txns[e.tid := Txn(e.request, Ended(e.outcome))]
    requires s'.since == [] && s'.holder == None && s'.grants == s.grants
    requires s'.past == s.past + s.since + [e]
    ensures LedgerInv(s') && GrantInv(s')
  {
    var log := Log(s);
    assert Log(s') == log + [e];
    assert LedgerInv(s') by {
      InsertLast(log, e);
      LedgerGrows(s, s', |log|, e);
    }
    assert GrantInv(s') by {
      LockedInserted(log, e, []);
      NothingSince(log, e);
    }
  }

  lemma NothingSince<T>(a: seq<T>, x: T)
    ensures a + [x] + [] == a + [x] && a + [] == a
  {
  }

  lemma NotedCloses(s: State, s': State, e: Entry, id: int)
    requires LedgerInv(s) && GrantInv(s) && !e.locked && e.tid !in s.txns
    requires s'.txns == s.txns[e.tid := Txn(e.request, Ended(e.outcome))]
    requires s'.past == Noted(s, e, id).past && s'.since == Noted(s, e, id).since
    requires s'.holder == s.holder && s'.grants == s.grants
    ensures LedgerInv(s') && GrantInv(s')
  {
    var i := NotedLog(s, e, id);
    assert Log(s') == Log(Noted(s, e, id));
    LedgerGrows(s, s', i, e);
  }

  lemma BeginLedger(s: State, tid: nat, r: Request)
    requires LedgerInv(s) && GrantInv(s) && Enabled(s, Begin(tid, r))
    ensures LedgerInv(Begun(s, tid, r)) && GrantInv(Begun(s, tid, r))
  {
    var s' := Begun(s, tid, r);
    if s'.txns[tid].phase.Ended? {
      var e := Entry(tid, r, s'.txns[tid].phase.outcome, false);
      var o := s.(txns := s.txns[tid := Txn(r, Ended(e.outcome))], owner := Owned(s.owner, NewIds(r), Some(tid)));
      NotedAlike(s, o, e, r.id);
      NotedCloses(s, s', e, r.id);
    } else {
      LedgerSame(s, s', tid, Txn(r, Waiting));
    }
  }

  /** Where an entry is noted depends on the pending transaction alone. */
  lemma NotedAlike(s: State, o: State, e: Entry, id: int)
    requires o.past == s.past && o.since == s.since && o.holder == s.holder
    requires e.tid !in s.txns && o.txns == s.txns[e.tid := Txn(e.request, Ended(e.outcome))]
    ensures Noted(o, e, id).past == Noted(s, e, id).past && Noted(o, e, id).since == Noted(s, e, id).since
  {
  }

  lemma ReadLedger(t: Table, s: State, tid: nat)
    requires LedgerInv(s) && GrantInv(s) && LockInv(s) && ReplayInv(t, s) && Enabled(s, Read(tid))
    ensures LedgerInv(HasRead(s, tid)) && GrantInv(HasRead(s, tid))
  {
    var s' := HasRead(s, tid);
    assert Open(s, tid) && s.holder == Some(tid) && s.since == [];
    if s'.txns[tid].phase.Ended? {
      var e := Entry(tid, s.txns[tid].request, s'.txns[tid].phase.outcome, true);
      NothingSince(s.past, e);
      ClosedEarly(s, s', e);
    } else {
      LedgerSame(s, s', tid, s'.txns[tid]);
    }
  }

  lemma CommitLedger(s: State, tid: nat)
    requires LedgerInv(s) && GrantInv(s) && LockInv(s) && Enabled(s, Commit(tid))
    ensures LedgerInv(Committed(s, tid)) && GrantInv(Committed(s, tid))
  {
    var s' := Committed(s, tid);
    assert Open(s, tid) && s.holder == Some(tid);
    var e := Entry(tid, s.txns[tid].request, s'.txns[tid].phase.outcome, true);
    if e.outcome == None {
      ClosedEarly(s, s', e);
    } else {
      ClosedLate(s, s', e);
    }
  }

  lemma LockLedger(s: State, tid: nat)
    requires LedgerInv(s) && GrantInv(s) && Enabled(s, Lock(tid))
    ensures LedgerInv(Granted(s, tid)) && GrantInv(Granted(s, tid))
  {
    LedgerSame(s, Granted(s, tid), tid, Txn(s.txns[tid].request, Locked));
  }

  lemma DeleteLedger(s: State, tid: nat, id: int, hasTasks: bool)
    requires LedgerInv(s) && GrantInv(s) && Enabled(s, Delete(tid, id, hasTasks))
    ensures LedgerInv(Deleted(s, tid, id, hasTasks)) && GrantInv(Deleted(s, tid, id, hasTasks))
  {
    var s' := Deleted(s, tid, id, hasTasks);
    NotedCloses(s, s', Entry(tid, RemoveColumn(id, hasTasks), s'.txns[tid].phase.outcome, false), id);
  }

  ghost predicate Inv(t: Table, s: State) {
    IdsInv(s) && LockInv(s) && ReplayInv(t, s) && LedgerInv(s) && GrantInv(s)
  }

  lemma InitHolds(t: Table)
    ensures Inv(t, Init(t))
  {
  }

  lemma StepKeeps(t: Table, s: State, step: Step)
    requires Inv(t, s) && Enabled(s, step)
    ensures Inv(t, Next(s, step))
  {
    IdsInvKept(t, s, step);
    LockKept(s, step);
    match step
    case Begin(tid, r) => BeginReplays(t, s, tid, r); BeginLedger(s, tid, r);
    case Lock(tid) => LockLedger(s, tid);
    case Read(tid) => ReadReplays(t, s, tid); ReadLedger(t, s, tid);
    case Commit(tid) => CommitReplays(t, s, tid); CommitLedger(s, tid);
    case Delete(tid, id, hasTasks) =>
      DeleteReplays(t, s, tid, id, hasTasks);
      DeleteLedger(s, tid, id, hasTasks);
  }

  lemma {:induction false} RunKeeps(t: Table, steps: seq<Step>)
    requires Run(t, steps).Some?
    ensures Inv(t, Run(t, steps).value)
  {
    if steps == [] {
      InitHolds(t);
    } else {
      RunKeeps(t, steps[..|steps| - 1]);
      StepKeeps(t, Run(t, steps[..|steps| - 1]).value, steps[|steps| - 1]);
    }
  }

  // ---- Results ----

  function ListAlone(o: seq<int>, r: Request): Result<seq<int>, Error> {
    match r
    case AddColumn(id, prev) => ListCreate(o, id, prev)
    case MoveColumn(id, prev, next) => ListMove(o, id, prev, next)
    case SeedColumns(ids) => ListDefaults(o, ids)
    case RemoveColumn(id, hasTasks) => ListRemove(o, id, hasTasks)
  }

  function ListReplay(o: seq<int>, log: seq<Entry>): seq<int> {
    if log == [] then o
    else
      var before := ListReplay(o, log[..|log| - 1]);
      var a := ListAlone(before, log[|log| - 1].request);
      if a.Ok? then a.value else before
  }

  lemma AloneRefines(t: Table, r: Request)
    requires Valid(t) && Fits(t, r)
    ensures Shows(Alone(t, r), ListAlone(Order(t), r))
  {
    match r
    case AddColumn(id, prev) => assert id in NewIds(r); CreateRefines(t, id, prev);
    case MoveColumn(id, prev, next) => MoveRefines(t, id, prev, next);
    case SeedColumns(ids) => DefaultsRefines(t, ids);
    case RemoveColumn(id, hasTasks) => RemoveRefines(t, id, hasTasks);
  }

  lemma SeededGapped(t: Table, ids: (int, int, int))
    requires Valid(t) && Different(ids) && Defaults(t, ids).Ok?
    ensures Gapped(Listed(Defaults(t, ids).value))
  {
    DefaultsRefines(t, ids);
    DefaultsGapped(ids);
  }

  lemma DefaultsGapped(ids: (int, int, int))
    ensures Gapped(DefaultColumns(ids))
  {
  }

  lemma AloneGapped(t: Table, r: Request)
    requires Valid(t) && Fits(t, r) && Gapped(Listed(t))
    ensures Gapped(Listed(After(t, r)))
  {
    if Alone(t, r).Ok? {
      match r
      case AddColumn(id, prev) => CreateGapped(t, id, prev);
      case MoveColumn(id, prev, next) => MoveGapped(t, id, prev, next);
      case SeedColumns(ids) => SeededGapped(t, ids);
      case RemoveColumn(id, hasTasks) => RemoveGapped(t, id, hasTasks);
    }
  }

  lemma {:induction false} LogRefines(t: Table, log: seq<Entry>)
    requires Valid(t) && Faithful(t, log)
    ensures Valid(Replay(t, log)) && Order(Replay(t, log)) == ListReplay(Order(t), log)
    ensures Gapped(Listed(t)) ==> Gapped(Listed(Replay(t, log)))
  {
    if log != [] {
      var before, r := log[..|log| - 1], log[|log| - 1].request;
      LogRefines(t, before);
      AloneRefines(Replay(t, before), r);
      if Gapped(Listed(t)) {
        AloneGapped(Replay(t, before), r);
      }
    }
  }

  /**
    Whatever the interleaving, deletions included: every request that is over stands once in a log
    of requests run one after another, each ending as it did and the last leaving the board as it
    is; those that held the lock stand in the order it was granted.
  */
  lemma Serializable(t: Table, steps: seq<Step>)
    requires Run(t, steps).Some?
    ensures var s := Run(t, steps).value;
            && Faithful(t, Log(s)) && Replay(t, Log(s)) == s.table
            && LedgerInv(s) && GrantInv(s)
  {
    RunKeeps(t, steps);
    LogReplays(t, Run(t, steps).value);
  }

  /**
    At every moment the board lists what inserting, moving and deleting in a plain list gives, and no
    gap is used up.
  */
  lemma BoardFollowsList(t: Table, steps: seq<Step>)
    requires Valid(t) && Run(t, steps).Some?
    ensures var s := Run(t, steps).value;
            && Valid(s.table) && Order(s.table) == ListReplay(Order(t), Log(s))
            && (Gapped(Listed(t)) ==> Gapped(Listed(s.table)))
  {
    Serializable(t, steps);
    LogRefines(t, Log(Run(t, steps).value));
  }

  predicate Succeeded(e: Entry) {
    e.outcome == None
  }

  predicate Deletes(e: Entry, id: int) {
    e.request.RemoveColumn? && e.request.id == id && Succeeded(e)
  }

  lemma AfterKeeps(t: Table, e: Entry, id: int)
    requires e.outcome == OutcomeOf(Alone(t, e.request)) && !Deletes(e, id) && id in Map(IdOf, t)
    ensures id in Map(IdOf, After(t, e.request))
  {
    match e.request
    case AddColumn(_, prev) => if Succeeded(e) { AppliedIds(t, PlanCreate(t, e.request.id, prev).value); }
    case MoveColumn(_, prev, next) =>
      if Succeeded(e) { AppliedIds(t, PlanMove(t, e.request.id, prev, next).value); }
    case SeedColumns(ids) =>
    case RemoveColumn(other, _) =>
      FilterOtherIds(t, other);
      FilterIn((x: int) => x != other, Map(IdOf, t));
  }

  /** A column leaves only by being deleted. */
  lemma {:induction false} StaysUnlessDeleted(t: Table, log: seq<Entry>, id: int)
    requires Faithful(t, log) && id in Map(IdOf, t) && id !in Map(IdOf, Replay(t, log))
    ensures exists k :: 0 <= k < |log| && Deletes(log[k], id)
  {
    var before, e := log[..|log| - 1], log[|log| - 1];
    if id !in Map(IdOf, Replay(t, before)) {
      StaysUnlessDeleted(t, before, id);
      var k :| 0 <= k < |before| && Deletes(before[k], id);
      assert Deletes(log[k], id);
    } else if !Deletes(e, id) {
      AfterKeeps(Replay(t, before), e, id);
    }
  }

  lemma {:induction false} FaithfulParts(t: Table, a: seq<Entry>, b: seq<Entry>)
    requires Faithful(t, a + b)
    ensures Faithful(t, a) && Faithful(Replay(t, a), b) && Replay(t, a + b) == Replay(Replay(t, a), b)
  {
    if b == [] {
      assert a + b == a;
    } else {
      assert (a + b)[..|a + b| - 1] == a + b[..|b| - 1];
      FaithfulParts(t, a, b[..|b| - 1]);
      ReplayAppend(t, a, b[..|b| - 1]);
    }
  }

  lemma {:induction false} FaithfulPrefix(t: Table, log: seq<Entry>, n: nat)
    requires Faithful(t, log) && n <= |log|
    ensures Faithful(t, log[..n])
    decreases |log|
  {
    if n < |log| {
      FaithfulPrefix(t, log[..|log| - 1], n);
      assert log[..|log| - 1][..n] == log[..n];
    } else {
      assert log[..n] == log;
    }
  }

  lemma SeedsEmpty(t: Table, ids: (int, int, int))
    requires Defaults(t, ids).Ok?
    ensures t == [] && Map(IdOf, Defaults(t, ids).value) == [ids.0, ids.1, ids.2]
  {
    DefaultsApplied(ids);
    assert Defaults(t, ids).value == DefaultColumns(ids);
    DefaultIds(ids);
  }

  lemma DefaultIds(ids: (int, int, int))
    ensures Map(IdOf, DefaultColumns(ids)) == [ids.0, ids.1, ids.2]
  {
  }

  lemma LastSeeding(t: Table, before: seq<Entry>, e: Entry)
    requires Faithful(t, before + [e]) && Succeeded(e) && e.request.SeedColumns?
    ensures Replay(t, before) == []
    ensures forall id | id in NewIds(e.request) :: id in Map(IdOf, Replay(t, before + [e]))
  {
    assert (before + [e])[..|before + [e]| - 1] == before;
    SeedsEmpty(Replay(t, before), e.request.ids);
  }

  /** A seeding that goes through finds the board empty and leaves its own columns on it. */
  lemma SeedFacts(t: Table, log: seq<Entry>, i: nat)
    requires Faithful(t, log) && i < |log| && Succeeded(log[i]) && log[i].request.SeedColumns?
    ensures Replay(t, log[..i]) == []
    ensures forall id | id in NewIds(log[i].request) :: id in Map(IdOf, Replay(t, log[..i + 1]))
  {
    FaithfulPrefix(t, log, i + 1);
    PrefixMore(log, i);
    LastSeeding(t, log[..i], log[i]);
  }

  /**
    Default columns are never doubled: between two seedings that both went through, each column
    the first one brought was deleted.
  */
  lemma SeededAgainOnlyWhenEmptied(t: Table, log: seq<Entry>, i: nat, j: nat, id: int)
    requires Faithful(t, log) && i < j < |log| && Succeeded(log[i]) && Succeeded(log[j])
    requires log[i].request.SeedColumns? && log[j].request.SeedColumns? && id in NewIds(log[i].request)
    ensures exists k :: i < k < j && Deletes(log[k], id)
  {
    SeedFacts(t, log, i);
    SeedFacts(t, log, j);
    FaithfulPrefix(t, log, j);
    var k := DeletedBetween(t, log, i + 1, j, id);
  }

  lemma Slices<T>(s: seq<T>, i: nat, j: nat)
    requires i <= j <= |s|
    ensures s[..j] == s[..i] + s[i..j]
    ensures forall k | 0 <= k < j - i :: s[i..j][k] == s[i + k]
  {
  }

  lemma DeletedWithin(t: Table, all: seq<Entry>, first: seq<Entry>, between: seq<Entry>, id: int) returns (k: nat)
    requires all == first + between && Faithful(t, all)
    requires id in Map(IdOf, Replay(t, first)) && Replay(t, all) == []
    ensures k < |between| && Deletes(between[k], id)
  {
    FaithfulParts(t, first, between);
    StaysUnlessDeleted(Replay(t, first), between, id);
    k :| 0 <= k < |between| && Deletes(between[k], id);
  }

  lemma DeletedBetween(t: Table, log: seq<Entry>, n: nat, j: nat, id: int) returns (k: nat)
    requires n <= j <= |log| && Faithful(t, log[..j])
    requires id in Map(IdOf, Replay(t, log[..n])) && Replay(t, log[..j]) == []
    ensures n <= k < j && Deletes(log[k], id)
  {
    var all, first, between := log[..j], log[..n], log[n..j];
    Slices(log, n, j);
    var m := DeletedWithin(t, all, first, between, id);
    k := n + m;
  }

  /** A transaction that seeded the board and went through. */
  predicate Seeded(s: State, tid: nat) {
    tid in s.txns && s.txns[tid].request.SeedColumns? && s.txns[tid].phase == Ended(None)
  }

  /** A deletion of a column that went through. */
  predicate Removed(s: State, id: int) {
    exists d :: d in s.txns && s.txns[d].request.RemoveColumn? && s.txns[d].request.id == id
        && s.txns[d].phase == Ended(None)
  }

  /** Every column a seeding brought was deleted. */
  predicate Emptied(s: State, tid: nat)
    requires tid in s.txns
  {
    forall id | id in NewIds(s.txns[tid].request) :: Removed(s, id)
  }

  lemma StandsInLog(s: State, tid: nat) returns (i: nat)
    requires LedgerInv(s) && tid in s.txns && s.txns[tid].phase.Ended?
    ensures i < |Log(s)| && Log(s)[i].tid == tid
    ensures s.txns[tid] == Txn(Log(s)[i].request, Ended(Log(s)[i].outcome))
  {
    var e :| e in Log(s) && e.tid == tid;
    i :| 0 <= i < |Log(s)| && Log(s)[i] == e;
  }

  lemma DeletedInLog(s: State, k: nat, id: int)
    requires LedgerInv(s) && k < |Log(s)| && Deletes(Log(s)[k], id)
    ensures Removed(s, id)
  {
    var e := Log(s)[k];
    assert e in Log(s);
    assert s.txns[e.tid] == Txn(e.request, Ended(None));
  }

  /** All of one seeding's columns were deleted when another stands behind it. */
  lemma EarlierSeedingEmptied(t: Table, s: State, i: nat, j: nat)
    requires LedgerInv(s) && Faithful(t, Log(s)) && i < j < |Log(s)|
    requires Succeeded(Log(s)[i]) && Log(s)[i].request.SeedColumns?
    requires Succeeded(Log(s)[j]) && Log(s)[j].request.SeedColumns?
    ensures forall id | id in NewIds(Log(s)[i].request) :: Removed(s, id)
  {
    var log := Log(s);
    forall id | id in NewIds(log[i].request) ensures Removed(s, id) {
      SeededAgainOnlyWhenEmptied(t, log, i, j, id);
      var k :| i < k < j && Deletes(log[k], id);
      DeletedInLog(s, k, id);
    }
  }

  /**
    Over every run: of two transactions that both seeded the board, one had all its columns deleted
    by requests of that run.
  */
  lemma NeverDoublySeeded(t: Table, steps: seq<Step>, a: nat, b: nat)
    requires Run(t, steps).Some? && a != b && Seeded(Run(t, steps).value, a) && Seeded(Run(t, steps).value, b)
    ensures var s := Run(t, steps).value;
            Emptied(s, a) || Emptied(s, b)
  {
    Serializable(t, steps);
    var s := Run(t, steps).value;
    var i := SeedingStands(s, a);
    var j := SeedingStands(s, b);
    TwoSeedings(t, s, a, i, b, j);
  }

  /** What stands in the log for a seeding that went through. */
  predicate SeedingAt(s: State, tid: nat, i: nat) {
    && Seeded(s, tid) && i < |Log(s)| && Succeeded(Log(s)[i]) && Log(s)[i].request == s.txns[tid].request
  }

  lemma SeedingStands(s: State, tid: nat) returns (i: nat)
    requires LedgerInv(s) && Seeded(s, tid)
    ensures SeedingAt(s, tid, i) && Log(s)[i].tid == tid
  {
    i := StandsInLog(s, tid);
  }

  lemma EarlierEmptied(t: Table, s: State, a: nat, i: nat, b: nat, j: nat)
    requires LedgerInv(s) && Faithful(t, Log(s)) && SeedingAt(s, a, i) && SeedingAt(s, b, j) && i < j
    ensures Emptied(s, a)
  {
    EarlierSeedingEmptied(t, s, i, j);
  }

  lemma TwoSeedings(t: Table, s: State, a: nat, i: nat, b: nat, j: nat)
    requires LedgerInv(s) && Faithful(t, Log(s)) && SeedingAt(s, a, i) && SeedingAt(s, b, j) && i != j
    ensures Emptied(s, a) || Emptied(s, b)
  {
    if i < j {
      EarlierEmptied(t, s, a, i, b, j);
    } else {
      EarlierEmptied(t, s, b, j, a, i);
    }
  }
}
