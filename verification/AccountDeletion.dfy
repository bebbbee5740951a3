/**
  Erasing an account (apps/api/src/account/account-deletion.service.ts): the user row becomes a
  tombstone, every workspace only they own is handed over or deleted, and all of it commits or
  none of it does.
*/
module AccountDeletion {
  import opened Rows
  import opened Text
  import opened Wrappers
  import Redaction

  type Comment = Redaction.Comment

  const COMMENT_REDACTION_PAGE := 500
  const ANONYMOUS_USER_NAME := "Deleted user"

  datatype Role = OWNER | ADMIN | MEMBER | GUEST

  datatype User = User(id: string, email: string, name: string, deletedAt: Option<int>)

  datatype Member = Member(workspaceId: int, userId: string, role: Role)

  datatype ActivityType = AccountDeleted | MemberRoleChanged | OtherActivity

  /** An audit row with the parts of its payload the deletion reads or writes. */
  datatype Activity = Activity(workspaceId: int, userId: string, kind: ActivityType,
                               target: Option<string>, targetName: Option<string>, previousRole: Option<Role>)

  datatype Assignment = Assignment(workspaceId: int, taskId: int, userId: string)

  datatype Invitation = Invitation(workspaceId: int, inviterId: string, pending: bool)

  datatype Notification = Notification(workspaceId: int, userId: string)

  datatype UsagePing = UsagePing(workspaceId: int, userId: string)

  datatype Session = Session(userId: string)

  /** A sign-in method of a user. */
  datatype Provider = Provider(userId: string)

  datatype Tables = Tables(
    users: seq<User>,
    workspaces: seq<int>,
    members: seq<Member>,
    assignments: seq<Assignment>,
    comments: seq<Comment>,
    activities: seq<Activity>,
    invitations: seq<Invitation>,
    notifications: seq<Notification>,
    usagePings: seq<UsagePing>,
    sessions: seq<Session>,
    providers: seq<Provider>,
    verifications: seq<string>)

  /** The new owner a `delete` may also name is read by nobody. */
  datatype Action = Transfer(newOwner: Option<string>) | Delete(newOwner: Option<string>)

  datatype Disposition = Disposition(workspaceId: int, action: Action)

  datatype Error = NotFound | Forbidden | Conflict

  datatype Counts = Counts(
    workspacesTransferred: nat,
    workspacesDeleted: nat,
    membershipsRemoved: nat,
    assignmentsRemoved: nat,
    invitationsRevoked: nat,
    commentsRedacted: nat,
    activitiesRedacted: nat,
    notificationsDeleted: nat,
    usagePingsDeleted: nat,
    sessionsDeleted: nat,
    accountsDeleted: nat,
    verificationsDeleted: nat)

  // ---- Columns ----

  function WorkspaceOf(m: Member): int { m.workspaceId }

  function KeyOf(m: Member): (int, string) { (m.workspaceId, m.userId) }

  function UserIdOf(u: User): string { u.id }

  function CommentWorkspace(c: Comment): int { c.workspaceId }

  function ActivityWorkspace(a: Activity): int { a.workspaceId }

  function AssignmentWorkspace(a: Assignment): int { a.workspaceId }

  function InvitationWorkspace(i: Invitation): int { i.workspaceId }

  function NotificationWorkspace(n: Notification): int { n.workspaceId }

  function PingWorkspace(p: UsagePing): int { p.workspaceId }

  function Itself(w: int): int { w }

  function DecidedFor(d: Disposition): int { d.workspaceId }

  // ---- `where` clauses ----

  function OfUser(userId: string): Member -> bool {
    (m: Member) => m.userId == userId
  }

  function NotOfUser(userId: string): Member -> bool {
    (m: Member) => m.userId != userId
  }

  function OwnerOf(workspaceId: int): Member -> bool {
    (m: Member) => m.workspaceId == workspaceId && m.role == OWNER
  }

  function Named(workspaceId: int, userId: string): Member -> bool {
    (m: Member) => m.workspaceId == workspaceId && m.userId == userId
  }

  function WithId(userId: string): User -> bool {
    (u: User) => u.id == userId
  }

  function Outside<T>(workspace: T -> int, gone: set<int>): T -> bool {
    (x: T) => workspace(x) !in gone
  }

  function First<T>(s: seq<T>): Option<T> {
    if s == [] then None else Some(s[0])
  }

  function FindMember(members: seq<Member>, workspaceId: int, userId: string): Option<Member> {
    First(Filter(Named(workspaceId, userId), members))
  }

  function FindUser(users: seq<User>, userId: string): Option<User> {
    First(Filter(WithId(userId), users))
  }

  predicate Live(users: seq<User>, userId: string) {
    FindUser(users, userId).Some? && FindUser(users, userId).value.deletedAt == None
  }

  // ---- Who needs a decision ----

  predicate ByWorkspace(a: Member, b: Member) {
    a.workspaceId <= b.workspaceId
  }

  function Memberships(t: Tables, userId: string): seq<Member> {
    Sort(ByWorkspace, Filter(OfUser(userId), t.members))
  }

  predicate IsSoleOwner(members: seq<Member>, m: Member) {
    m.role == OWNER && |Filter(OwnerOf(m.workspaceId), members)| <= 1
  }

  function Sole(members: seq<Member>, wanted: bool): Member -> bool {
    (m: Member) => IsSoleOwner(members, m) == wanted
  }

  function SoleOwned(t: Tables, userId: string): seq<Member> {
    Filter(Sole(t.members, true), Memberships(t, userId))
  }

  function OtherMemberships(t: Tables, userId: string): seq<Member> {
    Filter(Sole(t.members, false), Memberships(t, userId))
  }

  function Decided(ds: seq<Disposition>): map<int, Action> {
    if ds == [] then map[] else Decided(ds[..|ds| - 1])[ds[|ds| - 1].workspaceId := ds[|ds| - 1].action]
  }

  /** One decision for each workspace that needs one, and no other decision. */
  ghost predicate DecidesExactly(ds: seq<Disposition>, soleOwned: seq<Member>) {
    && Distinct(Map(DecidedFor, ds))
    && forall w :: w in Map(DecidedFor, ds) <==> w in Map(WorkspaceOf, soleOwned)
  }

  // ---- What the transaction does ----

  function PromoteOne(workspaceId: int, userId: string): Member -> Member {
    (m: Member) => if m.workspaceId == workspaceId && m.userId == userId then m.(role := OWNER) else m
  }

  function RoleChanged(m: Member, target: Member, name: string, userId: string): Activity {
    Activity(m.workspaceId, userId, MemberRoleChanged, Some(target.userId), Some(name), Some(target.role))
  }

  function TransferOwnership(t: Tables, m: Member, newOwner: string, userId: string): Result<Tables, Error> {
    var target, user := FindMember(t.members, m.workspaceId, newOwner), FindUser(t.users, newOwner);
    if target.None? || user.None? || newOwner == userId then Err(NotFound)
    else if user.value.deletedAt != None then Err(Conflict)
    else Ok(t.(members := Map(PromoteOne(m.workspaceId, newOwner), t.members),
               activities := t.activities + [RoleChanged(m, target.value, user.value.name, userId)]))
  }

  /** The workspace row and everything the foreign keys cascade to. */
  function DeleteWorkspaces(t: Tables, gone: set<int>): Tables {
    t.(workspaces := Filter(Outside(Itself, gone), t.workspaces),
       members := Filter(Outside(WorkspaceOf, gone), t.members),
       assignments := Filter(Outside(AssignmentWorkspace, gone), t.assignments),
       comments := Filter(Outside(CommentWorkspace, gone), t.comments),
       activities := Filter(Outside(ActivityWorkspace, gone), t.activities),
       invitations := Filter(Outside(InvitationWorkspace, gone), t.invitations),
       notifications := Filter(Outside(NotificationWorkspace, gone), t.notifications),
       usagePings := Filter(Outside(PingWorkspace, gone), t.usagePings))
  }

  function Settle(t: Tables, m: Member, decisions: map<int, Action>, userId: string): Result<Tables, Error> {
    if m.workspaceId !in decisions then Err(Conflict)
    else
      match decisions[m.workspaceId]
      case Transfer(Some(newOwner)) => TransferOwnership(t, m, newOwner, userId)
      case Transfer(None) => Err(Conflict)
      case Delete(_) => Ok(DeleteWorkspaces(t, {m.workspaceId}))
  }

  function SettleAll(t: Tables, s: seq<Member>, decisions: map<int, Action>, userId: string): Result<Tables, Error> {
    if s == [] then Ok(t)
    else
      match SettleAll(t, s[..|s| - 1], decisions, userId)
      case Err(e) => Err(e)
      case Ok(before) => Settle(before, s[|s| - 1], decisions, userId)
  }

  function HandedOver(decisions: map<int, Action>): Member -> bool {
    (m: Member) => m.workspaceId in decisions && decisions[m.workspaceId].Transfer?
  }

  function Dropped(decisions: map<int, Action>): Member -> bool {
    (m: Member) => m.workspaceId in decisions && decisions[m.workspaceId].Delete?
  }

  /** The memberships whose workspace outlives the request. */
  function Surviving(t: Tables, userId: string, decisions: map<int, Action>): seq<Member> {
    Filter(HandedOver(decisions), SoleOwned(t, userId)) + OtherMemberships(t, userId)
  }

  function Farewell(userId: string): Member -> Activity {
    (m: Member) => Activity(m.workspaceId, userId, AccountDeleted, Some(userId), None, Some(m.role))
  }

  predicate NamesUser(a: Activity, userId: string) {
    a.target == Some(userId) && a.targetName.Some?
  }

  function RedactActivity(userId: string): Activity -> Activity {
    (a: Activity) => if NamesUser(a, userId) then a.(targetName := Some(ANONYMOUS_USER_NAME)) else a
  }

  function AnonymisedEmail(userId: string): string {
    "deleted-" + userId + "@deleted.invalid"
  }

  function Anonymised(userId: string, now: int): User -> User {
    (u: User) => if u.id == userId then User(u.id, AnonymisedEmail(userId), ANONYMOUS_USER_NAME, Some(now)) else u
  }

  function RedactComment(userId: string): Comment -> Comment {
    (c: Comment) => Redaction.RedactRow(c, userId)
  }

  function NotAssignedTo(userId: string): Assignment -> bool {
    (a: Assignment) => a.userId != userId
  }

  function NotSessionOf(userId: string): Session -> bool {
    (s: Session) => s.userId != userId
  }

  /** Pending invitations only; an answered one is history. */
  function NotPendingFrom(userId: string): Invitation -> bool {
    (i: Invitation) => !(i.inviterId == userId && i.pending)
  }

  function NotNotificationOf(userId: string): Notification -> bool {
    (n: Notification) => n.userId != userId
  }

  function NotPingOf(userId: string): UsagePing -> bool {
    (p: UsagePing) => p.userId != userId
  }

  function NotProviderOf(userId: string): Provider -> bool {
    (p: Provider) => p.userId != userId
  }

  function NotNaming(email: string): string -> bool {
    (identifier: string) => !Redaction.Contains(identifier, email)
  }

  function EmailOf(users: seq<User>, userId: string): string {
    if FindUser(users, userId).Some? then FindUser(users, userId).value.email else []
  }

  /** Everything after the sole-owned workspaces are dealt with. */
  function Finish(t: Tables, surviving: seq<Member>, userId: string, now: int): Tables {
    t.(users := Map(Anonymised(userId, now), t.users),
       members := Filter(NotOfUser(userId), t.members),
       assignments := Filter(NotAssignedTo(userId), t.assignments),
       comments := Map(RedactComment(userId), t.comments),
       activities := Map(RedactActivity(userId), t.activities + Map(Farewell(userId), surviving)),
       invitations := Filter(NotPendingFrom(userId), t.invitations),
       notifications := Filter(NotNotificationOf(userId), t.notifications),
       usagePings := Filter(NotPingOf(userId), t.usagePings),
       sessions := Filter(NotSessionOf(userId), t.sessions),
       providers := Filter(NotProviderOf(userId), t.providers),
       verifications := Filter(NotNaming(EmailOf(t.users, userId)), t.verifications))
  }

  predicate Confirms(t: Tables, userId: string, confirmEmail: string, lower: string -> string) {
    FindUser(t.users, userId).Some? && lower(Trim(confirmEmail)) == lower(Trim(FindUser(t.users, userId).value.email))
  }

  ghost function DeleteAccount(t: Tables, userId: string, confirmEmail: string, ds: seq<Disposition>,
                               lower: string -> string, now: int): Result<Tables, Error>
  {
    if !Live(t.users, userId) then Err(NotFound)
    else if !Confirms(t, userId, confirmEmail, lower) then Err(Forbidden)
    else if !DecidesExactly(ds, SoleOwned(t, userId)) then Err(Conflict)
    else
      match SettleAll(t, SoleOwned(t, userId), Decided(ds), userId)
      case Err(e) => Err(e)
      case Ok(settled) => Ok(Finish(settled, Surviving(t, userId, Decided(ds)), userId, now))
  }

  // ---- The workspaces in one pass ----

  function Doomed(s: seq<Member>, decisions: map<int, Action>): set<int> {
    set m | m in s && Dropped(decisions)(m) :: m.workspaceId
  }

  /** The member a decision hands one of these workspaces to. */
  predicate Heir(s: seq<Member>, decisions: map<int, Action>, m: Member) {
    && m.workspaceId in Map(WorkspaceOf, s)
    && m.workspaceId in decisions && decisions[m.workspaceId] == Transfer(Some(m.userId))
  }

  function Promote(s: seq<Member>, decisions: map<int, Action>): Member -> Member {
    (m: Member) => if Heir(s, decisions, m) then m.(role := OWNER) else m
  }

  /** What can be done about one membership, judged on the tables the request started from. */
  predicate CanSettle(t: Tables, m: Member, decisions: map<int, Action>, userId: string) {
    && m.workspaceId in decisions
    && (decisions[m.workspaceId].Transfer? ==>
          && decisions[m.workspaceId].newOwner.Some?
          && decisions[m.workspaceId].newOwner.value != userId
          && FindMember(t.members, m.workspaceId, decisions[m.workspaceId].newOwner.value).Some?
          && Live(t.users, decisions[m.workspaceId].newOwner.value))
  }

  function Promotion(t: Tables, m: Member, decisions: map<int, Action>, userId: string): seq<Activity> {
    if CanSettle(t, m, decisions, userId) && decisions[m.workspaceId].Transfer? then
      var newOwner := decisions[m.workspaceId].newOwner.value;
      [RoleChanged(m, FindMember(t.members, m.workspaceId, newOwner).value, FindUser(t.users, newOwner).value.name,
                   userId)]
    else []
  }

  function Promotions(t: Tables, s: seq<Member>, decisions: map<int, Action>, userId: string): seq<Activity> {
    if s == [] then []
    else Promotions(t, s[..|s| - 1], decisions, userId) + Promotion(t, s[|s| - 1], decisions, userId)
  }

  /** The loop's effect without the loop: drop the doomed workspaces, promote the heirs, record each promotion. */
  function Settled(t: Tables, s: seq<Member>, decisions: map<int, Action>, userId: string): Tables {
    var kept := DeleteWorkspaces(t, Doomed(s, decisions));
    kept.(members := Map(Promote(s, decisions), kept.members),
          activities := kept.activities + Promotions(t, s, decisions, userId))
  }

  lemma OutsideTwice<T>(workspace: T -> int, a: set<int>, b: set<int>, s: seq<T>)
    ensures Filter(Outside(workspace, b), Filter(Outside(workspace, a), s)) == Filter(Outside(workspace, a + b), s)
  {
    FilterTwice(Outside(workspace, a), Outside(workspace, b), Outside(workspace, a + b), s);
  }

  lemma OutsideNone<T>(workspace: T -> int, s: seq<T>)
    ensures Filter(Outside(workspace, {}), s) == s
  {
    FilterAll(Outside(workspace, {}), s);
  }

  lemma DoomedMore(s: seq<Member>, decisions: map<int, Action>)
    requires s != []
    ensures Doomed(s, decisions)
            == Doomed(s[..|s| - 1], decisions)
               + (if Dropped(decisions)(s[|s| - 1]) then {s[|s| - 1].workspaceId} else {})
    ensures forall w :: w in Map(WorkspaceOf, s) <==> w in Map(WorkspaceOf, s[..|s| - 1]) || w == s[|s| - 1].workspaceId
  {
    assert s == s[..|s| - 1] + [s[|s| - 1]];
    assert Map(WorkspaceOf, s) == Map(WorkspaceOf, s[..|s| - 1]) + [s[|s| - 1].workspaceId];
  }

  lemma DoomedWorkspaces(s: seq<Member>, decisions: map<int, Action>)
    ensures forall w | w in Doomed(s, decisions) :: w in Map(WorkspaceOf, s) && w in decisions && decisions[w].Delete?
  {
    forall w | w in Doomed(s, decisions) ensures w in Map(WorkspaceOf, s) {
      var m :| m in s && m.workspaceId == w && Dropped(decisions)(m);
      var k :| 0 <= k < |s| && s[k] == m;
      assert Map(WorkspaceOf, s)[k] == w;
    }
  }

  /** Settling other workspaces leaves a membership as it can be found. */
  lemma StillFound(t: Tables, s: seq<Member>, decisions: map<int, Action>, userId: string, w: int, u: string)
    requires w !in Map(WorkspaceOf, s)
    ensures FindMember(Settled(t, s, decisions, userId).members, w, u) == FindMember(t.members, w, u)
  {
    DoomedWorkspaces(s, decisions);
    StillNamed(t.members, Doomed(s, decisions), s, decisions, w, u);
  }

  lemma StillNamed(members: seq<Member>, gone: set<int>, s: seq<Member>, decisions: map<int, Action>, w: int, u: string)
    requires w !in gone && w !in Map(WorkspaceOf, s)
    ensures Filter(Named(w, u), Map(Promote(s, decisions), Filter(Outside(WorkspaceOf, gone), members)))
            == Filter(Named(w, u), members)
  {
    var kept := Filter(Outside(WorkspaceOf, gone), members);
    FilterMap(Named(w, u), Promote(s, decisions), Named(w, u), kept);
    FilterTwice(Outside(WorkspaceOf, gone), Named(w, u), Named(w, u), members);
    FilterIn(Named(w, u), kept);
    MapSame(Promote(s, decisions), Filter(Named(w, u), kept));
  }

  /** Nobody's decision is mistaken for another's: each workspace is settled on its own. */
  lemma SettleNext(t: Tables, s: seq<Member>, decisions: map<int, Action>, userId: string)
    requires s != [] && Distinct(Map(WorkspaceOf, s))
    ensures var before := s[..|s| - 1];
            var next := Settle(Settled(t, before, decisions, userId), s[|s| - 1], decisions, userId);
            && next.Ok? == CanSettle(t, s[|s| - 1], decisions, userId)
            && (next.Ok? ==> next.value == Settled(t, s, decisions, userId))
  {
    var before, m := s[..|s| - 1], s[|s| - 1];
    assert m.workspaceId !in Map(WorkspaceOf, before) by {
      assert forall k | 0 <= k < |before| :: Map(WorkspaceOf, before)[k] == Map(WorkspaceOf, s)[k];
      assert Map(WorkspaceOf, s)[|s| - 1] == m.workspaceId;
    }
    DoomedMore(s, decisions);
    if m.workspaceId in decisions {
      match decisions[m.workspaceId]
      case Delete(_) => SettleDelete(t, before, m, s, decisions, userId);
      case Transfer(Some(newOwner)) => SettleTransfer(t, before, m, s, decisions, userId, newOwner);
      case Transfer(None) =>
    }
  }

  lemma SettleTransfer(t: Tables, before: seq<Member>, m: Member, s: seq<Member>, decisions: map<int, Action>,
                       userId: string, newOwner: string)
    requires m.workspaceId !in Map(WorkspaceOf, before)
    requires forall w :: w in Map(WorkspaceOf, s) <==> w in Map(WorkspaceOf, before) || w == m.workspaceId
    requires m.workspaceId in decisions && decisions[m.workspaceId] == Transfer(Some(newOwner))
    requires Doomed(s, decisions) == Doomed(before, decisions)
    requires Promotions(t, s, decisions, userId)
             == Promotions(t, before, decisions, userId) + Promotion(t, m, decisions, userId)
    ensures var next := TransferOwnership(Settled(t, before, decisions, userId), m, newOwner, userId);
            && next.Ok? == CanSettle(t, m, decisions, userId)
            && (next.Ok? ==> next.value == Settled(t, s, decisions, userId))
  {
    StillFound(t, before, decisions, userId, m.workspaceId, newOwner);
    var kept := DeleteWorkspaces(t, Doomed(s, decisions));
    PromotedOneMore(kept.members, before, m, s, decisions, newOwner);
    Append3(kept.activities, Promotions(t, before, decisions, userId), Promotion(t, m, decisions, userId));
  }

  lemma PromotedOneMore(members: seq<Member>, before: seq<Member>, m: Member, s: seq<Member>,
                        decisions: map<int, Action>,
                        newOwner: string)
    requires m.workspaceId !in Map(WorkspaceOf, before)
    requires forall w :: w in Map(WorkspaceOf, s) <==> w in Map(WorkspaceOf, before) || w == m.workspaceId
    requires m.workspaceId in decisions && decisions[m.workspaceId] == Transfer(Some(newOwner))
    ensures Map(PromoteOne(m.workspaceId, newOwner), Map(Promote(before, decisions), members))
            == Map(Promote(s, decisions), members)
  {
    forall x | x in members
      ensures PromoteOne(m.workspaceId, newOwner)(Promote(before, decisions)(x)) == Promote(s, decisions)(x) {
      assert Heir(s, decisions, x)
             <==> Heir(before, decisions, x) || (x.workspaceId == m.workspaceId && x.userId == newOwner);
    }
    MapTwice(Promote(before, decisions), PromoteOne(m.workspaceId, newOwner), Promote(s, decisions), members);
  }

  lemma SettleDelete(t: Tables, before: seq<Member>, m: Member, s: seq<Member>, decisions: map<int, Action>,
                     userId: string)
    requires m.workspaceId !in Map(WorkspaceOf, before)
    requires forall w :: w in Map(WorkspaceOf, s) <==> w in Map(WorkspaceOf, before) || w == m.workspaceId
    requires m.workspaceId in decisions && decisions[m.workspaceId].Delete?
    requires Doomed(s, decisions) == Doomed(before, decisions) + {m.workspaceId}
    requires Promotions(t, s, decisions, userId)
             == Promotions(t, before, decisions, userId) + Promotion(t, m, decisions, userId)
    ensures DeleteWorkspaces(Settled(t, before, decisions, userId), {m.workspaceId}) == Settled(t, s, decisions, userId)
  {
    var a, b := Doomed(before, decisions), {m.workspaceId};
    DeletedTwice(t, a, b);
    DeletedMembers(t.members, before, m, s, decisions);
    DeletedActivities(t, before, m, decisions, userId);
    assert Promotion(t, m, decisions, userId) == [];
  }

  lemma DeletedTwice(t: Tables, a: set<int>, b: set<int>)
    ensures DeleteWorkspaces(DeleteWorkspaces(t, a), b) == DeleteWorkspaces(t, a + b)
  {
    OutsideTwice(Itself, a, b, t.workspaces);
    OutsideTwice(AssignmentWorkspace, a, b, t.assignments);
    OutsideTwice(CommentWorkspace, a, b, t.comments);
    OutsideTwice(WorkspaceOf, a, b, t.members);
    OutsideTwice(ActivityWorkspace, a, b, t.activities);
    OutsideTwice(InvitationWorkspace, a, b, t.invitations);
    OutsideTwice(NotificationWorkspace, a, b, t.notifications);
    OutsideTwice(PingWorkspace, a, b, t.usagePings);
  }

  lemma DeletedMembers(members: seq<Member>, before: seq<Member>, m: Member, s: seq<Member>,
                       decisions: map<int, Action>)
    requires forall w :: w in Map(WorkspaceOf, s) <==> w in Map(WorkspaceOf, before) || w == m.workspaceId
    ensures var a, b := Doomed(before, decisions), {m.workspaceId};
            Filter(Outside(WorkspaceOf, b), Map(Promote(before, decisions), Filter(Outside(WorkspaceOf, a), members)))
            == Map(Promote(s, decisions), Filter(Outside(WorkspaceOf, a + b), members))
  {
    var a, b := Doomed(before, decisions), {m.workspaceId};
    var kept := Filter(Outside(WorkspaceOf, a), members);
    OutsideTwice(WorkspaceOf, a, b, members);
    FilterMap(Outside(WorkspaceOf, b), Promote(before, decisions), Outside(WorkspaceOf, b), kept);
    FilterIn(Outside(WorkspaceOf, b), kept);
    MapAgree(Promote(before, decisions), Promote(s, decisions), Filter(Outside(WorkspaceOf, b), kept));
  }

  lemma DeletedActivities(t: Tables, before: seq<Member>, m: Member, decisions: map<int, Action>, userId: string)
    requires m.workspaceId !in Map(WorkspaceOf, before)
    ensures var a, b := Doomed(before, decisions), {m.workspaceId};
            Filter(Outside(ActivityWorkspace, b),
                   Filter(Outside(ActivityWorkspace, a), t.activities) + Promotions(t, before, decisions, userId))
            == Filter(Outside(ActivityWorkspace, a + b), t.activities) + Promotions(t, before, decisions, userId)
  {
    var a, b := Doomed(before, decisions), {m.workspaceId};
    OutsideTwice(ActivityWorkspace, a, b, t.activities);
    PromotionWorkspaces(t, before, decisions, userId);
    OutsideAppend(Filter(Outside(ActivityWorkspace, a), t.activities), Promotions(t, before, decisions, userId),
                  m.workspaceId);
  }

  lemma OutsideAppend(rows: seq<Activity>, more: seq<Activity>, w: int)
    requires forall x | x in more :: x.workspaceId != w
    ensures Filter(Outside(ActivityWorkspace, {w}), rows + more) == Filter(Outside(ActivityWorkspace, {w}), rows) + more
  {
    FilterAppendAll(Outside(ActivityWorkspace, {w}), rows, more);
  }

  lemma FirstFound<T>(p: T -> bool, s: seq<T>)
    ensures First(Filter(p, s)).Some? ==> p(First(Filter(p, s)).value) && First(Filter(p, s)).value in s
    ensures First(Filter(p, s)).None? <==> forall x | x in s :: !p(x)
  {
    FilterIn(p, s);
    FilterNone(p, s);
    assert Filter(p, s) != [] ==> Filter(p, s)[0] in Filter(p, s);
  }

  lemma PromotionFacts(t: Tables, m: Member, decisions: map<int, Action>, userId: string)
    ensures forall a | a in Promotion(t, m, decisions, userId) ::
            a.workspaceId == m.workspaceId && a.target != Some(userId)
  {
    if Promotion(t, m, decisions, userId) != [] {
      FirstFound(Named(m.workspaceId, decisions[m.workspaceId].newOwner.value), t.members);
    }
  }

  lemma {:induction false} PromotionWorkspaces(t: Tables, s: seq<Member>, decisions: map<int, Action>, userId: string)
    ensures forall a | a in Promotions(t, s, decisions, userId) ::
              a.workspaceId in Map(WorkspaceOf, s) && a.target != Some(userId)
  {
    if s != [] {
      PromotionWorkspaces(t, s[..|s| - 1], decisions, userId);
      DoomedMore(s, decisions);
      PromotionFacts(t, s[|s| - 1], decisions, userId);
    }
  }

  lemma SettledNone(t: Tables, decisions: map<int, Action>, userId: string)
    ensures Settled(t, [], decisions, userId) == t
  {
    assert Doomed([], decisions) == {};
    OutsideNone(Itself, t.workspaces);
    OutsideNone(WorkspaceOf, t.members);
    OutsideNone(AssignmentWorkspace, t.assignments);
    OutsideNone(CommentWorkspace, t.comments);
    OutsideNone(ActivityWorkspace, t.activities);
    OutsideNone(InvitationWorkspace, t.invitations);
    OutsideNone(NotificationWorkspace, t.notifications);
    OutsideNone(PingWorkspace, t.usagePings);
    MapSame(Promote([], decisions), t.members);
    assert t.activities + [] == t.activities;
  }

  /** The loop over the sole-owned workspaces: when it goes through, and what it leaves. */
  lemma {:induction false} SettleAllInOnePass(t: Tables, s: seq<Member>, decisions: map<int, Action>, userId: string)
    requires Distinct(Map(WorkspaceOf, s))
    ensures SettleAll(t, s, decisions, userId).Ok? <==> forall m | m in s :: CanSettle(t, m, decisions, userId)
    ensures SettleAll(t, s, decisions, userId).Ok? ==>
              SettleAll(t, s, decisions, userId).value == Settled(t, s, decisions, userId)
  {
    if s == [] {
      SettledNone(t, decisions, userId);
    } else {
      var before := s[..|s| - 1];
      assert forall k | 0 <= k < |before| :: Map(WorkspaceOf, before)[k] == Map(WorkspaceOf, s)[k];
      SettleAllInOnePass(t, before, decisions, userId);
      SettleNext(t, s, decisions, userId);
      PrefixMore(s, |s| - 1);
    }
  }

  // ---- The service ----

  lemma {:induction false} DecidedFacts(ds: seq<Disposition>)
    ensures forall w :: w in Decided(ds) <==> w in Map(DecidedFor, ds)
    ensures Distinct(Map(DecidedFor, ds)) ==>
              forall k | 0 <= k < |ds| ::
                  ds[k].workspaceId in Decided(ds) && Decided(ds)[ds[k].workspaceId] == ds[k].action
  {
    if ds != [] {
      var before := ds[..|ds| - 1];
      DecidedFacts(before);
      assert Map(DecidedFor, ds) == Map(DecidedFor, before) + [ds[|ds| - 1].workspaceId];
      if Distinct(Map(DecidedFor, ds)) {
        assert forall k | 0 <= k < |before| ::
               Map(DecidedFor, ds)[k] == Map(DecidedFor, before)[k] == ds[k].workspaceId;
        assert Map(DecidedFor, ds)[|ds| - 1] == ds[|ds| - 1].workspaceId;
      }
    }
  }

  lemma {:induction false} ErrorStays(t: Tables, s: seq<Member>, decisions: map<int, Action>, userId: string, n: nat)
    requires n <= |s| && SettleAll(t, s[..n], decisions, userId).Err?
    ensures SettleAll(t, s, decisions, userId) == SettleAll(t, s[..n], decisions, userId)
    decreases |s|
  {
    if n < |s| {
      assert s[..|s| - 1][..n] == s[..n];
      ErrorStays(t, s[..|s| - 1], decisions, userId, n);
    } else {
      assert s[..n] == s;
    }
  }

  lemma SettledMore(t: Tables, s: seq<Member>, decisions: map<int, Action>, userId: string, i: nat)
    requires i < |s| && SettleAll(t, s[..i], decisions, userId).Ok?
    ensures SettleAll(t, s[..i + 1], decisions, userId)
            == Settle(SettleAll(t, s[..i], decisions, userId).value, s[i], decisions, userId)
    ensures |Filter(HandedOver(decisions), s[..i + 1])|
            == |Filter(HandedOver(decisions), s[..i])| + if HandedOver(decisions)(s[i]) then 1 else 0
    ensures |Filter(Dropped(decisions), s[..i + 1])|
            == |Filter(Dropped(decisions), s[..i])| + if Dropped(decisions)(s[i]) then 1 else 0
  {
    PrefixMore(s, i);
  }

  /** The tables the request needs to be in: unique keys, members of workspaces that exist. */
  ghost predicate Keyed(t: Tables) {
    && Distinct(Map(UserIdOf, t.users))
    && Distinct(Map(KeyOf, t.members))
    && Distinct(Map(Redaction.IdOf(), t.comments))
    && (forall m | m in t.members :: m.workspaceId in t.workspaces)
  }

  /** `deleteMany`: keeps the rows the clause spares and answers how many it did not. */
  method DeleteMany<T>(keeps: T -> bool, rows: seq<T>) returns (kept: seq<T>, count: nat)
    ensures kept == Filter(keeps, rows) && count == |rows| - |kept|
  {
    kept := Filter(keeps, rows);
    FilterSplit(keeps, (x: T) => !keeps(x), rows);
    count := |Filter((x: T) => !keeps(x), rows)|;
  }

  /** The rows each statement removed are those missing afterwards. */
  ghost predicate Removed(counts: Counts, before: Tables, after: Tables) {
    && counts.membershipsRemoved == |before.members| - |after.members|
    && counts.assignmentsRemoved == |before.assignments| - |after.assignments|
    && counts.invitationsRevoked == |before.invitations| - |after.invitations|
    && counts.notificationsDeleted == |before.notifications| - |after.notifications|
    && counts.usagePingsDeleted == |before.usagePings| - |after.usagePings|
    && counts.sessionsDeleted == |before.sessions| - |after.sessions|
    && counts.accountsDeleted == |before.providers| - |after.providers|
    && counts.verificationsDeleted == |before.verifications| - |after.verifications|
  }

  function Naming(userId: string): Activity -> bool {
    (a: Activity) => NamesUser(a, userId)
  }

  /** The farewell rows carry no name to redact. */
  lemma FarewellsNameNobody(userId: string, activities: seq<Activity>, surviving: seq<Member>)
    ensures Filter(Naming(userId), activities + Map(Farewell(userId), surviving)) == Filter(Naming(userId), activities)
  {
    FilterAppend(Naming(userId), activities, Map(Farewell(userId), surviving));
    FilterNone(Naming(userId), Map(Farewell(userId), surviving));
  }

  class AccountDeletionService {
    var tables: Tables

    constructor (t: Tables)
      ensures tables == t
    {
      tables := t;
    }

    method PartitionMemberships(userId: string) returns (soleOwned: seq<Member>, other: seq<Member>)
      ensures soleOwned == SoleOwned(tables, userId) && other == OtherMemberships(tables, userId)
    {
      var memberships := Memberships(tables, userId);
      var ownersByWorkspace := map m | m in tables.members && m.role == OWNER
                                 :: m.workspaceId := |Filter(OwnerOf(m.workspaceId), tables.members)|;
      soleOwned, other := [], [];
      for i := 0 to |memberships|
        invariant soleOwned == Filter(Sole(tables.members, true), memberships[..i])
        invariant other == Filter(Sole(tables.members, false), memberships[..i])
      {
        SoleMore(tables.members, true, memberships, i);
        SoleMore(tables.members, false, memberships, i);
        var row := memberships[i];
        CountedOwners(tables.members, row);
        var owners := if row.workspaceId in ownersByWorkspace then ownersByWorkspace[row.workspaceId] else 0;
        if row.role == OWNER && owners <= 1 {
          soleOwned := soleOwned + [row];
        } else {
          other := other + [row];
        }
      }
      PrefixMore(memberships, |memberships|);
    }

    /** Accepts exactly one decision for each workspace that needs one; everything else is a conflict. */
    method MatchDispositions(soleOwned: seq<Member>, dispositions: seq<Disposition>)
      returns (r: Result<map<int, Action>, Error>)
      ensures r.Ok? <==> DecidesExactly(dispositions, soleOwned)
      ensures r.Ok? ==> r.value == Decided(dispositions)
      ensures r.Err? ==> r.error == Conflict
    {
      var required := Map(WorkspaceOf, soleOwned);
      var byWorkspace: map<int, Action> := map[];
      for i := 0 to |dispositions|
        invariant byWorkspace == Decided(dispositions[..i])
        invariant Distinct(Map(DecidedFor, dispositions[..i]))
        invariant forall k | 0 <= k < i :: dispositions[k].workspaceId in required
      {
        DecidedMore(dispositions, i);
        var d := dispositions[i];
        if d.workspaceId in byWorkspace {
          return Err(Conflict);
        }
        if d.workspaceId !in required {
          assert Map(DecidedFor, dispositions)[i] == d.workspaceId;
          return Err(Conflict);
        }
        byWorkspace := byWorkspace[d.workspaceId := d.action];
      }
      assert dispositions[..|dispositions|] == dispositions;
      DecidedFacts(dispositions);
      AllRequired(dispositions, required);
      var undecided := Filter((w: int) => w !in byWorkspace, required);
      FilterNone((w: int) => w !in byWorkspace, required);
      if |undecided| > 0 {
        return Err(Conflict);
      }
      return Ok(byWorkspace);
    }

    method Promoted(m: Member, newOwner: string, userId: string) returns (r: Result<(), Error>)
      modifies this
      ensures TransferOwnership(old(tables), m, newOwner, userId) == (if r.Ok? then Ok(tables) else Err(r.error))
      ensures r.Err? ==> tables == old(tables)
    {
      var target := FindMember(tables.members, m.workspaceId, newOwner);
      var user := FindUser(tables.users, newOwner);
      if target.None? || user.None? || newOwner == userId {
        return Err(NotFound);
      }
      if user.value.deletedAt != None {
        return Err(Conflict);
      }
      tables := tables.(members := Map(PromoteOne(m.workspaceId, newOwner), tables.members));
      tables := tables.(activities := tables.activities + [RoleChanged(m, target.value, user.value.name, userId)]);
      return Ok(());
    }

    /** The first loop of the transaction. */
    method SettleWorkspaces(soleOwned: seq<Member>, decisions: map<int, Action>, userId: string)
      returns (r: Result<(nat, nat), Error>)
      modifies this
      ensures SettleAll(old(tables), soleOwned, decisions, userId) == (if r.Ok? then Ok(tables) else Err(r.error))
      ensures r.Ok? ==> r.value == (|Filter(HandedOver(decisions), soleOwned)|, |Filter(Dropped(decisions), soleOwned)|)
    {
      var transferred, deleted := 0, 0;
      for i := 0 to |soleOwned|
        invariant SettleAll(old(tables), soleOwned[..i], decisions, userId) == Ok(tables)
        invariant transferred == |Filter(HandedOver(decisions), soleOwned[..i])|
        invariant deleted == |Filter(Dropped(decisions), soleOwned[..i])|
      {
        SettledMore(old(tables), soleOwned, decisions, userId, i);
        var m := soleOwned[i];
        if m.workspaceId !in decisions {
          ErrorStays(old(tables), soleOwned, decisions, userId, i + 1);
          return Err(Conflict);
        }
        var action := decisions[m.workspaceId];
        if action.Transfer? && action.newOwner.Some? {
          var done := Promoted(m, action.newOwner.value, userId);
          if done.Err? {
            ErrorStays(old(tables), soleOwned, decisions, userId, i + 1);
            return Err(done.error);
          }
          transferred := transferred + 1;
        } else if action.Transfer? {
          ErrorStays(old(tables), soleOwned, decisions, userId, i + 1);
          return Err(Conflict);
        } else {
          tables := DeleteWorkspaces(tables, {m.workspaceId});
          deleted := deleted + 1;
        }
      }
      assert soleOwned[..|soleOwned|] == soleOwned;
      return Ok((transferred, deleted));
    }

    method RedactComments(userId: string) returns (rewritten: nat)
      requires Distinct(Map(Redaction.IdOf(), tables.comments))
      modifies this
      ensures tables == old(tables).(comments := Map(RedactComment(userId), old(tables).comments))
      ensures rewritten == |Filter((c: Comment) => Redaction.RedactRow(c, userId) != c, old(tables).comments)|
    {
      var table := new Redaction.CommentTable(tables.comments);
      rewritten := table.RedactCommentMentions(userId, COMMENT_REDACTION_PAGE);
      MapAgree((c: Comment) => Redaction.RedactRow(c, userId), RedactComment(userId), tables.comments);
      tables := tables.(comments := table.comments);
    }

    /** One audit row in each workspace that survives, which is also one to evict from. */
    method RecordFarewells(surviving: seq<Member>, userId: string) returns (evictions: seq<int>)
      modifies this
      ensures tables == old(tables).(activities := old(tables).activities + Map(Farewell(userId), surviving))
      ensures evictions == Map(WorkspaceOf, surviving)
    {
      ghost var were := tables.activities;
      evictions := [];
      assert were + [] == were;
      for i := 0 to |surviving|
        invariant tables == old(tables).(activities := were + Map(Farewell(userId), surviving[..i]))
        invariant evictions == Map(WorkspaceOf, surviving[..i])
      {
        var m := surviving[i];
        var row := Activity(m.workspaceId, userId, AccountDeleted, Some(userId), None, Some(m.role));
        tables := tables.(activities := tables.activities + [row]);
        evictions := evictions + [m.workspaceId];
        PrefixMore(surviving, i);
        MapMore(Farewell(userId), surviving[..i], m);
        Append3(were, Map(Farewell(userId), surviving[..i]), [row]);
        MapMore(WorkspaceOf, surviving[..i], m);
      }
      PrefixMore(surviving, |surviving|);
    }

    /** Assignments and pending invitations go; comments and audit rows stay and lose the name. */
    method EraseClaims(userId: string) returns (removed: nat, revoked: nat, rewritten: nat, redacted: nat)
      requires Distinct(Map(Redaction.IdOf(), tables.comments))
      modifies this
      ensures tables == old(tables).(assignments := Filter(NotAssignedTo(userId), old(tables).assignments),
                                     invitations := Filter(NotPendingFrom(userId), old(tables).invitations),
                                     comments := Map(RedactComment(userId), old(tables).comments),
                                     activities := Map(RedactActivity(userId), old(tables).activities))
      ensures removed == |old(tables).assignments| - |tables.assignments|
      ensures revoked == |old(tables).invitations| - |tables.invitations|
      ensures rewritten == |Filter((c: Comment) => Redaction.RedactRow(c, userId) != c, old(tables).comments)|
      ensures redacted == |Filter(Naming(userId), old(tables).activities)|
    {
      var assignments, invitations;
      assignments, removed := DeleteMany(NotAssignedTo(userId), tables.assignments);
      invitations, revoked := DeleteMany(NotPendingFrom(userId), tables.invitations);
      tables := tables.(assignments := assignments, invitations := invitations);
      rewritten := RedactComments(userId);
      redacted := |Filter(Naming(userId), tables.activities)|;
      tables := tables.(activities := Map(RedactActivity(userId), tables.activities));
    }

    /** The rows that were theirs alone, and at last their memberships. */
    method EraseTraces(userId: string, email: string)
      returns (notified: nat, pinged: nat, signedIn: nat, provided: nat, verified: nat, left: nat)
      modifies this
      ensures tables == old(tables).(notifications := Filter(NotNotificationOf(userId), old(tables).notifications),
                                     usagePings := Filter(NotPingOf(userId), old(tables).usagePings),
                                     sessions := Filter(NotSessionOf(userId), old(tables).sessions),
                                     providers := Filter(NotProviderOf(userId), old(tables).providers),
                                     verifications := Filter(NotNaming(email), old(tables).verifications),
                                     members := Filter(NotOfUser(userId), old(tables).members))
      ensures notified == |old(tables).notifications| - |tables.notifications|
      ensures pinged == |old(tables).usagePings| - |tables.usagePings|
      ensures signedIn == |old(tables).sessions| - |tables.sessions|
      ensures provided == |old(tables).providers| - |tables.providers|
      ensures verified == |old(tables).verifications| - |tables.verifications|
      ensures left == |old(tables).members| - |tables.members|
    {
      var notifications, usagePings, sessions, providers, verifications, members;
      notifications, notified := DeleteMany(NotNotificationOf(userId), tables.notifications);
      usagePings, pinged := DeleteMany(NotPingOf(userId), tables.usagePings);
      sessions, signedIn := DeleteMany(NotSessionOf(userId), tables.sessions);
      providers, provided := DeleteMany(NotProviderOf(userId), tables.providers);
      verifications, verified := DeleteMany(NotNaming(email), tables.verifications);
      members, left := DeleteMany(NotOfUser(userId), tables.members);
      tables := tables.(notifications := notifications, usagePings := usagePings, sessions := sessions,
                        providers := providers,
                        verifications := verifications, members := members);
    }

    /**
      A request that fails leaves every table as it was; one that goes through evicts from exactly the
      surviving workspaces.
    */
    method Delete(userId: string, confirmEmail: string, dispositions: seq<Disposition>, lower: string -> string,
                  now: int)
      returns (r: Result<Counts, Error>, evictions: seq<int>)
      requires Keyed(tables)
      modifies this
      ensures DeleteAccount(old(tables), userId, confirmEmail, dispositions, lower, now)
              == (if r.Ok? then Ok(tables) else Err(r.error))
      ensures r.Err? ==> tables == old(tables) && evictions == []
      ensures r.Ok? ==> evictions == Map(WorkspaceOf, Surviving(old(tables), userId, Decided(dispositions)))
      ensures r.Ok? ==>
                var soleOwned, decisions := SoleOwned(old(tables), userId), Decided(dispositions);
                var settled := Settled(old(tables), soleOwned, decisions, userId);
                && r.value.workspacesTransferred == |Filter(HandedOver(decisions), soleOwned)|
                && r.value.workspacesDeleted == |Filter(Dropped(decisions), soleOwned)|
                && r.value.membershipsRemoved == |Filter(OfUser(userId), settled.members)|
                && r.value.commentsRedacted
                    == |Filter((c: Comment) => Redaction.RedactRow(c, userId) != c, settled.comments)|
                && r.value.activitiesRedacted == |Filter(Naming(userId), settled.activities)|
                && Removed(r.value, settled, tables)
    {
      evictions := [];
      if !Live(tables.users, userId) {
        return Err(NotFound), [];
      }
      if lower(Trim(confirmEmail)) != lower(Trim(FindUser(tables.users, userId).value.email)) {
        return Err(Forbidden), [];
      }
      var soleOwned, other := PartitionMemberships(userId);
      var matched := MatchDispositions(soleOwned, dispositions);
      if matched.Err? {
        return Err(matched.error), [];
      }
      var decisions := matched.value;
      var before := tables;
      var done := SettleWorkspaces(soleOwned, decisions, userId);
      if done.Err? {
        tables := before;
        return Err(done.error), [];
      }
      SoleOwnedFacts(before, userId);
      SettleAllInOnePass(before, soleOwned, decisions, userId);
      ghost var settled := tables;
      var surviving := Filter(HandedOver(decisions), soleOwned) + other;
      evictions := RecordFarewells(surviving, userId);
      FarewellsNameNobody(userId, settled.activities, surviving);
      FilterDistinct(Outside(CommentWorkspace, Doomed(soleOwned, decisions)), Redaction.IdOf(), before.comments);
      var removed, revoked, rewritten, redacted := EraseClaims(userId);
      var notified, pinged, signedIn, provided, verified, left := EraseTraces(userId, EmailOf(before.users, userId));
      FilterSplit(NotOfUser(userId), OfUser(userId), settled.members);
      tables := tables.(users := Map(Anonymised(userId, now), tables.users));
      r := Ok(Counts(done.value.0, done.value.1, left, removed, revoked, rewritten, redacted, notified, pinged,
                     signedIn, provided,
                     verified));
    }
  }

  lemma MapMore<T, U>(f: T -> U, s: seq<T>, x: T)
    ensures Map(f, s + [x]) == Map(f, s) + [f(x)]
  {
  }

  lemma AllRequired(ds: seq<Disposition>, required: seq<int>)
    requires forall k | 0 <= k < |ds| :: ds[k].workspaceId in required
    ensures forall w | w in Map(DecidedFor, ds) :: w in required
  {
  }

  lemma Repeated(ds: seq<Disposition>, i: nat)
    requires i < |ds| && ds[i].workspaceId in Map(DecidedFor, ds[..i])
    ensures !Distinct(Map(DecidedFor, ds))
  {
    var k :| 0 <= k < i && Map(DecidedFor, ds[..i])[k] == ds[i].workspaceId;
    assert Map(DecidedFor, ds)[k] == Map(DecidedFor, ds)[i];
  }

  lemma DecidedMore(ds: seq<Disposition>, i: nat)
    requires i < |ds| && Distinct(Map(DecidedFor, ds[..i]))
    ensures Decided(ds[..i + 1]) == Decided(ds[..i])[ds[i].workspaceId := ds[i].action]
    ensures ds[i].workspaceId in Decided(ds[..i]) ==> !Distinct(Map(DecidedFor, ds))
    ensures ds[i].workspaceId !in Decided(ds[..i]) ==> Distinct(Map(DecidedFor, ds[..i + 1]))
  {
    PrefixMore(ds, i);
    DecidedFacts(ds[..i]);
    if ds[i].workspaceId in Decided(ds[..i]) {
      Repeated(ds, i);
    } else {
      MapMore(DecidedFor, ds[..i], ds[i]);
    }
  }

  lemma SoleMore(members: seq<Member>, wanted: bool, rows: seq<Member>, i: nat)
    requires i < |rows|
    ensures Filter(Sole(members, wanted), rows[..i + 1])
            == Filter(Sole(members, wanted), rows[..i])
               + (if IsSoleOwner(members, rows[i]) == wanted then [rows[i]] else [])
  {
    PrefixMore(rows, i);
    FilterAppend(Sole(members, wanted), rows[..i], [rows[i]]);
    FilterOne(Sole(members, wanted), rows[i]);
  }

  lemma CountedOwners(members: seq<Member>, row: Member)
    ensures (exists m :: m in members && m.role == OWNER && m.workspaceId == row.workspaceId)
            <==> |Filter(OwnerOf(row.workspaceId), members)| > 0
  {
    FilterIn(OwnerOf(row.workspaceId), members);
    FilterNone(OwnerOf(row.workspaceId), members);
  }

  lemma MembershipFacts(t: Tables, userId: string)
    ensures multiset(Memberships(t, userId)) == multiset(Filter(OfUser(userId), t.members))
    ensures forall m :: m in Memberships(t, userId) <==> m in t.members && m.userId == userId
  {
    SortPermutation(ByWorkspace, Filter(OfUser(userId), t.members));
    FilterIn(OfUser(userId), t.members);
  }

  lemma SoleOwnedFacts(t: Tables, userId: string)
    requires Distinct(Map(KeyOf, t.members))
    ensures Distinct(Map(WorkspaceOf, SoleOwned(t, userId)))
    ensures forall m :: m in SoleOwned(t, userId) <==> m in t.members && m.userId == userId && IsSoleOwner(t.members, m)
    ensures forall m ::
            m in OtherMemberships(t, userId) <==> m in t.members && m.userId == userId && !IsSoleOwner(t.members, m)
  {
    MembershipFacts(t, userId);
    var mine := Memberships(t, userId);
    FilterIn(Sole(t.members, true), mine);
    FilterIn(Sole(t.members, false), mine);
    FilterDistinct(OfUser(userId), KeyOf, t.members);
    DistinctPermutation(KeyOf, Filter(OfUser(userId), t.members), mine);
    FilterDistinct(Sole(t.members, true), KeyOf, mine);
    var sole := SoleOwned(t, userId);
    forall i, j | 0 <= i < j < |sole| ensures sole[i].workspaceId != sole[j].workspaceId {
      assert sole[i] in sole && sole[j] in sole;
      assert Map(KeyOf, sole)[i] != Map(KeyOf, sole)[j];
    }
  }

  // ---- Results ----

  /** A request goes through exactly when each of its checks passes on the tables it starts from. */
  lemma DeletionGoesThroughIff(t: Tables, userId: string, confirmEmail: string, ds: seq<Disposition>,
                               lower: string -> string, now: int)
    requires Keyed(t)
    ensures DeleteAccount(t, userId, confirmEmail, ds, lower, now).Ok?
            <==> && Live(t.users, userId) && Confirms(t, userId, confirmEmail, lower)
                 && DecidesExactly(ds, SoleOwned(t, userId))
                 && forall m | m in SoleOwned(t, userId) :: CanSettle(t, m, Decided(ds), userId)
    ensures DeleteAccount(t, userId, confirmEmail, ds, lower, now).Ok? ==>
              DeleteAccount(t, userId, confirmEmail, ds, lower, now).value == Outcome(t, userId, Decided(ds), now)
  {
    SoleOwnedFacts(t, userId);
    SettleAllInOnePass(t, SoleOwned(t, userId), Decided(ds), userId);
  }

  function Outcome(t: Tables, userId: string, decisions: map<int, Action>, now: int): Tables {
    Finish(Settled(t, SoleOwned(t, userId), decisions, userId), Surviving(t, userId, decisions), userId, now)
  }

  /** The tables the invariant is about, one by one. */
  lemma OutcomeTables(t: Tables, userId: string, decisions: map<int, Action>, now: int)
    ensures var s := SoleOwned(t, userId);
            var gone, o := Doomed(s, decisions), Outcome(t, userId, decisions, now);
            && o.users == Map(Anonymised(userId, now), t.users)
            && o.workspaces == Filter(Outside(Itself, gone), t.workspaces)
            && o.members
                == Filter(NotOfUser(userId), Map(Promote(s, decisions), Filter(Outside(WorkspaceOf, gone), t.members)))
            && o.comments == Map(RedactComment(userId), Filter(Outside(CommentWorkspace, gone), t.comments))
  {
  }

  /** The decisions cover the sole-owned workspaces and no others, and each can be carried out. */
  ghost predicate Settleable(t: Tables, userId: string, decisions: map<int, Action>) {
    && (forall w :: w in decisions <==> w in Map(WorkspaceOf, SoleOwned(t, userId)))
    && (forall m | m in SoleOwned(t, userId) :: CanSettle(t, m, decisions, userId))
  }

  ghost predicate HasOwner(members: seq<Member>, w: int) {
    exists m :: m in members && m.workspaceId == w && m.role == OWNER
  }

  /** Every workspace has an owner, and no tombstone is a member of anything. */
  ghost predicate Sound(t: Tables) {
    && Keyed(t)
    && (forall w | w in t.workspaces :: HasOwner(t.members, w))
    && (forall m | m in t.members :: Live(t.users, m.userId))
  }

  function Staying(userId: string, gone: set<int>): Member -> bool {
    (m: Member) => m.userId != userId && m.workspaceId !in gone
  }

  predicate Stays(t: Tables, userId: string, decisions: map<int, Action>, m: Member) {
    m in t.members && Staying(userId, Doomed(SoleOwned(t, userId), decisions))(m)
  }

  lemma PromotedRows(members: seq<Member>, s: seq<Member>, decisions: map<int, Action>, userId: string, gone: set<int>)
    ensures Filter(NotOfUser(userId), Map(Promote(s, decisions), Filter(Outside(WorkspaceOf, gone), members)))
            == Map(Promote(s, decisions), Filter(Staying(userId, gone), members))
  {
    FilterMap(NotOfUser(userId), Promote(s, decisions), NotOfUser(userId), Filter(Outside(WorkspaceOf, gone), members));
    FilterTwice(Outside(WorkspaceOf, gone), NotOfUser(userId), Staying(userId, gone), members);
  }

  /** The members of the outcome are the old members of other users in workspaces that stay, heirs promoted. */
  lemma OutcomeMembers(t: Tables, userId: string, decisions: map<int, Action>, now: int)
    ensures forall m | Stays(t, userId, decisions, m) ::
              Promote(SoleOwned(t, userId), decisions)(m) in Outcome(t, userId, decisions, now).members
    ensures forall x | x in Outcome(t, userId, decisions, now).members ::
              exists m :: Stays(t, userId, decisions, m) && x == Promote(SoleOwned(t, userId), decisions)(m)
  {
    var s := SoleOwned(t, userId);
    var gone := Doomed(s, decisions);
    OutcomeTables(t, userId, decisions, now);
    PromotedRows(t.members, s, decisions, userId, gone);
    MapFilterIn(Promote(s, decisions), Staying(userId, gone), t.members);
  }

  lemma OutcomeUsers(t: Tables, userId: string, decisions: map<int, Action>, now: int)
    ensures forall u | u != userId :: Live(Outcome(t, userId, decisions, now).users, u) == Live(t.users, u)
    ensures !Live(Outcome(t, userId, decisions, now).users, userId)
  {
    OutcomeTables(t, userId, decisions, now);
    UsersAfter(t.users, userId, now);
  }

  lemma UsersAfter(users: seq<User>, userId: string, now: int)
    ensures forall u | u != userId :: Live(Map(Anonymised(userId, now), users), u) == Live(users, u)
    ensures !Live(Map(Anonymised(userId, now), users), userId)
  {
    forall u ensures FindUser(Map(Anonymised(userId, now), users), u)
                     == if FindUser(users, u).None? then None
                         else Some(Anonymised(userId, now)(FindUser(users, u).value))
    {
      FilterMap(WithId(u), Anonymised(userId, now), WithId(u), users);
    }
    forall u | FindUser(users, u).Some? ensures FindUser(users, u).value.id == u { FirstFound(WithId(u), users); }
  }

  lemma MembersKeyed(members: seq<Member>, s: seq<Member>, decisions: map<int, Action>, userId: string, gone: set<int>)
    requires Distinct(Map(KeyOf, members))
    ensures Distinct(Map(KeyOf,
                         Filter(NotOfUser(userId),
                                Map(Promote(s, decisions), Filter(Outside(WorkspaceOf, gone), members)))))
  {
    var kept := Filter(Outside(WorkspaceOf, gone), members);
    FilterDistinct(Outside(WorkspaceOf, gone), KeyOf, members);
    assert Map(KeyOf, Map(Promote(s, decisions), kept)) == Map(KeyOf, kept);
    FilterDistinct(NotOfUser(userId), KeyOf, Map(Promote(s, decisions), kept));
  }

  lemma CommentsKeyed(comments: seq<Comment>, userId: string, gone: set<int>)
    requires Distinct(Map(Redaction.IdOf(), comments))
    ensures Distinct(Map(Redaction.IdOf(),
                         Map(RedactComment(userId), Filter(Outside(CommentWorkspace, gone), comments))))
  {
    var left := Filter(Outside(CommentWorkspace, gone), comments);
    FilterDistinct(Outside(CommentWorkspace, gone), Redaction.IdOf(), comments);
    assert Map(Redaction.IdOf(), Map(RedactComment(userId), left)) == Map(Redaction.IdOf(), left);
  }

  lemma OutcomeKeyed(t: Tables, userId: string, decisions: map<int, Action>, now: int)
    requires Keyed(t)
    ensures Keyed(Outcome(t, userId, decisions, now))
  {
    var s := SoleOwned(t, userId);
    var gone := Doomed(s, decisions);
    OutcomeTables(t, userId, decisions, now);
    assert Map(UserIdOf, Map(Anonymised(userId, now), t.users)) == Map(UserIdOf, t.users);
    MembersKeyed(t.members, s, decisions, userId, gone);
    CommentsKeyed(t.comments, userId, gone);
    StayersPlaced(t, userId, decisions, now);
  }

  /** Who is left was there before, in the same workspace. */
  lemma StayerBefore(t: Tables, userId: string, decisions: map<int, Action>, now: int, x: Member) returns (m: Member)
    requires x in Outcome(t, userId, decisions, now).members
    ensures Stays(t, userId, decisions, m) && m.workspaceId == x.workspaceId
  {
    OutcomeMembers(t, userId, decisions, now);
    m :| Stays(t, userId, decisions, m) && x == Promote(SoleOwned(t, userId), decisions)(m);
  }

  lemma StayerPlaced(t: Tables, userId: string, decisions: map<int, Action>, now: int, x: Member)
    requires Keyed(t) && x in Outcome(t, userId, decisions, now).members
    ensures x.workspaceId in Outcome(t, userId, decisions, now).workspaces
  {
    var m := StayerBefore(t, userId, decisions, now, x);
    assert m in t.members && m.workspaceId in t.workspaces;
    OutcomeWorkspaces(t, userId, decisions, now, m.workspaceId);
  }

  lemma StayersPlaced(t: Tables, userId: string, decisions: map<int, Action>, now: int)
    requires Keyed(t)
    ensures var o := Outcome(t, userId, decisions, now); forall m | m in o.members :: m.workspaceId in o.workspaces
  {
    var o := Outcome(t, userId, decisions, now);
    forall x | x in o.members ensures x.workspaceId in o.workspaces { StayerPlaced(t, userId, decisions, now, x); }
  }

  /** An OWNER who is not the only one leaves another behind. */
  lemma AnotherOwner(members: seq<Member>, m: Member) returns (other: Member)
    requires Distinct(Map(KeyOf, members)) && m in members && m.role == OWNER && !IsSoleOwner(members, m)
    ensures other in members && other.workspaceId == m.workspaceId && other.role == OWNER && other.userId != m.userId
  {
    var owners := Filter(OwnerOf(m.workspaceId), members);
    FilterIn(OwnerOf(m.workspaceId), members);
    FilterDistinct(OwnerOf(m.workspaceId), KeyOf, members);
    assert owners[0] in owners && owners[1] in owners;
    assert Map(KeyOf, owners)[0] != Map(KeyOf, owners)[1];
    other := if owners[0].userId == m.userId then owners[1] else owners[0];
  }

  lemma OutcomeWorkspaces(t: Tables, userId: string, decisions: map<int, Action>, now: int, w: int)
    ensures w in Outcome(t, userId, decisions, now).workspaces
            <==> w in t.workspaces && w !in Doomed(SoleOwned(t, userId), decisions)
  {
    var gone := Doomed(SoleOwned(t, userId), decisions);
    assert Outcome(t, userId, decisions, now).workspaces == Filter(Outside(Itself, gone), t.workspaces) by {
      OutcomeTables(t, userId, decisions, now);
    }
    LeftWorkspaces(t.workspaces, gone, w);
  }

  lemma LeftWorkspaces(workspaces: seq<int>, gone: set<int>, w: int)
    ensures w in Filter(Outside(Itself, gone), workspaces) <==> w in workspaces && w !in gone
  {
    FilterIn(Outside(Itself, gone), workspaces);
  }

  lemma StillOwned(t: Tables, userId: string, decisions: map<int, Action>, now: int, m: Member)
    requires Stays(t, userId, decisions, m) && m.role == OWNER
    ensures HasOwner(Outcome(t, userId, decisions, now).members, m.workspaceId)
  {
    OutcomeMembers(t, userId, decisions, now);
    var after := Promote(SoleOwned(t, userId), decisions)(m);
    assert after.workspaceId == m.workspaceId && after.role == OWNER;
  }

  /** Whoever handed a workspace over or shared it, somebody else owns it afterwards. */
  lemma OwnedAfter(t: Tables, userId: string, decisions: map<int, Action>, now: int, w: int)
    requires Sound(t) && Settleable(t, userId, decisions) && w in Outcome(t, userId, decisions, now).workspaces
    ensures HasOwner(Outcome(t, userId, decisions, now).members, w)
  {
    OutcomeWorkspaces(t, userId, decisions, now, w);
    SoleOwnedFacts(t, userId);
    var m :| m in t.members && m.workspaceId == w && m.role == OWNER;
    if m.userId != userId {
      StillOwned(t, userId, decisions, now, m);
    } else if !IsSoleOwner(t.members, m) {
      var other := AnotherOwner(t.members, m);
      StillOwned(t, userId, decisions, now, other);
    } else {
      var heir := TransfersTo(t, userId, decisions, now, m);
      assert heir in Outcome(t, userId, decisions, now).members;
    }
  }

  /** The member a transfer names, as the request finds them. */
  lemma HeirFound(t: Tables, userId: string, decisions: map<int, Action>, m: Member) returns (heir: Member)
    requires Settleable(t, userId, decisions) && m in SoleOwned(t, userId)
    requires m.workspaceId !in Doomed(SoleOwned(t, userId), decisions)
    ensures heir in t.members && heir.workspaceId == m.workspaceId && heir.userId != userId
            && Live(t.users, heir.userId)
    ensures m.workspaceId in decisions && decisions[m.workspaceId] == Transfer(Some(heir.userId))
    ensures Heir(SoleOwned(t, userId), decisions, heir)
  {
    var s := SoleOwned(t, userId);
    assert CanSettle(t, m, decisions, userId);
    assert Dropped(decisions)(m) ==> m.workspaceId in Doomed(s, decisions);
    var newOwner := decisions[m.workspaceId].newOwner.value;
    FirstFound(Named(m.workspaceId, newOwner), t.members);
    heir := FindMember(t.members, m.workspaceId, newOwner).value;
    var k :| 0 <= k < |s| && s[k] == m;
    assert Map(WorkspaceOf, s)[k] == m.workspaceId;
  }

  /** A workspace that is handed over ends up owned by the live member it was handed to. */
  lemma TransfersTo(t: Tables, userId: string, decisions: map<int, Action>, now: int, m: Member) returns (heir: Member)
    requires Keyed(t) && Settleable(t, userId, decisions) && m in SoleOwned(t, userId)
    requires m.workspaceId !in Doomed(SoleOwned(t, userId), decisions)
    ensures heir in Outcome(t, userId, decisions, now).members
    ensures m.workspaceId in decisions && decisions[m.workspaceId] == Transfer(Some(heir.userId))
    ensures heir.workspaceId == m.workspaceId && heir.role == OWNER && heir.userId != userId
    ensures Live(Outcome(t, userId, decisions, now).users, heir.userId)
  {
    var target := HeirFound(t, userId, decisions, m);
    OutcomeMembers(t, userId, decisions, now);
    OutcomeUsers(t, userId, decisions, now);
    assert Stays(t, userId, decisions, target);
    heir := Promote(SoleOwned(t, userId), decisions)(target);
  }

  /** The ownership invariant survives every deletion that goes through. */
  lemma DeletionKeepsSound(t: Tables, userId: string, decisions: map<int, Action>, now: int)
    requires Sound(t) && Settleable(t, userId, decisions)
    ensures Sound(Outcome(t, userId, decisions, now))
  {
    var o := Outcome(t, userId, decisions, now);
    OutcomeKeyed(t, userId, decisions, now);
    OutcomeMembers(t, userId, decisions, now);
    OutcomeUsers(t, userId, decisions, now);
    forall w | w in o.workspaces ensures HasOwner(o.members, w) { OwnedAfter(t, userId, decisions, now, w); }
  }

  /** From a sound database the whole request leads to a sound one, or fails. */
  lemma DeleteAccountKeepsSound(t: Tables, userId: string, confirmEmail: string, ds: seq<Disposition>,
                                lower: string -> string, now: int)
    requires Sound(t)
    ensures DeleteAccount(t, userId, confirmEmail, ds, lower, now).Ok? ==>
              Sound(DeleteAccount(t, userId, confirmEmail, ds, lower, now).value)
  {
    DeletionGoesThroughIff(t, userId, confirmEmail, ds, lower, now);
    if DeleteAccount(t, userId, confirmEmail, ds, lower, now).Ok? {
      SoleOwnedFacts(t, userId);
      DecidedFacts(ds);
      DeletionKeepsSound(t, userId, Decided(ds), now);
    }
  }

  lemma TombstoneOf(t: Tables, userId: string, decisions: map<int, Action>, now: int)
    requires FindUser(t.users, userId).Some?
    ensures FindUser(Outcome(t, userId, decisions, now).users, userId)
            == Some(User(userId, AnonymisedEmail(userId), ANONYMOUS_USER_NAME, Some(now)))
  {
    OutcomeTables(t, userId, decisions, now);
    FilterMap(WithId(userId), Anonymised(userId, now), WithId(userId), t.users);
    FirstFound(WithId(userId), t.users);
  }

  /**
    The departing user is in no workspace and is a tombstone without a name or an address; no row that
    was theirs alone is left.
  */
  lemma NothingLeftOfThem(t: Tables, userId: string, decisions: map<int, Action>, now: int)
    ensures var o := Outcome(t, userId, decisions, now);
            && (forall m | m in o.members :: m.userId != userId)
            && (forall a | a in o.assignments :: a.userId != userId)
            && (forall i | i in o.invitations && i.pending :: i.inviterId != userId)
            && (forall n | n in o.notifications :: n.userId != userId)
            && (forall p | p in o.usagePings :: p.userId != userId)
            && (forall s | s in o.sessions :: s.userId != userId)
            && (forall p | p in o.providers :: p.userId != userId)
            && (forall v | v in o.verifications :: !Redaction.Contains(v, EmailOf(t.users, userId)))
            && (FindUser(t.users, userId).Some? ==>
                  FindUser(o.users, userId)
                  == Some(User(userId, "deleted-" + userId + "@deleted.invalid", "Deleted user", Some(now))))
            && !Live(o.users, userId)
  {
    OutcomeMembers(t, userId, decisions, now);
    OutcomeUsers(t, userId, decisions, now);
    if FindUser(t.users, userId).Some? {
      TombstoneOf(t, userId, decisions, now);
    }
    ErasedRows(Settled(t, SoleOwned(t, userId), decisions, userId), userId, EmailOf(t.users, userId));
  }

  lemma ErasedRows(t: Tables, userId: string, email: string)
    ensures forall a | a in Filter(NotAssignedTo(userId), t.assignments) :: a.userId != userId
    ensures forall i | i in Filter(NotPendingFrom(userId), t.invitations) && i.pending :: i.inviterId != userId
    ensures forall n | n in Filter(NotNotificationOf(userId), t.notifications) :: n.userId != userId
    ensures forall p | p in Filter(NotPingOf(userId), t.usagePings) :: p.userId != userId
    ensures forall s | s in Filter(NotSessionOf(userId), t.sessions) :: s.userId != userId
    ensures forall p | p in Filter(NotProviderOf(userId), t.providers) :: p.userId != userId
    ensures forall v | v in Filter(NotNaming(email), t.verifications) :: !Redaction.Contains(v, email)
  {
    FilterIn(NotAssignedTo(userId), t.assignments);
    FilterIn(NotPendingFrom(userId), t.invitations);
    FilterIn(NotNotificationOf(userId), t.notifications);
    FilterIn(NotPingOf(userId), t.usagePings);
    FilterIn(NotSessionOf(userId), t.sessions);
    FilterIn(NotProviderOf(userId), t.providers);
    FilterIn(NotNaming(email), t.verifications);
  }

  function InWorkspace(w: int): Member -> bool {
    (m: Member) => m.workspaceId == w
  }

  function AuditOf(w: int): Activity -> bool {
    (a: Activity) => a.workspaceId == w
  }

  /** Nothing the request decides, records or deletes is about a workspace the user is not in. */
  lemma NotConcerned(t: Tables, userId: string, decisions: map<int, Action>, w: int)
    requires Keyed(t) && (forall m | m in t.members && m.workspaceId == w :: m.userId != userId)
    ensures w !in Map(WorkspaceOf, SoleOwned(t, userId)) && w !in Doomed(SoleOwned(t, userId), decisions)
    ensures forall a | a in Promotions(t, SoleOwned(t, userId), decisions, userId) :: a.workspaceId != w
    ensures forall m | m in Surviving(t, userId, decisions) :: m.workspaceId != w
  {
    var s := SoleOwned(t, userId);
    SoleOwnedFacts(t, userId);
    forall k | 0 <= k < |s| ensures Map(WorkspaceOf, s)[k] != w { assert s[k] in s; }
    DoomedWorkspaces(s, decisions);
    PromotionWorkspaces(t, s, decisions, userId);
    FilterIn(HandedOver(decisions), s);
  }

  lemma FarewellsElsewhere(surviving: seq<Member>, userId: string, w: int)
    requires forall m | m in surviving :: m.workspaceId != w
    ensures forall a | a in Map(Farewell(userId), surviving) :: !AuditOf(w)(a)
  {
    forall a | a in Map(Farewell(userId), surviving) ensures !AuditOf(w)(a) {
      var k :| 0 <= k < |surviving| && Map(Farewell(userId), surviving)[k] == a;
      assert surviving[k] in surviving;
    }
  }

  lemma KeptAudit(activities: seq<Activity>, gone: set<int>, w: int)
    requires w !in gone
    ensures Filter(AuditOf(w), Filter(Outside(ActivityWorkspace, gone), activities)) == Filter(AuditOf(w), activities)
  {
    forall a: Activity ensures AuditOf(w)(a) <==> Outside(ActivityWorkspace, gone)(a) && AuditOf(w)(a) {
      assert AuditOf(w)(a) ==> ActivityWorkspace(a) == w;
    }
    FilterTwice(Outside(ActivityWorkspace, gone), AuditOf(w), AuditOf(w), activities);
  }

  lemma AuditUntouched(activities: seq<Activity>, gone: set<int>, promotions: seq<Activity>, surviving: seq<Member>,
                       userId: string, w: int)
    requires w !in gone && (forall a | a in promotions :: a.workspaceId != w)
             && (forall m | m in surviving :: m.workspaceId != w)
    ensures var rows := Filter(Outside(ActivityWorkspace, gone), activities) + promotions
            + Map(Farewell(userId), surviving);
            Filter(AuditOf(w), Map(RedactActivity(userId), rows))
                == Map(RedactActivity(userId), Filter(AuditOf(w), activities))
  {
    var kept, farewells := Filter(Outside(ActivityWorkspace, gone), activities), Map(Farewell(userId), surviving);
    var front := kept + promotions;
    FilterMap(AuditOf(w), RedactActivity(userId), AuditOf(w), front + farewells);
    FarewellsElsewhere(surviving, userId, w);
    FilterOldOnly(AuditOf(w), front, farewells);
    FilterOldOnly(AuditOf(w), kept, promotions);
    KeptAudit(activities, gone, w);
  }

  lemma RowsUntouched(members: seq<Member>, s: seq<Member>, decisions: map<int, Action>, userId: string, w: int)
    requires w !in Map(WorkspaceOf, s) && w !in Doomed(s, decisions)
    requires forall m | m in members && m.workspaceId == w :: m.userId != userId
    ensures var kept := Filter(Outside(WorkspaceOf, Doomed(s, decisions)), members);
            Filter(InWorkspace(w), Filter(NotOfUser(userId), Map(Promote(s, decisions), kept)))
            == Filter(InWorkspace(w), members)
  {
    var gone := Doomed(s, decisions);
    var kept := Filter(Outside(WorkspaceOf, gone), members);
    FilterMap(NotOfUser(userId), Promote(s, decisions), NotOfUser(userId), kept);
    var theirs := Filter(NotOfUser(userId), kept);
    FilterMap(InWorkspace(w), Promote(s, decisions), InWorkspace(w), theirs);
    SelectedThrice(members, gone, userId, w);
    FilterIn(InWorkspace(w), members);
    MapSame(Promote(s, decisions), Filter(InWorkspace(w), members));
  }

  lemma SelectedThrice(members: seq<Member>, gone: set<int>, userId: string, w: int)
    requires w !in gone && forall m | m in members && m.workspaceId == w :: m.userId != userId
    ensures Filter(InWorkspace(w), Filter(NotOfUser(userId), Filter(Outside(WorkspaceOf, gone), members)))
            == Filter(InWorkspace(w), members)
  {
    var kept := Filter(Outside(WorkspaceOf, gone), members);
    FilterIn(Outside(WorkspaceOf, gone), members);
    FilterTwice(NotOfUser(userId), InWorkspace(w), InWorkspace(w), kept);
    FilterTwice(Outside(WorkspaceOf, gone), InWorkspace(w), InWorkspace(w), members);
  }

  /**
    The figures of the log line: each sole-owned workspace is either transferred or deleted, and
    the memberships removed by the last statement are all of theirs but the deleted workspaces',
    which are the evictions and the `account.deleted` rows.
  */
  lemma CountsAddUp(t: Tables, userId: string, decisions: map<int, Action>)
    requires Keyed(t) && Settleable(t, userId, decisions)
    ensures var s := SoleOwned(t, userId);
            var transferred, deleted := |Filter(HandedOver(decisions), s)|, |Filter(Dropped(decisions), s)|;
            && transferred + deleted == |s|
            && |Surviving(t, userId, decisions)| == |Filter(OfUser(userId), t.members)| - deleted
            && |Filter(OfUser(userId), Settled(t, s, decisions, userId).members)| == |Surviving(t, userId, decisions)|
  {
    var s, mine := SoleOwned(t, userId), Memberships(t, userId);
    var gone := Doomed(s, decisions);
    SoleOwnedFacts(t, userId);
    MembershipFacts(t, userId);
    assert |mine| == |multiset(mine)| == |Filter(OfUser(userId), t.members)|;
    forall m | m in s ensures HandedOver(decisions)(m) == !Dropped(decisions)(m) {
      assert CanSettle(t, m, decisions, userId);
    }
    FilterSplit(Dropped(decisions), HandedOver(decisions), s);
    FilterSplit(Sole(t.members, true), Sole(t.members, false), mine);

    var kept := Filter(Outside(WorkspaceOf, gone), t.members);
    FilterMap(OfUser(userId), Promote(s, decisions), OfUser(userId), kept);
    OwnRowsLeft(t, userId, decisions);
  }

  lemma OwnRowsLeft(t: Tables, userId: string, decisions: map<int, Action>)
    requires Keyed(t) && Settleable(t, userId, decisions)
    ensures var s := SoleOwned(t, userId);
            |Filter(OfUser(userId), Filter(Outside(WorkspaceOf, Doomed(s, decisions)), t.members))|
            == |Filter(OfUser(userId), t.members)| - |Filter(Dropped(decisions), s)|
  {
    var s, mine := SoleOwned(t, userId), Filter(OfUser(userId), t.members);
    var gone := Doomed(s, decisions);
    var theirs := (m: Member) => OfUser(userId)(m) && Outside(WorkspaceOf, gone)(m);
    var inGone := (m: Member) => !Outside(WorkspaceOf, gone)(m);
    FilterTwice(Outside(WorkspaceOf, gone), OfUser(userId), theirs, t.members);
    FilterTwice(OfUser(userId), Outside(WorkspaceOf, gone), theirs, t.members);
    FilterSplit(Outside(WorkspaceOf, gone), inGone, mine);
    SoleOwnedFacts(t, userId);
    MembershipFacts(t, userId);
    FilterPermutation(inGone, Memberships(t, userId), mine);
    var sole := Sole(t.members, true);
    forall m | m in Memberships(t, userId) ensures inGone(m) <==> sole(m) && Dropped(decisions)(m) {
      DroppedIffGone(t, userId, decisions, m);
    }
    FilterTwice(sole, Dropped(decisions), inGone, Memberships(t, userId));
    assert |Filter(inGone, mine)| == |multiset(Filter(inGone, mine))| == |Filter(inGone, Memberships(t, userId))|;
  }

  lemma DroppedIffGone(t: Tables, userId: string, decisions: map<int, Action>, m: Member)
    requires Keyed(t) && Settleable(t, userId, decisions) && m in Memberships(t, userId)
    ensures m.workspaceId in Doomed(SoleOwned(t, userId), decisions)
            <==> IsSoleOwner(t.members, m) && Dropped(decisions)(m)
  {
    var s := SoleOwned(t, userId);
    MembershipFacts(t, userId);
    SoleOwnedFacts(t, userId);
    if m.workspaceId in Doomed(s, decisions) {
      var n :| n in s && n.workspaceId == m.workspaceId && Dropped(decisions)(n);
      assert KeyOf(n) == KeyOf(m);
      KeyDetermines(KeyOf, t.members, n, m);
    }
  }

  function IsFarewell(userId: string): Activity -> bool {
    (a: Activity) => a.kind == AccountDeleted && a.userId == userId
  }

  lemma {:induction false} PromotionsAreNoFarewells(t: Tables, s: seq<Member>, decisions: map<int, Action>,
                                                    userId: string)
    ensures forall a | a in Promotions(t, s, decisions, userId) :: a.kind == MemberRoleChanged
  {
    if s != [] {
      PromotionsAreNoFarewells(t, s[..|s| - 1], decisions, userId);
    }
  }

  /** One `account.deleted` row for each membership whose workspace survives, on top of those that stay. */
  lemma OneFarewellEach(t: Tables, userId: string, decisions: map<int, Action>, now: int)
    ensures |Filter(IsFarewell(userId), Outcome(t, userId, decisions, now).activities)|
            == |Filter(IsFarewell(userId),
                       Filter(Outside(ActivityWorkspace, Doomed(SoleOwned(t, userId), decisions)), t.activities))|
               + |Surviving(t, userId, decisions)|
  {
    var p, s := IsFarewell(userId), SoleOwned(t, userId);
    var kept := Filter(Outside(ActivityWorkspace, Doomed(s, decisions)), t.activities);
    var promotions := Promotions(t, s, decisions, userId);
    var farewells := Map(Farewell(userId), Surviving(t, userId, decisions));
    FilterMap(p, RedactActivity(userId), p, kept + promotions + farewells);
    FilterAppend(p, kept + promotions, farewells);
    FilterAppend(p, kept, promotions);
    PromotionsAreNoFarewells(t, s, decisions, userId);
    FilterNone(p, promotions);
    FilterAll(p, farewells);
  }
}
