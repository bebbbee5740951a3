/**
  What a finished account deletion leaves, table by table and by the fields of the rows: which rows
  are kept, which lose a name, which audit rows are new, and which request fails how
  (apps/api/src/account/account-deletion.service.ts).
*/
module Erasure {
  import opened AccountDeletion
  import opened Rows
  import opened Text
  import opened Wrappers
  import Redaction

  // ---- Sole ownership and dropped workspaces, by the rows of the members table ----

  /** The user owns the workspace, and every other member of it has another role. */
  ghost predicate SolelyOwns(members: seq<Member>, userId: string, w: int) {
    && (exists m | m in members :: m.workspaceId == w && m.userId == userId && m.role == OWNER)
    && (forall m | m in members && m.workspaceId == w && m.role == OWNER :: m.userId == userId)
  }

  /** The workspaces only they own whose decision is to delete. */
  ghost function Gone(t: Tables, userId: string, decisions: map<int, Action>): set<int> {
    set m | m in t.members && SolelyOwns(t.members, userId, m.workspaceId)
            && m.workspaceId in decisions && decisions[m.workspaceId].Delete? :: m.workspaceId
  }

  /** A membership needs a decision exactly when it is an OWNER's and no other member of the workspace is an OWNER. */
  lemma SoleOwnerExactly(members: seq<Member>, m: Member)
    requires Distinct(Map(KeyOf, members)) && m in members
    ensures IsSoleOwner(members, m)
            <==> && m.role == OWNER
                 && forall x | x in members && x.workspaceId == m.workspaceId && x.role == OWNER :: x == m
  {
    var owners := Filter(OwnerOf(m.workspaceId), members);
    FilterIn(OwnerOf(m.workspaceId), members);
    FilterDistinct(OwnerOf(m.workspaceId), KeyOf, members);
    if IsSoleOwner(members, m) {
      forall x | x in members && x.workspaceId == m.workspaceId && x.role == OWNER ensures x == m {
        assert x in owners && m in owners;
        assert owners[0] == x && owners[0] == m;
      }
    }
    if m.role == OWNER && |owners| > 1 {
      assert owners[0] in owners && owners[1] in owners;
      assert Map(KeyOf, owners)[0] != Map(KeyOf, owners)[1];
    }
  }

  lemma SolelyOwnsIff(t: Tables, userId: string, m: Member)
    requires Keyed(t) && m in t.members && m.userId == userId
    ensures IsSoleOwner(t.members, m) <==> SolelyOwns(t.members, userId, m.workspaceId)
  {
    SoleOwnerExactly(t.members, m);
    forall x | x in t.members && x.workspaceId == m.workspaceId && x.userId == userId ensures x == m {
      KeyDetermines(KeyOf, t.members, x, m);
    }
  }

  lemma WorkspacesSolelyOwned(t: Tables, userId: string)
    requires Keyed(t)
    ensures forall w :: w in Map(WorkspaceOf, SoleOwned(t, userId)) <==> SolelyOwns(t.members, userId, w)
  {
    var s := SoleOwned(t, userId);
    SoleOwnedFacts(t, userId);
    forall w ensures w in Map(WorkspaceOf, s) <==> SolelyOwns(t.members, userId, w) {
      if w in Map(WorkspaceOf, s) {
        var k :| 0 <= k < |s| && Map(WorkspaceOf, s)[k] == w;
        assert s[k] in s;
        SolelyOwnsIff(t, userId, s[k]);
      }
      if SolelyOwns(t.members, userId, w) {
        var m :| m in t.members && m.workspaceId == w && m.userId == userId && m.role == OWNER;
        SolelyOwnsIff(t, userId, m);
        var k :| 0 <= k < |s| && s[k] == m;
        assert Map(WorkspaceOf, s)[k] == w;
      }
    }
  }

  lemma DoomedIsGone(t: Tables, userId: string, decisions: map<int, Action>)
    requires Keyed(t)
    ensures Doomed(SoleOwned(t, userId), decisions) == Gone(t, userId, decisions)
  {
    var s := SoleOwned(t, userId);
    WorkspacesSolelyOwned(t, userId);
    SoleOwnedFacts(t, userId);
    forall w ensures w in Doomed(s, decisions) <==> w in Gone(t, userId, decisions) {
      if w in Doomed(s, decisions) {
        var m :| m in s && m.workspaceId == w && Dropped(decisions)(m);
        SolelyOwnsIff(t, userId, m);
      }
      if w in Gone(t, userId, decisions) {
        var m :| m in t.members && m.workspaceId == w && m.userId == userId && m.role == OWNER;
        SolelyOwnsIff(t, userId, m);
        assert m in s && Dropped(decisions)(m);
      }
    }
  }

  // ---- The rows that are left ----

  lemma LeftAssignments(rows: seq<Assignment>, userId: string, gone: set<int>)
    ensures Filter(NotAssignedTo(userId), Filter(Outside(AssignmentWorkspace, gone), rows))
            == Filter((a: Assignment) => a.userId != userId && a.workspaceId !in gone, rows)
  {
    FilterTwice(Outside(AssignmentWorkspace, gone), NotAssignedTo(userId),
                (a: Assignment) => a.userId != userId && a.workspaceId !in gone, rows);
  }

  lemma LeftInvitations(rows: seq<Invitation>, userId: string, gone: set<int>)
    ensures Filter(NotPendingFrom(userId), Filter(Outside(InvitationWorkspace, gone), rows))
            == Filter((i: Invitation) => !(i.inviterId == userId && i.pending) && i.workspaceId !in gone, rows)
  {
    FilterTwice(Outside(InvitationWorkspace, gone), NotPendingFrom(userId),
                (i: Invitation) => !(i.inviterId == userId && i.pending) && i.workspaceId !in gone, rows);
  }

  lemma LeftNotifications(rows: seq<Notification>, userId: string, gone: set<int>)
    ensures Filter(NotNotificationOf(userId), Filter(Outside(NotificationWorkspace, gone), rows))
            == Filter((n: Notification) => n.userId != userId && n.workspaceId !in gone, rows)
  {
    FilterTwice(Outside(NotificationWorkspace, gone), NotNotificationOf(userId),
                (n: Notification) => n.userId != userId && n.workspaceId !in gone, rows);
  }

  lemma LeftPings(rows: seq<UsagePing>, userId: string, gone: set<int>)
    ensures Filter(NotPingOf(userId), Filter(Outside(PingWorkspace, gone), rows))
            == Filter((p: UsagePing) => p.userId != userId && p.workspaceId !in gone, rows)
  {
    FilterTwice(Outside(PingWorkspace, gone), NotPingOf(userId),
                (p: UsagePing) => p.userId != userId && p.workspaceId !in gone, rows);
  }

  lemma OutcomeRows(t: Tables, userId: string, decisions: map<int, Action>, now: int, gone: set<int>)
    requires gone == Doomed(SoleOwned(t, userId), decisions)
    ensures var o := Outcome(t, userId, decisions, now);
            && o.workspaces == Filter(Outside(Itself, gone), t.workspaces)
            && o.assignments == Filter(NotAssignedTo(userId), Filter(Outside(AssignmentWorkspace, gone), t.assignments))
            && o.invitations
                == Filter(NotPendingFrom(userId), Filter(Outside(InvitationWorkspace, gone), t.invitations))
            && o.notifications
               == Filter(NotNotificationOf(userId), Filter(Outside(NotificationWorkspace, gone), t.notifications))
            && o.usagePings == Filter(NotPingOf(userId), Filter(Outside(PingWorkspace, gone), t.usagePings))
            && o.sessions == Filter(NotSessionOf(userId), t.sessions)
            && o.providers == Filter(NotProviderOf(userId), t.providers)
            && o.verifications == Filter(NotNaming(EmailOf(t.users, userId)), t.verifications)
  {
  }

  /**
    A row is left, in its place and as it was, exactly when its workspace is not dropped and it is
    not the user's own; an invitation also when it is theirs and was answered.
  */
  lemma RowsLeft(t: Tables, userId: string, decisions: map<int, Action>, now: int)
    requires Keyed(t)
    ensures var o, gone := Outcome(t, userId, decisions, now), Gone(t, userId, decisions);
            && o.workspaces == Filter((w: int) => w !in gone, t.workspaces)
            && o.assignments == Filter((a: Assignment) => a.userId != userId && a.workspaceId !in gone, t.assignments)
            && o.invitations
               == Filter((i: Invitation) => !(i.inviterId == userId && i.pending) && i.workspaceId !in gone,
                         t.invitations)
            && o.notifications
               == Filter((n: Notification) => n.userId != userId && n.workspaceId !in gone, t.notifications)
            && o.usagePings == Filter((p: UsagePing) => p.userId != userId && p.workspaceId !in gone, t.usagePings)
            && o.sessions == Filter((s: Session) => s.userId != userId, t.sessions)
            && o.providers == Filter((p: Provider) => p.userId != userId, t.providers)
  {
    var gone := Gone(t, userId, decisions);
    DoomedIsGone(t, userId, decisions);
    OutcomeRows(t, userId, decisions, now, gone);
    FilterAgree(Outside(Itself, gone), (w: int) => w !in gone, t.workspaces);
    LeftAssignments(t.assignments, userId, gone);
    LeftInvitations(t.invitations, userId, gone);
    LeftNotifications(t.notifications, userId, gone);
    LeftPings(t.usagePings, userId, gone);
    FilterAgree(NotSessionOf(userId), (s: Session) => s.userId != userId, t.sessions);
    FilterAgree(NotProviderOf(userId), (p: Provider) => p.userId != userId, t.providers);
  }

  /** Of the verifications exactly those go whose identifier holds the address of the account somewhere. */
  lemma VerificationsLeft(t: Tables, userId: string, decisions: map<int, Action>, now: int, u: User)
    requires Keyed(t) && u in t.users && u.id == userId
    ensures Outcome(t, userId, decisions, now).verifications
            == Filter((v: string) => !exists a: string, b: string :: v == a + u.email + b, t.verifications)
  {
    var gone := Doomed(SoleOwned(t, userId), decisions);
    OutcomeRows(t, userId, decisions, now, gone);
    FirstFound(WithId(userId), t.users);
    KeyDetermines(UserIdOf, t.users, FindUser(t.users, userId).value, u);
    forall v ensures NotNaming(u.email)(v) == !exists a: string, b: string :: v == a + u.email + b {
      ContainsIff(v, u.email);
    }
    FilterAgree(NotNaming(u.email), (v: string) => !exists a: string, b: string :: v == a + u.email + b,
                t.verifications);
  }

  lemma ContainsIff(v: string, part: string)
    ensures Redaction.Contains(v, part) <==> exists a: string, b: string :: v == a + part + b
  {
    if Redaction.Contains(v, part) {
      var i :| 0 <= i <= |v| && Redaction.OccursAt(v, part, i);
      assert v == v[..i] + part + v[i + |part|..];
    }
    if a: string, b: string :| v == a + part + b {
      assert Redaction.OccursAt(v, part, |a|);
    }
  }

  /** Every other user is as they were; the account is a tombstone in the same place. */
  lemma UsersLeft(t: Tables, userId: string, decisions: map<int, Action>, now: int)
    ensures var o := Outcome(t, userId, decisions, now);
            && |o.users| == |t.users|
            && forall k | 0 <= k < |t.users| ::
                 o.users[k] == if t.users[k].id != userId then t.users[k]
                               else User(userId, "deleted-" + userId + "@deleted.invalid", "Deleted user", Some(now))
  {
    OutcomeTables(t, userId, decisions, now);
  }

  lemma KeptComments(rows: seq<Comment>, gone: set<int>)
    ensures Filter(Outside(CommentWorkspace, gone), rows) == Filter((c: Comment) => c.workspaceId !in gone, rows)
  {
    FilterAgree(Outside(CommentWorkspace, gone), (c: Comment) => c.workspaceId !in gone, rows);
  }

  /** Comments of the remaining workspaces stay, in order; each is what one run of the redaction makes of its row. */
  lemma CommentsLeft(t: Tables, userId: string, decisions: map<int, Action>, now: int)
    requires Keyed(t)
    ensures var gone := Gone(t, userId, decisions);
            var kept := Filter((c: Comment) => c.workspaceId !in gone, t.comments);
            var left := Outcome(t, userId, decisions, now).comments;
            |left| == |kept| && forall k | 0 <= k < |kept| :: left[k] == Redaction.RedactRow(kept[k], userId)
  {
    DoomedIsGone(t, userId, decisions);
    OutcomeTables(t, userId, decisions, now);
    KeptComments(t.comments, Gone(t, userId, decisions));
  }

  /** Who a decision names as the new owner of a workspace only the user owns. */
  ghost predicate TakesOver(t: Tables, userId: string, decisions: map<int, Action>, m: Member) {
    && SolelyOwns(t.members, userId, m.workspaceId)
    && m.workspaceId in decisions && decisions[m.workspaceId] == Transfer(Some(m.userId))
  }

  /** Other users stay members of every workspace that is left, and only the named heirs change: they are OWNER. */
  lemma MembersLeft(t: Tables, userId: string, decisions: map<int, Action>, now: int)
    requires Keyed(t)
    ensures var gone := Gone(t, userId, decisions);
            Outcome(t, userId, decisions, now).members
            == Map((m: Member) => if TakesOver(t, userId, decisions, m) then m.(role := OWNER) else m,
                   Filter((m: Member) => m.userId != userId && m.workspaceId !in gone, t.members))
  {
    var s, gone := SoleOwned(t, userId), Gone(t, userId, decisions);
    DoomedIsGone(t, userId, decisions);
    WorkspacesSolelyOwned(t, userId);
    OutcomeTables(t, userId, decisions, now);
    PromotedRows(t.members, s, decisions, userId, gone);
    FilterAgree(Staying(userId, gone), (m: Member) => m.userId != userId && m.workspaceId !in gone, t.members);
    var left := Filter((m: Member) => m.userId != userId && m.workspaceId !in gone, t.members);
    MapAgree(Promote(s, decisions),
             (m: Member) => if TakesOver(t, userId, decisions, m) then m.(role := OWNER) else m, left);
  }

  // ---- The decisions, by the rows ----

  /** The named member of the workspace is somebody else, and that user is live. */
  ghost predicate LiveHeir(t: Tables, userId: string, w: int, newOwner: string) {
    && newOwner != userId
    && (exists h | h in t.members :: h.workspaceId == w && h.userId == newOwner)
    && (exists u | u in t.users :: u.id == newOwner && u.deletedAt.None?)
  }

  ghost predicate Decides(t: Tables, userId: string, decisions: map<int, Action>) {
    && (forall w :: w in decisions <==> SolelyOwns(t.members, userId, w))
    && (forall w | w in decisions && decisions[w].Transfer? ::
          decisions[w].newOwner.Some? && LiveHeir(t, userId, w, decisions[w].newOwner.value))
  }

  lemma LiveIff(users: seq<User>, id: string)
    requires Distinct(Map(UserIdOf, users))
    ensures Live(users, id) <==> exists u | u in users :: u.id == id && u.deletedAt.None?
  {
    FirstFound(WithId(id), users);
    if u :| u in users && u.id == id && u.deletedAt.None? {
      KeyDetermines(UserIdOf, users, FindUser(users, id).value, u);
    }
  }

  lemma HeirIff(t: Tables, userId: string, w: int, newOwner: string)
    requires Keyed(t)
    ensures LiveHeir(t, userId, w, newOwner)
            <==> newOwner != userId && FindMember(t.members, w, newOwner).Some? && Live(t.users, newOwner)
  {
    FirstFound(Named(w, newOwner), t.members);
    LiveIff(t.users, newOwner);
  }

  lemma CanSettleIff(t: Tables, m: Member, decisions: map<int, Action>, userId: string)
    requires Keyed(t)
    ensures CanSettle(t, m, decisions, userId)
            <==> && m.workspaceId in decisions
                 && (decisions[m.workspaceId].Transfer? ==>
                       && decisions[m.workspaceId].newOwner.Some?
                       && LiveHeir(t, userId, m.workspaceId, decisions[m.workspaceId].newOwner.value))
  {
    if m.workspaceId in decisions && decisions[m.workspaceId].newOwner.Some? {
      HeirIff(t, userId, m.workspaceId, decisions[m.workspaceId].newOwner.value);
    }
  }

  lemma SettleableIff(t: Tables, userId: string, decisions: map<int, Action>)
    requires Keyed(t)
    ensures Settleable(t, userId, decisions) <==> Decides(t, userId, decisions)
  {
    var s := SoleOwned(t, userId);
    WorkspacesSolelyOwned(t, userId);
    if Settleable(t, userId, decisions) {
      forall w | w in decisions && decisions[w].Transfer?
        ensures decisions[w].newOwner.Some? && LiveHeir(t, userId, w, decisions[w].newOwner.value)
      {
        var k :| 0 <= k < |s| && Map(WorkspaceOf, s)[k] == w;
        assert s[k] in s;
        CanSettleIff(t, s[k], decisions, userId);
      }
    }
    if Decides(t, userId, decisions) {
      forall m | m in s ensures CanSettle(t, m, decisions, userId) {
        var k :| 0 <= k < |s| && s[k] == m;
        assert Map(WorkspaceOf, s)[k] == m.workspaceId;
        CanSettleIff(t, m, decisions, userId);
      }
    }
  }

  // ---- The audit trail ----

  /** The user's memberships whose workspace is left, each of which gets a farewell and an eviction. */
  lemma SurvivingAre(t: Tables, userId: string, decisions: map<int, Action>)
    requires Keyed(t) && Decides(t, userId, decisions)
    ensures forall m :: m in Surviving(t, userId, decisions)
              <==> m in t.members && m.userId == userId && m.workspaceId !in Gone(t, userId, decisions)
    ensures Distinct(Map(WorkspaceOf, Surviving(t, userId, decisions)))
  {
    SettleableIff(t, userId, decisions);
    DoomedIsGone(t, userId, decisions);
    SoleOwnedFacts(t, userId);
    MembershipFacts(t, userId);
    FilterIn(HandedOver(decisions), SoleOwned(t, userId));
    forall m | m in t.members && m.userId == userId
      ensures m in Surviving(t, userId, decisions) <==> m.workspaceId !in Gone(t, userId, decisions)
    {
      DroppedIffGone(t, userId, decisions, m);
    }
    SurvivingApart(t, userId, decisions);
  }

  lemma SurvivingApart(t: Tables, userId: string, decisions: map<int, Action>)
    requires Keyed(t)
    ensures Distinct(Map(WorkspaceOf, Surviving(t, userId, decisions)))
  {
    var a, b := Filter(HandedOver(decisions), SoleOwned(t, userId)), OtherMemberships(t, userId);
    SoleOwnedFacts(t, userId);
    FilterIn(HandedOver(decisions), SoleOwned(t, userId));
    FilterDistinct(HandedOver(decisions), WorkspaceOf, SoleOwned(t, userId));
    OthersApart(t, userId);
    forall x, y | x in a && y in b ensures x.workspaceId != y.workspaceId {
      if x.workspaceId == y.workspaceId {
        KeyDetermines(KeyOf, t.members, x, y);
      }
    }
    DistinctSum(a, b);
  }

  lemma OthersApart(t: Tables, userId: string)
    requires Keyed(t)
    ensures Distinct(Map(WorkspaceOf, OtherMemberships(t, userId)))
  {
    var other := OtherMemberships(t, userId);
    SoleOwnedFacts(t, userId);
    FilterDistinct(OfUser(userId), KeyOf, t.members);
    MembershipFacts(t, userId);
    DistinctPermutation(KeyOf, Filter(OfUser(userId), t.members), Memberships(t, userId));
    FilterDistinct(Sole(t.members, false), KeyOf, Memberships(t, userId));
    forall i, j | 0 <= i < j < |other| ensures other[i].workspaceId != other[j].workspaceId {
      assert other[i] in other && other[j] in other;
      assert Map(KeyOf, other)[i] != Map(KeyOf, other)[j];
    }
  }

  lemma DistinctSum(a: seq<Member>, b: seq<Member>)
    requires Distinct(Map(WorkspaceOf, a)) && Distinct(Map(WorkspaceOf, b))
    requires forall x, y | x in a && y in b :: x.workspaceId != y.workspaceId
    ensures Distinct(Map(WorkspaceOf, a + b))
  {
    MapAppend(WorkspaceOf, a, b);
    forall i, j | 0 <= i < |a| && 0 <= j < |b| ensures a[i].workspaceId != b[j].workspaceId {
      assert a[i] in a && b[j] in b;
    }
  }

  ghost predicate FarewellRow(t: Tables, userId: string, decisions: map<int, Action>, a: Activity) {
    exists m | m in t.members ::
      && m.userId == userId && m.workspaceId !in Gone(t, userId, decisions)
      && a == Activity(m.workspaceId, userId, AccountDeleted, Some(userId), None, Some(m.role))
  }

  ghost predicate PromotionRow(t: Tables, userId: string, decisions: map<int, Action>, a: Activity) {
    exists h, u | h in t.members && u in t.users ::
      && TakesOver(t, userId, decisions, h) && u.id == h.userId
      && a == Activity(h.workspaceId, userId, MemberRoleChanged, Some(h.userId), Some(u.name), Some(h.role))
  }

  lemma {:induction false} PromotionsOf(t: Tables, s: seq<Member>, decisions: map<int, Action>, userId: string,
                                        a: Activity)
    ensures a in Promotions(t, s, decisions, userId)
            <==> exists m | m in s :: a in Promotion(t, m, decisions, userId)
  {
    if s != [] {
      PromotionsOf(t, s[..|s| - 1], decisions, userId, a);
      PrefixMore(s, |s| - 1);
      if m :| m in s && a in Promotion(t, m, decisions, userId) {
        assert m in s[..|s| - 1] || m == s[|s| - 1];
      }
    }
  }

  /** One promotion: the row of the member and of the user that the decision names. */
  lemma PromotionOf(t: Tables, m: Member, decisions: map<int, Action>, userId: string, h: Member, u: User)
    requires Keyed(t) && CanSettle(t, m, decisions, userId) && decisions[m.workspaceId] == Transfer(Some(h.userId))
    requires h in t.members && h.workspaceId == m.workspaceId && u in t.users && u.id == h.userId
    ensures Promotion(t, m, decisions, userId)
            == [Activity(h.workspaceId, userId, MemberRoleChanged, Some(h.userId), Some(u.name), Some(h.role))]
  {
    FirstFound(Named(m.workspaceId, h.userId), t.members);
    FirstFound(WithId(h.userId), t.users);
    KeyDetermines(KeyOf, t.members, FindMember(t.members, m.workspaceId, h.userId).value, h);
    KeyDetermines(UserIdOf, t.users, FindUser(t.users, h.userId).value, u);
  }

  lemma HeirRows(t: Tables, m: Member, decisions: map<int, Action>, userId: string) returns (h: Member, u: User)
    requires Keyed(t) && CanSettle(t, m, decisions, userId) && decisions[m.workspaceId].Transfer?
    ensures decisions[m.workspaceId] == Transfer(Some(h.userId)) && h in t.members && h.workspaceId == m.workspaceId
    ensures u in t.users && u.id == h.userId && h.userId != userId
  {
    var newOwner := decisions[m.workspaceId].newOwner.value;
    FirstFound(Named(m.workspaceId, newOwner), t.members);
    FirstFound(WithId(newOwner), t.users);
    h, u := FindMember(t.members, m.workspaceId, newOwner).value, FindUser(t.users, newOwner).value;
  }

  lemma PromotionIs(t: Tables, userId: string, decisions: map<int, Action>, m: Member, a: Activity)
    requires Keyed(t) && CanSettle(t, m, decisions, userId) && SolelyOwns(t.members, userId, m.workspaceId)
    requires a in Promotion(t, m, decisions, userId)
    ensures PromotionRow(t, userId, decisions, a)
  {
    var h, u := HeirRows(t, m, decisions, userId);
    PromotionOf(t, m, decisions, userId, h, u);
    assert TakesOver(t, userId, decisions, h);
  }

  lemma PromotionFor(t: Tables, userId: string, decisions: map<int, Action>, m: Member, h: Member, u: User)
    requires Keyed(t) && CanSettle(t, m, decisions, userId) && m.workspaceId == h.workspaceId
    requires h in t.members && u in t.users && TakesOver(t, userId, decisions, h) && u.id == h.userId
    ensures Activity(h.workspaceId, userId, MemberRoleChanged, Some(h.userId), Some(u.name), Some(h.role))
            in Promotion(t, m, decisions, userId)
  {
    PromotionOf(t, m, decisions, userId, h, u);
  }

  /** The membership through which the user solely owns the workspace. */
  lemma SoleMembership(t: Tables, userId: string, w: int) returns (m: Member)
    requires Keyed(t) && SolelyOwns(t.members, userId, w)
    ensures m in SoleOwned(t, userId) && m.workspaceId == w
  {
    var s := SoleOwned(t, userId);
    WorkspacesSolelyOwned(t, userId);
    var k :| 0 <= k < |s| && Map(WorkspaceOf, s)[k] == w;
    m := s[k];
  }

  lemma SoleMember(t: Tables, userId: string, m: Member)
    requires Keyed(t) && m in SoleOwned(t, userId)
    ensures SolelyOwns(t.members, userId, m.workspaceId)
  {
    SoleOwnedFacts(t, userId);
    SolelyOwnsIff(t, userId, m);
  }

  lemma PromotionsAre(t: Tables, userId: string, decisions: map<int, Action>, a: Activity)
    requires Keyed(t) && Decides(t, userId, decisions)
    ensures a in Promotions(t, SoleOwned(t, userId), decisions, userId) <==> PromotionRow(t, userId, decisions, a)
  {
    var s := SoleOwned(t, userId);
    SettleableIff(t, userId, decisions);
    PromotionsOf(t, s, decisions, userId, a);
    if m :| m in s && a in Promotion(t, m, decisions, userId) {
      SoleMember(t, userId, m);
      PromotionIs(t, userId, decisions, m, a);
    }
    if PromotionRow(t, userId, decisions, a) {
      var h, u :| h in t.members && u in t.users && TakesOver(t, userId, decisions, h) && u.id == h.userId
                  && a == Activity(h.workspaceId, userId, MemberRoleChanged, Some(h.userId), Some(u.name),
                                   Some(h.role));
      var m := SoleMembership(t, userId, h.workspaceId);
      PromotionFor(t, userId, decisions, m, h, u);
    }
  }

  function NewRowKey(a: Activity): (int, ActivityType) { (a.workspaceId, a.kind) }

  lemma {:induction false} PromotionsApart(t: Tables, s: seq<Member>, decisions: map<int, Action>, userId: string)
    requires Distinct(Map(WorkspaceOf, s))
    ensures Distinct(Map(NewRowKey, Promotions(t, s, decisions, userId)))
  {
    if s != [] {
      var before, m := s[..|s| - 1], s[|s| - 1];
      assert forall k | 0 <= k < |before| :: Map(WorkspaceOf, before)[k] == Map(WorkspaceOf, s)[k];
      PromotionsApart(t, before, decisions, userId);
      PromotionWorkspaces(t, before, decisions, userId);
      PromotionFacts(t, m, decisions, userId);
      assert m.workspaceId !in Map(WorkspaceOf, before) by { assert Map(WorkspaceOf, s)[|s| - 1] == m.workspaceId; }
      DistinctRows(Promotions(t, before, decisions, userId), Promotion(t, m, decisions, userId));
    }
  }

  lemma DistinctRows(a: seq<Activity>, b: seq<Activity>)
    requires Distinct(Map(NewRowKey, a)) && Distinct(Map(NewRowKey, b))
    requires forall x, y | x in a && y in b :: NewRowKey(x) != NewRowKey(y)
    ensures Distinct(Map(NewRowKey, a + b))
  {
    MapAppend(NewRowKey, a, b);
    forall i, j | 0 <= i < |a| && 0 <= j < |b| ensures NewRowKey(a[i]) != NewRowKey(b[j]) {
      assert a[i] in a && b[j] in b;
    }
  }

  lemma FarewellsApart(userId: string, surviving: seq<Member>)
    requires Distinct(Map(WorkspaceOf, surviving))
    ensures Distinct(Map(NewRowKey, Map(Farewell(userId), surviving)))
    ensures forall a | a in Map(Farewell(userId), surviving) :: a.kind == AccountDeleted
  {
    forall i, j | 0 <= i < j < |surviving| ensures surviving[i].workspaceId != surviving[j].workspaceId {
      assert Map(WorkspaceOf, surviving)[i] != Map(WorkspaceOf, surviving)[j];
    }
  }

  lemma FarewellsAre(t: Tables, userId: string, decisions: map<int, Action>, a: Activity)
    requires Keyed(t) && Decides(t, userId, decisions)
    ensures a in Map(Farewell(userId), Surviving(t, userId, decisions)) <==> FarewellRow(t, userId, decisions, a)
  {
    var surviving := Surviving(t, userId, decisions);
    SurvivingAre(t, userId, decisions);
    if a in Map(Farewell(userId), surviving) {
      var k :| 0 <= k < |surviving| && Map(Farewell(userId), surviving)[k] == a;
      assert surviving[k] in surviving;
    }
    if FarewellRow(t, userId, decisions, a) {
      var m :| m in t.members && m.userId == userId && m.workspaceId !in Gone(t, userId, decisions)
               && a == Activity(m.workspaceId, userId, AccountDeleted, Some(userId), None, Some(m.role));
      var k :| 0 <= k < |surviving| && surviving[k] == m;
      assert Map(Farewell(userId), surviving)[k] == a;
    }
  }

  /** The new rows of the trail, in the order they are written. */
  function NewRows(t: Tables, userId: string, decisions: map<int, Action>): seq<Activity> {
    Promotions(t, SoleOwned(t, userId), decisions, userId) + Map(Farewell(userId), Surviving(t, userId, decisions))
  }

  lemma NewRowsNameOthers(t: Tables, userId: string, decisions: map<int, Action>)
    ensures forall a | a in NewRows(t, userId, decisions) :: RedactActivity(userId)(a) == a
  {
    PromotionWorkspaces(t, SoleOwned(t, userId), decisions, userId);
  }

  lemma TrailIs(t: Tables, userId: string, decisions: map<int, Action>, now: int, kept: seq<Activity>)
    requires kept == Filter(Outside(ActivityWorkspace, Doomed(SoleOwned(t, userId), decisions)), t.activities)
    ensures Outcome(t, userId, decisions, now).activities
            == Map(RedactActivity(userId), kept) + NewRows(t, userId, decisions)
  {
    var s := SoleOwned(t, userId);
    var promotions, farewells := Promotions(t, s, decisions, userId),
                                 Map(Farewell(userId), Surviving(t, userId, decisions));
    Append3(kept, promotions, farewells);
    MapAppend(RedactActivity(userId), kept, NewRows(t, userId, decisions));
    NewRowsNameOthers(t, userId, decisions);
    MapSame(RedactActivity(userId), NewRows(t, userId, decisions));
  }

  /** The rows that were there, those about the user without the name, and the new ones behind them. */
  ghost predicate TrailOf(trail: seq<Activity>, kept: seq<Activity>, more: seq<Activity>, userId: string) {
    && |trail| == |kept| + |more| && trail[|kept|..] == more
    && forall k | 0 <= k < |kept| ::
         trail[k] == if kept[k].target == Some(userId) && kept[k].targetName.Some?
                     then kept[k].(targetName := Some("Deleted user")) else kept[k]
  }

  lemma TrailRows(kept: seq<Activity>, more: seq<Activity>, userId: string)
    ensures TrailOf(Map(RedactActivity(userId), kept) + more, kept, more, userId)
  {
  }

  lemma KeptAuditRows(rows: seq<Activity>, gone: set<int>)
    ensures Filter(Outside(ActivityWorkspace, gone), rows) == Filter((a: Activity) => a.workspaceId !in gone, rows)
  {
    FilterAgree(Outside(ActivityWorkspace, gone), (a: Activity) => a.workspaceId !in gone, rows);
  }

  /**
    The audit rows of the remaining workspaces stay in place, the ones about the user lose the name
    and nothing else; behind them stand, once each, a farewell for every membership that was left
    and a promotion for every workspace handed over.
  */
  lemma AuditLeft(t: Tables, userId: string, decisions: map<int, Action>, now: int) returns (more: seq<Activity>)
    requires Keyed(t) && Decides(t, userId, decisions)
    ensures var gone := Gone(t, userId, decisions);
            TrailOf(Outcome(t, userId, decisions, now).activities,
                    Filter((a: Activity) => a.workspaceId !in gone, t.activities), more, userId)
    ensures forall a :: a in more <==> FarewellRow(t, userId, decisions, a) || PromotionRow(t, userId, decisions, a)
    ensures Distinct(more)
  {
    more := NewRows(t, userId, decisions);
    DoomedIsGone(t, userId, decisions);
    KeptAuditRows(t.activities, Gone(t, userId, decisions));
    var kept := Filter(Outside(ActivityWorkspace, Gone(t, userId, decisions)), t.activities);
    TrailIs(t, userId, decisions, now, kept);
    TrailRows(kept, more, userId);
    NewRowsAre(t, userId, decisions);
    NewRowsApart(t, userId, decisions);
  }

  lemma NewRowsAre(t: Tables, userId: string, decisions: map<int, Action>)
    requires Keyed(t) && Decides(t, userId, decisions)
    ensures forall a :: a in NewRows(t, userId, decisions)
              <==> FarewellRow(t, userId, decisions, a) || PromotionRow(t, userId, decisions, a)
  {
    forall a ensures a in NewRows(t, userId, decisions)
                     <==> FarewellRow(t, userId, decisions, a) || PromotionRow(t, userId, decisions, a)
    {
      FarewellsAre(t, userId, decisions, a);
      PromotionsAre(t, userId, decisions, a);
    }
  }

  lemma NewRowsApart(t: Tables, userId: string, decisions: map<int, Action>)
    requires Keyed(t)
    ensures Distinct(NewRows(t, userId, decisions))
  {
    var promotions := Promotions(t, SoleOwned(t, userId), decisions, userId);
    var farewells := Map(Farewell(userId), Surviving(t, userId, decisions));
    SoleOwnedFacts(t, userId);
    PromotionsApart(t, SoleOwned(t, userId), decisions, userId);
    PromotionsAreNoFarewells(t, SoleOwned(t, userId), decisions, userId);
    SurvivingApart(t, userId, decisions);
    FarewellsApart(userId, Surviving(t, userId, decisions));
    DistinctRows(promotions, farewells);
    DistinctByKey(promotions + farewells);
  }

  lemma DistinctByKey(rows: seq<Activity>)
    requires Distinct(Map(NewRowKey, rows))
    ensures Distinct(rows)
  {
    forall i, j | 0 <= i < j < |rows| ensures rows[i] != rows[j] {
      assert Map(NewRowKey, rows)[i] != Map(NewRowKey, rows)[j];
    }
  }

  // ---- Workspaces the user is not in ----

  /**
    A workspace the user was not in keeps its members row for row, the rows of others in every
    table, and its audit rows too, with no name left in those about the departed user.
  */
  lemma OthersUntouched(t: Tables, userId: string, decisions: map<int, Action>, now: int, w: int)
    requires Keyed(t) && (forall m | m in t.members && m.workspaceId == w :: m.userId != userId)
    ensures var o := Outcome(t, userId, decisions, now);
            && (w in o.workspaces <==> w in t.workspaces)
            && Filter((m: Member) => m.workspaceId == w, o.members)
               == Filter((m: Member) => m.workspaceId == w, t.members)
            && Filter((a: Assignment) => a.workspaceId == w, o.assignments)
               == Filter((a: Assignment) => a.workspaceId == w && a.userId != userId, t.assignments)
            && Filter((a: Activity) => a.workspaceId == w, o.activities)
               == Map((a: Activity) => if a.target == Some(userId) && a.targetName.Some?
                                       then a.(targetName := Some("Deleted user")) else a,
                      Filter((a: Activity) => a.workspaceId == w, t.activities))
  {
    var s := SoleOwned(t, userId);
    NotConcerned(t, userId, decisions, w);
    OutcomeWorkspaces(t, userId, decisions, now, w);
    RowsUntouched(t.members, s, decisions, userId, w);
    FilterAgree(InWorkspace(w), (m: Member) => m.workspaceId == w, t.members);
    FilterAgree(InWorkspace(w), (m: Member) => m.workspaceId == w, Outcome(t, userId, decisions, now).members);
    AssignmentsUntouched(t, userId, decisions, now, w);
    TrailUntouched(t, userId, decisions, now, w);
  }

  lemma AssignmentsUntouched(t: Tables, userId: string, decisions: map<int, Action>, now: int, w: int)
    requires Keyed(t) && w !in Doomed(SoleOwned(t, userId), decisions)
    ensures Filter((a: Assignment) => a.workspaceId == w, Outcome(t, userId, decisions, now).assignments)
            == Filter((a: Assignment) => a.workspaceId == w && a.userId != userId, t.assignments)
  {
    var gone := Gone(t, userId, decisions);
    DoomedIsGone(t, userId, decisions);
    RowsLeft(t, userId, decisions, now);
    FilterTwice((a: Assignment) => a.userId != userId && a.workspaceId !in gone, (a: Assignment) => a.workspaceId == w,
                (a: Assignment) => a.workspaceId == w && a.userId != userId, t.assignments);
  }

  lemma TrailUntouched(t: Tables, userId: string, decisions: map<int, Action>, now: int, w: int)
    requires w !in Doomed(SoleOwned(t, userId), decisions)
    requires forall a | a in Promotions(t, SoleOwned(t, userId), decisions, userId) :: a.workspaceId != w
    requires forall m | m in Surviving(t, userId, decisions) :: m.workspaceId != w
    ensures Filter((a: Activity) => a.workspaceId == w, Outcome(t, userId, decisions, now).activities)
            == Map((a: Activity) => if a.target == Some(userId) && a.targetName.Some?
                                    then a.(targetName := Some("Deleted user")) else a,
                   Filter((a: Activity) => a.workspaceId == w, t.activities))
  {
    var s := SoleOwned(t, userId);
    AuditUntouched(t.activities, Doomed(s, decisions), Promotions(t, s, decisions, userId),
                   Surviving(t, userId, decisions), userId, w);
    FilterAgree(AuditOf(w), (a: Activity) => a.workspaceId == w, t.activities);
    FilterAgree(AuditOf(w), (a: Activity) => a.workspaceId == w, Outcome(t, userId, decisions, now).activities);
    MapAgree(RedactActivity(userId), (a: Activity) => if a.target == Some(userId) && a.targetName.Some?
                                     then a.(targetName := Some("Deleted user")) else a,
             Filter((a: Activity) => a.workspaceId == w, t.activities));
  }

  // ---- Which request fails, and how ----

  ghost predicate LiveAccount(t: Tables, userId: string, u: User) {
    u in t.users && u.id == userId && u.deletedAt.None?
  }

  /** One decision for every workspace only they own and none for another. */
  ghost predicate DecidesEach(t: Tables, userId: string, ds: seq<Disposition>) {
    && (forall i, j | 0 <= i < j < |ds| :: ds[i].workspaceId != ds[j].workspaceId)
    && (forall w :: (exists d | d in ds :: d.workspaceId == w) <==> SolelyOwns(t.members, userId, w))
  }

  /** Every transfer names an heir. */
  ghost predicate HeirsNamed(t: Tables, userId: string, ds: seq<Disposition>) {
    forall d | d in ds && d.action.Transfer? ::
      d.action.newOwner.Some? && LiveHeir(t, userId, d.workspaceId, d.action.newOwner.value)
  }

  lemma DecidesEachIff(t: Tables, userId: string, ds: seq<Disposition>)
    requires Keyed(t)
    ensures DecidesExactly(ds, SoleOwned(t, userId)) <==> DecidesEach(t, userId, ds)
  {
    WorkspacesSolelyOwned(t, userId);
    var named := Map(DecidedFor, ds);
    forall w ensures w in named <==> exists d | d in ds :: d.workspaceId == w {
      if w in named {
        var k :| 0 <= k < |ds| && named[k] == w;
        assert ds[k] in ds;
      }
      if d :| d in ds && d.workspaceId == w {
        var k :| 0 <= k < |ds| && ds[k] == d;
        assert named[k] == w;
      }
    }
    assert Distinct(named) <==> forall i, j | 0 <= i < j < |ds| :: ds[i].workspaceId != ds[j].workspaceId by {
      assert forall k | 0 <= k < |ds| :: named[k] == ds[k].workspaceId;
    }
  }

  lemma {:induction false} FilterSorted<T>(le: (T, T) -> bool, p: T -> bool, s: seq<T>)
    requires Sorted(le, s)
    ensures Sorted(le, Filter(p, s))
  {
    if s != [] {
      var before := s[..|s| - 1];
      FilterSorted(le, p, before);
      FilterIn(p, before);
      var kept := Filter(p, before);
      forall i | 0 <= i < |kept| ensures le(kept[i], s[|s| - 1]) {
        assert kept[i] in kept;
        var k :| 0 <= k < |before| && before[k] == kept[i];
        assert le(s[k], s[|s| - 1]);
      }
    }
  }

  lemma SoleOwnedAscends(t: Tables, userId: string)
    ensures Sorted(ByWorkspace, SoleOwned(t, userId))
  {
    SortSorted(ByWorkspace, Filter(OfUser(userId), t.members));
    FilterSorted(ByWorkspace, Sole(t.members, true), Memberships(t, userId));
  }

  lemma NotBelow(t: Tables, userId: string, k: nat)
    requires k < |SoleOwned(t, userId)|
    ensures forall j | k <= j < |SoleOwned(t, userId)| ::
              SoleOwned(t, userId)[k].workspaceId <= SoleOwned(t, userId)[j].workspaceId
  {
    var s := SoleOwned(t, userId);
    SoleOwnedAscends(t, userId);
    forall j | k <= j < |s| ensures s[k].workspaceId <= s[j].workspaceId {
      assert k < j ==> ByWorkspace(s[k], s[j]);
    }
  }

  /** The error of a decision that cannot be carried out does not depend on the workspaces settled before it. */
  lemma SameTrouble(t: Tables, before: seq<Member>, m: Member, decisions: map<int, Action>, userId: string)
    requires m.workspaceId !in Map(WorkspaceOf, before)
    ensures Settle(Settled(t, before, decisions, userId), m, decisions, userId).Err? ==>
              Settle(Settled(t, before, decisions, userId), m, decisions, userId)
              == Settle(t, m, decisions, userId)
  {
    if m.workspaceId in decisions && decisions[m.workspaceId].newOwner.Some? {
      StillFound(t, before, decisions, userId, m.workspaceId, decisions[m.workspaceId].newOwner.value);
    }
  }

  lemma {:induction false} FirstTrouble(t: Tables, s: seq<Member>, decisions: map<int, Action>, userId: string)
    returns (k: nat)
    requires Distinct(Map(WorkspaceOf, s)) && SettleAll(t, s, decisions, userId).Err?
    ensures k < |s| && (forall j | 0 <= j < k :: CanSettle(t, s[j], decisions, userId))
    ensures Settle(t, s[k], decisions, userId) == SettleAll(t, s, decisions, userId)
  {
    var before, m := s[..|s| - 1], s[|s| - 1];
    assert forall j | 0 <= j < |before| :: Map(WorkspaceOf, before)[j] == Map(WorkspaceOf, s)[j];
    if SettleAll(t, before, decisions, userId).Err? {
      k := FirstTrouble(t, before, decisions, userId);
    } else {
      k := |s| - 1;
      SettleAllInOnePass(t, before, decisions, userId);
      assert m.workspaceId !in Map(WorkspaceOf, before) by { assert Map(WorkspaceOf, s)[|s| - 1] == m.workspaceId; }
      SameTrouble(t, before, m, decisions, userId);
    }
  }

  /** A transfer to nobody is a conflict, as is one to a tombstone; to a stranger or to oneself it finds no member. */
  ghost predicate FailsAs(t: Tables, userId: string, w: int, action: Action, e: Error) {
    && action.Transfer?
    && match action.newOwner
       case None => e == Conflict
       case Some(id) =>
         if id == userId || (forall h | h in t.members :: !(h.workspaceId == w && h.userId == id))
            || (forall u | u in t.users :: u.id != id)
         then e == NotFound
         else e == Conflict && forall u | u in t.users :: !(u.id == id && u.deletedAt.None?)
  }

  lemma TroubleIs(t: Tables, m: Member, decisions: map<int, Action>, userId: string)
    requires Keyed(t) && m.workspaceId in decisions && Settle(t, m, decisions, userId).Err?
    ensures FailsAs(t, userId, m.workspaceId, decisions[m.workspaceId], Settle(t, m, decisions, userId).error)
  {
    if decisions[m.workspaceId].newOwner.Some? {
      var id := decisions[m.workspaceId].newOwner.value;
      FirstFound(Named(m.workspaceId, id), t.members);
      FirstFound(WithId(id), t.users);
      LiveIff(t.users, id);
    }
  }

  lemma LiveAccountIs(t: Tables, userId: string, u: User)
    requires Keyed(t) && LiveAccount(t, userId, u)
    ensures Live(t.users, userId) && FindUser(t.users, userId) == Some(u)
  {
    LiveIff(t.users, userId);
    FirstFound(WithId(userId), t.users);
    KeyDetermines(UserIdOf, t.users, FindUser(t.users, userId).value, u);
  }

  lemma DecisionOf(ds: seq<Disposition>, d: Disposition)
    requires Distinct(Map(DecidedFor, ds)) && d in ds
    ensures d.workspaceId in Decided(ds) && Decided(ds)[d.workspaceId] == d.action
  {
    DecidedFacts(ds);
    var k :| 0 <= k < |ds| && ds[k] == d;
  }

  lemma DecisionsAre(t: Tables, userId: string, ds: seq<Disposition>)
    requires Keyed(t) && DecidesExactly(ds, SoleOwned(t, userId))
    ensures forall w :: w in Decided(ds) <==> SolelyOwns(t.members, userId, w)
    ensures Decides(t, userId, Decided(ds)) <==> HeirsNamed(t, userId, ds)
  {
    DecidedFacts(ds);
    WorkspacesSolelyOwned(t, userId);
    forall d | d in ds ensures d.workspaceId in Decided(ds) && Decided(ds)[d.workspaceId] == d.action {
      DecisionOf(ds, d);
    }
    forall w | w in Decided(ds) ensures exists d :: d in ds && d.workspaceId == w && d.action == Decided(ds)[w] {
      var k :| 0 <= k < |ds| && Map(DecidedFor, ds)[k] == w;
      assert ds[k] in ds;
    }
  }

  /** The account and its address, as the first two checks see them. */
  lemma AccountChecked(t: Tables, userId: string, confirmEmail: string, lower: string -> string)
    requires Keyed(t)
    ensures Live(t.users, userId) <==> exists u :: LiveAccount(t, userId, u)
    ensures Live(t.users, userId) && Confirms(t, userId, confirmEmail, lower)
            <==> exists u :: LiveAccount(t, userId, u) && lower(Trim(confirmEmail)) == lower(Trim(u.email))
    ensures forall u | LiveAccount(t, userId, u) ::
              Confirms(t, userId, confirmEmail, lower) <==> lower(Trim(confirmEmail)) == lower(Trim(u.email))
  {
    FirstFound(WithId(userId), t.users);
    forall u | LiveAccount(t, userId, u)
      ensures Live(t.users, userId) && FindUser(t.users, userId) == Some(u)
    {
      LiveAccountIs(t, userId, u);
    }
    if Live(t.users, userId) {
      assert LiveAccount(t, userId, FindUser(t.users, userId).value);
    }
  }

  /** A request goes through exactly when the account is live, the address is its own and every decision can be kept. */
  lemma GoesThroughExactly(t: Tables, userId: string, confirmEmail: string, ds: seq<Disposition>,
                           lower: string -> string, now: int)
    requires Keyed(t)
    ensures DeleteAccount(t, userId, confirmEmail, ds, lower, now).Ok?
            <==> && (exists u :: LiveAccount(t, userId, u) && lower(Trim(confirmEmail)) == lower(Trim(u.email)))
                 && DecidesEach(t, userId, ds) && HeirsNamed(t, userId, ds)
    ensures DeleteAccount(t, userId, confirmEmail, ds, lower, now).Ok? ==>
              && Decides(t, userId, Decided(ds))
              && DeleteAccount(t, userId, confirmEmail, ds, lower, now).value == Outcome(t, userId, Decided(ds), now)
  {
    DeletionGoesThroughIff(t, userId, confirmEmail, ds, lower, now);
    DecidesEachIff(t, userId, ds);
    AccountChecked(t, userId, confirmEmail, lower);
    if DecidesExactly(ds, SoleOwned(t, userId)) {
      CarriedOut(t, userId, ds);
    }
  }

  lemma CarriedOut(t: Tables, userId: string, ds: seq<Disposition>)
    requires Keyed(t) && DecidesExactly(ds, SoleOwned(t, userId))
    ensures (forall m | m in SoleOwned(t, userId) :: CanSettle(t, m, Decided(ds), userId))
            <==> HeirsNamed(t, userId, ds)
    ensures HeirsNamed(t, userId, ds) ==> Decides(t, userId, Decided(ds))
  {
    DecisionsAre(t, userId, ds);
    DecidedFacts(ds);
    SettleableIff(t, userId, Decided(ds));
  }

  /** The first failure in the order of the checks decides the answer: the account, the address, the decisions. */
  lemma FailsInOrder(t: Tables, userId: string, confirmEmail: string, ds: seq<Disposition>, lower: string -> string,
                     now: int)
    requires Keyed(t)
    ensures (forall u :: !LiveAccount(t, userId, u)) ==>
              DeleteAccount(t, userId, confirmEmail, ds, lower, now) == Err(NotFound)
    ensures forall u | LiveAccount(t, userId, u) && lower(Trim(confirmEmail)) != lower(Trim(u.email)) ::
              DeleteAccount(t, userId, confirmEmail, ds, lower, now) == Err(Forbidden)
    ensures forall u | LiveAccount(t, userId, u) && lower(Trim(confirmEmail)) == lower(Trim(u.email)) ::
              !DecidesEach(t, userId, ds) ==> DeleteAccount(t, userId, confirmEmail, ds, lower, now) == Err(Conflict)
  {
    AccountChecked(t, userId, confirmEmail, lower);
    DecidesEachIff(t, userId, ds);
  }

  /** Among decisions that match, the one for the smallest workspace that cannot be carried out decides the error. */
  lemma FirstTransferFails(t: Tables, userId: string, confirmEmail: string, ds: seq<Disposition>,
                           lower: string -> string, now: int, u: User) returns (d: Disposition)
    requires Keyed(t) && LiveAccount(t, userId, u) && lower(Trim(confirmEmail)) == lower(Trim(u.email))
    requires DecidesEach(t, userId, ds) && !HeirsNamed(t, userId, ds)
    ensures d in ds && DeleteAccount(t, userId, confirmEmail, ds, lower, now).Err?
    ensures FailsAs(t, userId, d.workspaceId, d.action, DeleteAccount(t, userId, confirmEmail, ds, lower, now).error)
    ensures forall x | x in ds && x.workspaceId < d.workspaceId && x.action.Transfer? ::
              x.action.newOwner.Some? && LiveHeir(t, userId, x.workspaceId, x.action.newOwner.value)
  {
    var s, decisions := SoleOwned(t, userId), Decided(ds);
    GoesThroughExactly(t, userId, confirmEmail, ds, lower, now);
    LiveAccountIs(t, userId, u);
    DecidesEachIff(t, userId, ds);
    SoleOwnedFacts(t, userId);
    assert SettleAll(t, s, decisions, userId) == Err(DeleteAccount(t, userId, confirmEmail, ds, lower, now).error);
    var k := FirstTrouble(t, s, decisions, userId);
    d := DecisionFor(t, userId, ds, s[k]);
    TroubleIs(t, s[k], decisions, userId);
    EarlierHeirs(t, userId, ds, k);
  }

  lemma DecisionFor(t: Tables, userId: string, ds: seq<Disposition>, m: Member) returns (d: Disposition)
    requires DecidesExactly(ds, SoleOwned(t, userId)) && m in SoleOwned(t, userId)
    ensures d in ds && d.workspaceId == m.workspaceId
    ensures m.workspaceId in Decided(ds) && Decided(ds)[m.workspaceId] == d.action
  {
    var s := SoleOwned(t, userId);
    var i :| 0 <= i < |s| && s[i] == m;
    assert Map(WorkspaceOf, s)[i] == m.workspaceId && m.workspaceId in Map(WorkspaceOf, s);
    var k :| 0 <= k < |ds| && Map(DecidedFor, ds)[k] == m.workspaceId;
    d := ds[k];
    DecisionOf(ds, d);
  }

  lemma EarlierHeirs(t: Tables, userId: string, ds: seq<Disposition>, k: nat)
    requires Keyed(t) && DecidesExactly(ds, SoleOwned(t, userId)) && k < |SoleOwned(t, userId)|
    requires forall j | 0 <= j < k :: CanSettle(t, SoleOwned(t, userId)[j], Decided(ds), userId)
    ensures forall x | x in ds && x.workspaceId < SoleOwned(t, userId)[k].workspaceId && x.action.Transfer? ::
              x.action.newOwner.Some? && LiveHeir(t, userId, x.workspaceId, x.action.newOwner.value)
  {
    var s := SoleOwned(t, userId);
    NotBelow(t, userId, k);
    forall x | x in ds && x.workspaceId < s[k].workspaceId && x.action.Transfer?
      ensures x.action.newOwner.Some? && LiveHeir(t, userId, x.workspaceId, x.action.newOwner.value)
    {
      DecisionOf(ds, x);
      var i :| 0 <= i < |ds| && ds[i] == x;
      assert Map(DecidedFor, ds)[i] == x.workspaceId && x.workspaceId in Map(DecidedFor, ds);
      var j :| 0 <= j < |s| && Map(WorkspaceOf, s)[j] == x.workspaceId;
      CanSettleIff(t, s[j], Decided(ds), userId);
    }
  }

  // ---- The figures of the answer ----

  lemma RemovedRows<T>(workspace: T -> int, keeps: T -> bool, theirs: T -> bool, gone: set<int>, rows: seq<T>)
    requires forall x | x in rows :: theirs(x) <==> !keeps(x) && workspace(x) !in gone
    ensures var left := Filter(Outside(workspace, gone), rows);
            |left| - |Filter(keeps, left)| == |Filter(theirs, rows)|
  {
    var left, drops := Filter(Outside(workspace, gone), rows), (x: T) => !keeps(x);
    FilterSplit(keeps, drops, left);
    FilterTwice(Outside(workspace, gone), drops, theirs, rows);
  }

  lemma RemovedOfUser<T>(keeps: T -> bool, theirs: T -> bool, rows: seq<T>)
    requires forall x | x in rows :: theirs(x) <==> !keeps(x)
    ensures |rows| - |Filter(keeps, rows)| == |Filter(theirs, rows)|
  {
    FilterSplit(keeps, theirs, rows);
  }

  /** What the statements remove after the workspaces are settled: the user's own rows in workspaces that are left. */
  lemma FiguresAre(t: Tables, userId: string, decisions: map<int, Action>, now: int, counts: Counts)
    requires Keyed(t)
    requires Removed(counts, Settled(t, SoleOwned(t, userId), decisions, userId), Outcome(t, userId, decisions, now))
    ensures var gone := Gone(t, userId, decisions);
            && counts.assignmentsRemoved
               == |Filter((a: Assignment) => a.userId == userId && a.workspaceId !in gone, t.assignments)|
            && counts.invitationsRevoked
               == |Filter((i: Invitation) => i.inviterId == userId && i.pending
                          && i.workspaceId !in gone, t.invitations)|
            && counts.notificationsDeleted
               == |Filter((n: Notification) => n.userId == userId && n.workspaceId !in gone, t.notifications)|
            && counts.usagePingsDeleted
               == |Filter((p: UsagePing) => p.userId == userId && p.workspaceId !in gone, t.usagePings)|
            && counts.sessionsDeleted == |Filter((s: Session) => s.userId == userId, t.sessions)|
            && counts.accountsDeleted == |Filter((p: Provider) => p.userId == userId, t.providers)|
  {
    var gone := Gone(t, userId, decisions);
    DoomedIsGone(t, userId, decisions);
    OutcomeRows(t, userId, decisions, now, gone);
    RemovedRows(AssignmentWorkspace, NotAssignedTo(userId),
                (a: Assignment) => a.userId == userId && a.workspaceId !in gone, gone, t.assignments);
    RemovedRows(InvitationWorkspace, NotPendingFrom(userId),
                (i: Invitation) => i.inviterId == userId && i.pending && i.workspaceId !in gone, gone, t.invitations);
    RemovedRows(NotificationWorkspace, NotNotificationOf(userId),
                (n: Notification) => n.userId == userId && n.workspaceId !in gone, gone, t.notifications);
    RemovedRows(PingWorkspace, NotPingOf(userId),
                (p: UsagePing) => p.userId == userId && p.workspaceId !in gone, gone, t.usagePings);
    RemovedOfUser(NotSessionOf(userId), (s: Session) => s.userId == userId, t.sessions);
    RemovedOfUser(NotProviderOf(userId), (p: Provider) => p.userId == userId, t.providers);
  }

  lemma NamingIn(t: Tables, userId: string, decisions: map<int, Action>, kept: seq<Activity>)
    ensures Filter(Naming(userId), kept + Promotions(t, SoleOwned(t, userId), decisions, userId))
            == Filter(Naming(userId), kept)
  {
    PromotionWorkspaces(t, SoleOwned(t, userId), decisions, userId);
    FilterOldOnly(Naming(userId), kept, Promotions(t, SoleOwned(t, userId), decisions, userId));
  }

  lemma NamedRows(rows: seq<Activity>, userId: string, gone: set<int>)
    ensures Filter(Naming(userId), Filter(Outside(ActivityWorkspace, gone), rows))
            == Filter((a: Activity) => a.target == Some(userId) && a.targetName.Some? && a.workspaceId !in gone, rows)
  {
    FilterTwice(Outside(ActivityWorkspace, gone), Naming(userId),
                (a: Activity) => a.target == Some(userId) && a.targetName.Some? && a.workspaceId !in gone, rows);
  }

  /** The audit rows counted as redacted are the ones about the user that carried a name. */
  lemma RedactedRows(t: Tables, userId: string, decisions: map<int, Action>)
    requires Keyed(t)
    ensures var gone := Gone(t, userId, decisions);
            |Filter(Naming(userId), Settled(t, SoleOwned(t, userId), decisions, userId).activities)|
            == |Filter((a: Activity) => a.target == Some(userId) && a.targetName.Some? && a.workspaceId !in gone,
                       t.activities)|
  {
    DoomedIsGone(t, userId, decisions);
    NamingIn(t, userId, decisions, Filter(Outside(ActivityWorkspace, Gone(t, userId, decisions)), t.activities));
    NamedRows(t.activities, userId, Gone(t, userId, decisions));
  }

  lemma OwnRows(members: seq<Member>, s: seq<Member>, decisions: map<int, Action>, userId: string, gone: set<int>)
    ensures |Filter(OfUser(userId), Map(Promote(s, decisions), Filter(Outside(WorkspaceOf, gone), members)))|
            == |Filter((m: Member) => m.userId == userId && m.workspaceId !in gone, members)|
  {
    OwnKept(members, userId, gone);
    FilterMap(OfUser(userId), Promote(s, decisions), OfUser(userId), Filter(Outside(WorkspaceOf, gone), members));
  }

  lemma OwnKept(members: seq<Member>, userId: string, gone: set<int>)
    ensures Filter(OfUser(userId), Filter(Outside(WorkspaceOf, gone), members))
            == Filter((m: Member) => m.userId == userId && m.workspaceId !in gone, members)
  {
    FilterTwice(Outside(WorkspaceOf, gone), OfUser(userId),
                (m: Member) => m.userId == userId && m.workspaceId !in gone, members);
  }

  /** The memberships the last statement removes: all of the user's whose workspace is left. */
  lemma MembershipsRemoved(t: Tables, userId: string, decisions: map<int, Action>)
    requires Keyed(t)
    ensures var gone := Gone(t, userId, decisions);
            |Filter(OfUser(userId), Settled(t, SoleOwned(t, userId), decisions, userId).members)|
            == |Filter((m: Member) => m.userId == userId && m.workspaceId !in gone, t.members)|
  {
    DoomedIsGone(t, userId, decisions);
    OwnRows(t.members, SoleOwned(t, userId), decisions, userId, Gone(t, userId, decisions));
  }
}
