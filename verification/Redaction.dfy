/**
  Taking a departed user's name out of comment bodies: the rewrite of one body
  (apps/api/src/common/mentions/redact-mentions.ts) and the paged pass over the table
  (apps/api/src/account/account-deletion.service.ts:596-628).
*/
module Redaction {
  import opened Rows
  import opened Wrappers
  import opened Mentions
  import Keyset

  const ANONYMOUS_USER_NAME := "Deleted user"

  /** Case folding as the `i` flag applies it to the characters an id can hold. */
  function Fold(c: char): char {
    if 'A' <= c <= 'Z' then c + 32 as char else c
  }

  predicate SameId(x: string, userId: string) {
    |x| == |userId| && forall i | 0 <= i < |x| :: Fold(x[i]) == Fold(userId[i])
  }

  /** Any mention of one user, in either case of its id. */
  function MentionsOf(userId: string): Pattern {
    Pattern(|userId|, s => SameId(s, userId))
  }

  predicate IsMentioned(body: string, userId: string) {
    MatchAll(MentionsOf(userId), body) != []
  }

  function Markup(userId: string): string {
    FormatMentionMarkup(ANONYMOUS_USER_NAME, userId)
  }

  /** `body.replace(pattern, markup)`, for the matches of the pattern. */
  function Replace(body: string, ms: seq<Match>, from: nat, markup: string): string
    requires Laid(body, ms, from)
  {
    if ms == [] then body[from..]
    else body[from..ms[0].start] + markup + Replace(body, ms[1..], ms[0].end, markup)
  }

  function RedactMentionsOf(body: string, userId: string): string {
    MatchesLaid(MentionsOf(userId), body, 0);
    Replace(body, MatchAll(MentionsOf(userId), body), 0, Markup(userId))
  }

  predicate OccursAt(body: string, part: string, i: nat) {
    i + |part| <= |body| && body[i..i + |part|] == part
  }

  /** A case-sensitive `LIKE '%part%'`. */
  predicate Contains(body: string, part: string) {
    exists i | 0 <= i <= |body| :: OccursAt(body, part, i)
  }

  /** The first place of u from which an unclosed `@[` would swallow a name of that length. */
  function Reach(u: string, nameLength: nat, from: nat := 0): (i: nat)
    requires from <= |u|
    ensures from <= i <= |u| && (i < |u| ==> ReachesFrom(u, nameLength, i))
    ensures forall k | from <= k < i :: !ReachesFrom(u, nameLength, k)
    decreases |u| - from
  {
    if from == |u| || ReachesFrom(u, nameLength, from) then from else Reach(u, nameLength, from + 1)
  }

  /** Some mention of the user stands close behind an `@[` that nothing closes. */
  predicate Crowded(body: string, userId: string)
    decreases |body|
  {
    var ms := MatchAll(MentionsOf(userId), body);
    MatchesLaid(MentionsOf(userId), body, 0);
    ms != [] && (Reach(body[..ms[0].start], |ANONYMOUS_USER_NAME|) < ms[0].start
                 || Crowded(body[ms[0].end..], userId))
  }

  // ---- Ids up to case ----

  lemma FoldedUuid7(x: string, userId: string)
    requires IsUuid7(userId) && SameId(x, userId)
    ensures IsUuid7(x)
  {
    forall i | 0 <= i < 36 ensures if i in {8, 13, 18, 23} then x[i] == '-' else IsHex(x[i]) {
      assert Fold(x[i]) == Fold(userId[i]);
    }
    assert Fold(x[14]) == Fold(userId[14]) && Fold(x[19]) == Fold(userId[19]);
  }

  lemma MentionsOfIsPlain(userId: string)
    requires IsUuid7(userId)
    ensures Plain(MentionsOf(userId))
  {
    forall s | SameId(s, userId) ensures '@' !in s && ']' !in s {
      FoldedUuid7(s, userId);
      MentionIsPlain();
      assert MENTION.isId(s);
    }
  }

  // ---- One body ----

  lemma {:induction false} ReplaceShift(b: string, s: string, ms: seq<Match>, ns: seq<Match>, from: nat, k: nat,
                                        markup: string)
    requires from <= |b| && s == b[from..] && Laid(b, ms, from + k) && Laid(s, ns, k) && |ms| == |ns|
    requires forall i | 0 <= i < |ms| :: Some(ms[i]) == Shift(Some(ns[i]), from)
    ensures Replace(b, ms, from + k, markup) == Replace(s, ns, k, markup)
    decreases |ms|
  {
    if ms == [] {
      TailOfSuffix(b, from, k);
    } else {
      var m, n := ms[0], ns[0];
      assert Some(m) == Shift(Some(n), from);
      TailsShift(ms, ns, from);
      ReplaceShift(b, s, ms[1..], ns[1..], from, n.end, markup);
      ReplaceHead(b, from, k, m.start, n.start);
      ReplaceJoin(b, s, ms, ns, from + k, k, markup);
    }
  }

  lemma TailsShift(ms: seq<Match>, ns: seq<Match>, from: nat)
    requires ms != [] && |ms| == |ns| && forall i | 0 <= i < |ms| :: Some(ms[i]) == Shift(Some(ns[i]), from)
    ensures forall i | 0 <= i < |ms[1..]| :: Some(ms[1..][i]) == Shift(Some(ns[1..][i]), from)
  {
  }

  lemma ReplaceJoin(b: string, s: string, ms: seq<Match>, ns: seq<Match>, x: nat, k: nat, markup: string)
    requires ms != [] && ns != [] && Laid(b, ms, x) && Laid(s, ns, k)
    requires b[x..ms[0].start] == s[k..ns[0].start]
    requires Replace(b, ms[1..], ms[0].end, markup) == Replace(s, ns[1..], ns[0].end, markup)
    ensures Replace(b, ms, x, markup) == Replace(s, ns, k, markup)
  {
  }

  lemma TailOfSuffix(b: string, from: nat, k: nat)
    requires from + k <= |b|
    ensures b[from..][k..] == b[from + k..]
  {
  }

  lemma ReplaceHead(b: string, from: nat, k: nat, i: nat, j: nat)
    requires i == from + j && from + k <= i <= |b|
    ensures b[from + k..i] == b[from..][k..j]
  {
    SliceOfSuffix(b, from, k, j);
  }

  /** Replacing from a position on is redacting the rest. */
  lemma RedactRest(b: string, userId: string, from: nat)
    requires from <= |b|
    ensures var ms := Pick(Starts(MentionsOf(userId), b), from);
            Laid(b, ms, from) && Replace(b, ms, from, Markup(userId)) == RedactMentionsOf(b[from..], userId)
  {
    var p := MentionsOf(userId);
    MatchesLaid(p, b, from);
    MatchesLaid(p, b[from..], 0);
    MatchesInSuffix(p, b, from);
    ReplaceShift(b, b[from..], Pick(Starts(p, b), from), MatchAll(p, b[from..]), from, 0, Markup(userId));
  }

  /** The rewrite goes to the end of the first match, then over the rest. */
  lemma RedactHead(b: string, userId: string)
    requires IsMentioned(b, userId)
    ensures var m := MatchAll(MentionsOf(userId), b)[0];
            m.start < m.end <= |b|
            && RedactMentionsOf(b, userId) == b[..m.start] + Markup(userId) + RedactMentionsOf(b[m.end..], userId)
  {
    var p := MentionsOf(userId);
    var m := MatchAll(p, b)[0];
    MatchesLaid(p, b, 0);
    PickHead(Starts(p, b), 0);
    RedactRest(b, userId, m.end);
    assert b[0..m.start] == b[..m.start];
  }

  lemma UnmentionedBefore(b: string, userId: string, i: nat)
    requires i <= |b| && forall k | 0 <= k < i :: MatchOf(MentionsOf(userId), b, k).None?
    ensures !IsMentioned(b[..i], userId)
  {
    var p, u := MentionsOf(userId), b[..i];
    assert u + b[i..] == b;
    forall k | 0 <= k < |u| ensures Starts(p, u)[k].None? {
      MatchInPrefix(p, u, b[i..], k);
    }
    PickNothing(Starts(p, u), 0);
  }

  /** A body with a mention: what precedes it, the mention, and the rest. */
  lemma FirstMention(b: string, userId: string) returns (u: string, name: string, id: string, rest: string)
    requires IsMentioned(b, userId)
    ensures b == u + FormatMentionMarkup(name, id) + rest && |rest| < |b|
    ensures Bindable(name) && SameId(id, userId) && !IsMentioned(u, userId)
    ensures RedactMentionsOf(b, userId) == u + Markup(userId) + RedactMentionsOf(rest, userId)
    ensures Crowded(b, userId) <==> Reach(u, |ANONYMOUS_USER_NAME|) < |u| || Crowded(rest, userId)
  {
    var p := MentionsOf(userId);
    var a, m := Starts(p, b), MatchAll(p, b)[0];
    PickHead(a, 0);
    RedactHead(b, userId);
    MatchReads(p, b, m.start);
    u, name, id, rest := b[..m.start], m.name, m.userId, b[m.end..];
    Cut(b, m.start, m.end);
    forall k | 0 <= k < m.start ensures MatchOf(p, b, k).None? {
      assert a[k].None?;
    }
    UnmentionedBefore(b, userId, m.start);
  }

  lemma Cut(b: string, i: nat, j: nat)
    requires i <= j <= |b|
    ensures b == b[..i] + b[i..j] + b[j..]
  {
  }

  lemma Unmentioned(b: string, userId: string)
    requires !IsMentioned(b, userId)
    ensures RedactMentionsOf(b, userId) == b && !Crowded(b, userId)
  {
    assert b[0..] == b;
  }

  // ---- The rewrite, read from the left ----

  /** The same letter in either case, as far as ASCII goes. */
  predicate SameLetter(x: char, y: char) {
    || x == y
    || ('A' <= x <= 'Z' && x as int + 32 == y as int)
    || ('A' <= y <= 'Z' && y as int + 32 == x as int)
  }

  /** A mention of the user stands at i: any name of at most 200 characters without `]`, the id in any case. */
  ghost predicate MentionedAt(body: string, userId: string, i: nat, name: string, id: string) {
    && |name| <= 200 && ']' !in name
    && |id| == |userId| && (forall k | 0 <= k < |id| :: SameLetter(id[k], userId[k]))
    && i + |name| + |id| + 5 <= |body|
    && body[i..i + |name| + |id| + 5] == "@[" + name + "](" + id + ")"
  }

  lemma MentionedIff(body: string, userId: string, i: nat, name: string, id: string)
    ensures MentionedAt(body, userId, i, name, id) <==> MentionAt(MentionsOf(userId), body, i, name, id)
  {
    forall x: char, y: char ensures SameLetter(x, y) <==> Fold(x) == Fold(y) {
    }
    assert SameId(id, userId) <==> |id| == |userId| && forall k | 0 <= k < |id| :: SameLetter(id[k], userId[k]);
  }

  /** A body without a mention of the user is left alone. */
  lemma NothingToRewrite(body: string, userId: string)
    requires forall i: nat, name, id :: !MentionedAt(body, userId, i, name, id)
    ensures RedactMentionsOf(body, userId) == body
  {
    var ms := MatchAll(MentionsOf(userId), body);
    MatchesAreMentions(MentionsOf(userId), body);
    if ms != [] {
      assert ms[0] in ms;
      MentionedIff(body, userId, ms[0].start, ms[0].name, ms[0].userId);
    }
    Unmentioned(body, userId);
  }

  /**
    Otherwise the leftmost mention gets the anonymous name and the id as given, what stands left of it
    stays, and the rewrite goes on behind it.
  */
  lemma RewriteFromTheLeft(body: string, userId: string, at: nat, name: string, id: string)
    requires MentionedAt(body, userId, at, name, id)
    requires forall i: nat, n, d | MentionedAt(body, userId, i, n, d) :: at <= i
    ensures RedactMentionsOf(body, userId)
            == body[..at] + "@[Deleted user](" + userId + ")"
               + RedactMentionsOf(body[at + |name| + |id| + 5..], userId)
  {
    var p := MentionsOf(userId);
    MentionedIff(body, userId, at, name, id);
    var k := MentionFound(p, body, at, name, id);
    MatchesAreMentions(p, body);
    var first := MatchAll(p, body)[0];
    assert first in MatchAll(p, body) && MatchAll(p, body)[k] in MatchAll(p, body);
    MentionedIff(body, userId, first.start, first.name, first.userId);
    RedactHead(body, userId);
    assert k == 0 && first.start == at && first.name == name && first.userId == id;
    assert Markup(userId) == "@[Deleted user](" + userId + ")";
    Regroup(body[..at], userId, RedactMentionsOf(body[first.end..], userId));
  }

  lemma Regroup(u: string, userId: string, w: string)
    ensures u + ("@[Deleted user](" + userId + ")") + w == u + "@[Deleted user](" + userId + ")" + w
  {
    assert u + ("@[Deleted user](" + userId + ")") == u + "@[Deleted user](" + userId + ")";
  }

  /** The filter and the rewrite of a row: the id must occur verbatim somewhere in the body. */
  lemma RowRewritten(c: Comment, userId: string)
    ensures RedactRow(c, userId).id == c.id && RedactRow(c, userId).workspaceId == c.workspaceId
    ensures (exists u: string, w: string :: c.body == u + userId + w) ==>
              RedactRow(c, userId).body == RedactMentionsOf(c.body, userId)
    ensures (forall u: string, w: string :: c.body != u + userId + w) ==> RedactRow(c, userId) == c
  {
    if u: string, w: string :| c.body == u + userId + w {
      assert OccursAt(c.body, userId, |u|);
    }
    if Contains(c.body, userId) {
      var i :| 0 <= i <= |c.body| && OccursAt(c.body, userId, i);
      assert c.body == c.body[..i] + userId + c.body[i + |userId|..];
    }
  }

  /** Redacting a mention whose prefix has none: from the first `@[` in reach to its end. */
  lemma RedactAround(u: string, name: string, id: string, w: string, userId: string)
    requires IsUuid7(userId) && Bindable(name) && SameId(id, userId) && !IsMentioned(u, userId)
    ensures RedactMentionsOf(u + FormatMentionMarkup(name, id) + w, userId)
            == u[..Reach(u, |name|)] + Markup(userId) + RedactMentionsOf(w, userId)
  {
    var b := u + FormatMentionMarkup(name, id) + w;
    var i, end := Reach(u, |name|), |b| - |w|;
    FirstAround(u, name, id, w, userId);
    RedactHead(b, userId);
    assert RedactMentionsOf(b, userId) == b[..i] + Markup(userId) + RedactMentionsOf(b[end..], userId);
    CutAround(u, FormatMentionMarkup(name, id), w, i);
  }

  lemma CutAround(u: string, m: string, w: string, i: nat)
    requires i <= |u|
    ensures (u + m + w)[|u + m + w| - |w|..] == w && (u + m + w)[..i] == u[..i]
  {
  }

  lemma FirstAround(u: string, name: string, id: string, w: string, userId: string)
    requires IsUuid7(userId) && Bindable(name) && SameId(id, userId) && !IsMentioned(u, userId)
    ensures var b := u + FormatMentionMarkup(name, id) + w;
            var ms := MatchAll(MentionsOf(userId), b);
            ms != [] && ms[0].start == Reach(u, |name|) && ms[0].end == |b| - |w|
  {
    var p := MentionsOf(userId);
    var b := u + FormatMentionMarkup(name, id) + w;
    var a, i := Starts(p, b), Reach(u, |name|);
    MentionsOfIsPlain(userId);
    StartsAround(p, u, name, id, w);
    PickNothing(Starts(p, u), 0);
    forall k | 0 <= k < i ensures a[k].None? {
      assert a[k] == Starts(p, u)[k];
    }
    PickFirst(a, i);
  }

  /** The ids a body mentions survive the rewrite, the departed user's in its own spelling. */
  lemma {:induction false} RedactionKeepsIds(b: string, userId: string)
    requires IsUuid7(userId)
    ensures Ids(MENTION, RedactMentionsOf(b, userId))
            == Map((x: string) => if SameId(x, userId) then userId else x, Ids(MENTION, b))
    decreases |b|
  {
    var f := (x: string) => if SameId(x, userId) then userId else x;
    if !IsMentioned(b, userId) {
      Unmentioned(b, userId);
      OthersOnly(b, userId);
    } else {
      var u, name, id, rest := FirstMention(b, userId);
      RedactionKeepsIds(rest, userId);
      RenameKeepsIds(u, name, id, rest, RedactMentionsOf(rest, userId), userId);
    }
  }

  lemma RenameKeepsIds(u: string, name: string, id: string, rest: string, w: string, userId: string)
    requires IsUuid7(userId) && Bindable(name) && SameId(id, userId) && !IsMentioned(u, userId)
    requires Ids(MENTION, w) == Map((x: string) => if SameId(x, userId) then userId else x, Ids(MENTION, rest))
    ensures Ids(MENTION, u + Markup(userId) + w)
            == Map((x: string) => if SameId(x, userId) then userId else x,
                   Ids(MENTION, u + FormatMentionMarkup(name, id) + rest))
  {
    var f := (x: string) => if SameId(x, userId) then userId else x;
    OthersOnly(u, userId);
    FoldedUuid7(id, userId);
    MentionIsPlain();
    IdsAround(MENTION, u, name, id, rest);
    IdsAround(MENTION, u, ANONYMOUS_USER_NAME, userId, w);
    MapAround(f, Ids(MENTION, u), id, Ids(MENTION, rest));
  }

  lemma MapAround<T, U>(f: T -> U, a: seq<T>, x: T, b: seq<T>)
    ensures Map(f, a + [x] + b) == Map(f, a) + [f(x)] + Map(f, b)
  {
  }

  lemma OthersOnly(u: string, userId: string)
    requires IsUuid7(userId) && !IsMentioned(u, userId)
    ensures Map((x: string) => if SameId(x, userId) then userId else x, Ids(MENTION, u)) == Ids(MENTION, u)
  {
    var ms := MatchAll(MENTION, u);
    PickedIsEntry(Starts(MENTION, u), 0);
    PickNothing(Starts(MentionsOf(userId), u), 0);
    forall i | 0 <= i < |ms| ensures !SameId(ms[i].userId, userId) {
      assert ms[i] in ms;
      assert MatchOf(MENTION, u, ms[i].start) == Some(ms[i]);
      assert Starts(MentionsOf(userId), u)[ms[i].start].None?;
    }
  }

  /**
    A second pass changes a redacted body exactly when some mention was crowded; it then only
    ever shortens it.
  */
  lemma {:induction false} SecondPass(b: string, userId: string)
    requires IsUuid7(userId)
    ensures var r := RedactMentionsOf(b, userId);
            && |RedactMentionsOf(r, userId)| <= |r|
            && (RedactMentionsOf(r, userId) == r <==> !Crowded(b, userId))
            && (Crowded(b, userId) ==> |RedactMentionsOf(r, userId)| < |r|)
    decreases |b|
  {
    if !IsMentioned(b, userId) {
      Unmentioned(b, userId);
    } else {
      var u, name, id, rest := FirstMention(b, userId);
      SecondPass(rest, userId);
      var w := RedactMentionsOf(rest, userId);
      RedactAround(u, ANONYMOUS_USER_NAME, userId, w, userId);
      var i := Reach(u, |ANONYMOUS_USER_NAME|);
      assert u[..|u|] == u;
      var r, r2 := RedactMentionsOf(b, userId), RedactMentionsOf(RedactMentionsOf(b, userId), userId);
      assert r2 == u[..i] + Markup(userId) + RedactMentionsOf(w, userId);
      if i == |u| && r2 == r {
        assert r2[|u| + |Markup(userId)|..] == RedactMentionsOf(w, userId);
        assert r[|u| + |Markup(userId)|..] == w;
      }
    }
  }

  /** So the rewrite is not idempotent: an opener 150 characters back takes the shorter name. */
  lemma SecondPassCanChange(userId: string)
    requires IsUuid7(userId)
    ensures exists b :: RedactMentionsOf(RedactMentionsOf(b, userId), userId) != RedactMentionsOf(b, userId)
  {
    var u, name := Opener(), seq(100, _ => 'b');
    var b := u + FormatMentionMarkup(name, userId) + "";
    OpenerAlone(userId);
    RedactAround(u, name, userId, "", userId);
    assert RedactMentionsOf("", userId) == "" by { Unmentioned("", userId); }
    assert u[..|u|] == u;
    var r := RedactMentionsOf(b, userId);
    assert r == u + Markup(userId) + "";
    RedactAround(u, ANONYMOUS_USER_NAME, userId, "", userId);
    assert |RedactMentionsOf(r, userId)| < |r|;
  }

  ghost function Opener(): string { "@[" + seq(150, _ => 'a') }

  lemma OpenerAlone(userId: string)
    ensures !IsMentioned(Opener(), userId)
    ensures Reach(Opener(), 100) == |Opener()| && Reach(Opener(), |ANONYMOUS_USER_NAME|) < |Opener()|
  {
    var u := Opener();
    forall i | 0 <= i < |u| ensures MatchOf(MentionsOf(userId), u, i).None? && !ReachesFrom(u, 100, i) {
      if OpensAt(u, i) {
        CloseIs(u, i + 2, |u|);
        assert i == 0;
      }
    }
    assert u[..|u|] == u;
    UnmentionedBefore(u, userId, |u|);
    assert ReachesFrom(u, |ANONYMOUS_USER_NAME|, 0);
  }

  lemma RedactedContains(b: string, userId: string)
    requires IsMentioned(b, userId)
    ensures Contains(RedactMentionsOf(b, userId), userId)
  {
    var u, name, id, rest := FirstMention(b, userId);
    var r, i := RedactMentionsOf(b, userId), |u| + |ANONYMOUS_USER_NAME| + 4;
    assert OccursAt(r, userId, i);
  }

  // ---- The table ----

  datatype Comment = Comment(id: int, workspaceId: int, body: string)

  /** What one redaction run makes of a row: only rows the filter finds are looked at. */
  function RedactRow(c: Comment, userId: string): Comment {
    if Contains(c.body, userId) then c.(body := RedactMentionsOf(c.body, userId)) else c
  }

  function IdOf(): Comment -> int { (c: Comment) => c.id }

  predicate Past(cursor: Option<int>, c: Comment) {
    cursor.Some? && c.id <= cursor.value
  }

  /** The table once every row up to the cursor is dealt with. */
  ghost function Dealt(rows: seq<Comment>, cursor: Option<int>, userId: string): seq<Comment> {
    Map((c: Comment) => if Past(cursor, c) then RedactRow(c, userId) else c, rows)
  }

  ghost function Changed(rows: seq<Comment>, cursor: Option<int>, userId: string): nat {
    |Filter((c: Comment) => Past(cursor, c) && RedactRow(c, userId) != c, rows)|
  }

  ghost function Ahead(rows: seq<Comment>, cursor: Option<int>): nat {
    |Filter((c: Comment) => !Past(cursor, c), rows)|
  }

  ghost predicate Settled(rows: seq<Comment>, cursor: Option<int>, userId: string) {
    forall r | r in rows && !Past(cursor, r) :: RedactRow(r, userId) == r
  }

  /** What the next page is, in terms of the rows the run started from. */
  ghost predicate NextRows(rows: seq<Comment>, cursor: Option<int>, userId: string, take: nat, page: seq<Comment>) {
    && |page| <= take
    && (forall c | c in page :: c in rows && !Past(cursor, c) && Contains(c.body, userId))
    && (forall i, j | 0 <= i < j < |page| :: page[i].id < page[j].id)
    && (forall r | r in rows && !Past(cursor, r) && Contains(r.body, userId) ::
          r in page || (|page| == take && forall i | 0 <= i < |page| :: page[i].id < r.id))
  }

  ghost predicate IsFilteredPage(rows: seq<Comment>, userId: string, cursor: Option<int>, take: nat,
                                 page: seq<Comment>) {
    Keyset.IsPage(rows, (c: Comment) => Contains(c.body, userId), IdOf(), (a: int, b: int) => a < b, cursor, take, page)
  }

  class CommentTable {
    var comments: seq<Comment>

    constructor (rows: seq<Comment>)
      ensures comments == rows
    {
      comments := rows;
    }

    /** `findMany`: the next page of comments whose body contains the id. */
    method FindPage(userId: string, cursor: Option<int>, take: nat) returns (page: seq<Comment>)
      requires Distinct(Map(IdOf(), comments))
      ensures IsFilteredPage(comments, userId, cursor, take, page)
    {
      var selects, lt := (c: Comment) => Contains(c.body, userId), (a: int, b: int) => a < b;
      page := Keyset.Page(comments, selects, IdOf(), lt, cursor, take);
      Keyset.PageIsPage(comments, selects, IdOf(), lt, cursor, take);
    }

    method UpdateBody(id: int, body: string)
      modifies this
      ensures comments == Map((c: Comment) => if c.id == id then c.(body := body) else c, old(comments))
    {
      comments := Map((c: Comment) => if c.id == id then c.(body := body) else c, comments);
    }

    /**
      Every row the filter finds is rewritten once, page by page, and the rows that changed are
      counted; no row is skipped although a rewritten body still matches the filter.
    */
    method RedactCommentMentions(userId: string, pageSize: nat) returns (rewritten: nat)
      requires Distinct(Map(IdOf(), comments)) && pageSize > 0
      modifies this
      ensures comments == Map((c: Comment) => RedactRow(c, userId), old(comments))
      ensures rewritten == |Filter((c: Comment) => RedactRow(c, userId) != c, old(comments))|
    {
      ghost var rows := comments;
      var cursor: Option<int> := None;
      rewritten := 0;
      NothingDealt(rows, userId);
      while true
        invariant comments == Dealt(rows, cursor, userId) && rewritten == Changed(rows, cursor, userId)
        decreases Ahead(rows, cursor)
      {
        DealtIds(rows, cursor, userId);
        var page := FindPage(userId, cursor, pageSize);
        PageOfRows(rows, cursor, userId, pageSize, page);
        if |page| == 0 {
          AllDealt(rows, cursor, userId);
          return;
        }
        rewritten := RewritePage(userId, page, rewritten, rows, cursor, pageSize);
        AheadShrinks(rows, cursor, page[|page| - 1]);
        ghost var last := cursor;
        cursor := Some(page[|page| - 1].id);
        if |page| < pageSize {
          AllDealt(rows, cursor, userId);
          return;
        }
      }
    }

    /** The inner loop: one page of rows, each written back only when its body changed. */
    method RewritePage(userId: string, page: seq<Comment>, count: nat,
                       ghost rows: seq<Comment>, ghost cursor: Option<int>, ghost take: nat)
      returns (rewritten: nat)
      requires Distinct(Map(IdOf(), rows)) && page != [] && NextRows(rows, cursor, userId, take, page)
      requires comments == Dealt(rows, cursor, userId) && count == Changed(rows, cursor, userId)
      modifies this
      ensures page[|page| - 1] in rows && !Past(cursor, page[|page| - 1])
      ensures comments == Dealt(rows, Some(page[|page| - 1].id), userId)
      ensures rewritten == Changed(rows, Some(page[|page| - 1].id), userId)
      ensures |page| < take ==> Settled(rows, Some(page[|page| - 1].id), userId)
    {
      rewritten := count;
      ghost var at := cursor;
      for k := 0 to |page|
        invariant at == if k == 0 then cursor else Some(page[k - 1].id)
        invariant comments == Dealt(rows, at, userId) && rewritten == Changed(rows, at, userId)
      {
        SettledUpTo(rows, cursor, userId, take, page, k);
        Advance(rows, at, page[k], userId);
        assert page[k] in page;
        var body := RedactMentionsOf(page[k].body, userId);
        if body != page[k].body {
          UpdateBody(page[k].id, body);
          rewritten := rewritten + 1;
        }
        at := Some(page[k].id);
      }
      PageSettles(rows, cursor, userId, take, page);
    }
  }

  lemma PageSettles(rows: seq<Comment>, cursor: Option<int>, userId: string, take: nat, page: seq<Comment>)
    requires page != [] && NextRows(rows, cursor, userId, take, page)
    ensures var last := page[|page| - 1];
            last in rows && !Past(cursor, last) && (|page| < take ==> Settled(rows, Some(last.id), userId))
  {
    var last := page[|page| - 1];
    assert last in page;
    forall r | r in rows && !Past(Some(last.id), r) ensures |page| < take ==> RedactRow(r, userId) == r {
      assert !Past(cursor, r);
      assert r !in page by {
        assert forall j | 0 <= j < |page| :: page[j].id <= last.id;
      }
    }
  }

  lemma NothingDealt(rows: seq<Comment>, userId: string)
    ensures Dealt(rows, None, userId) == rows && Changed(rows, None, userId) == 0
  {
    FilterNone((c: Comment) => Past(None, c) && RedactRow(c, userId) != c, rows);
  }

  lemma AheadShrinks(rows: seq<Comment>, cursor: Option<int>, c: Comment)
    requires c in rows && !Past(cursor, c)
    ensures Ahead(rows, Some(c.id)) < Ahead(rows, cursor)
  {
    var p, q := (x: Comment) => !Past(cursor, x), (x: Comment) => !Past(Some(c.id), x);
    assert p(c) && !q(c);
    FilterFewer(p, q, rows);
  }

  lemma DealtIds(rows: seq<Comment>, cursor: Option<int>, userId: string)
    ensures Map(IdOf(), Dealt(rows, cursor, userId)) == Map(IdOf(), rows)
  {
  }

  lemma PageOfRows(rows: seq<Comment>, cursor: Option<int>, userId: string, take: nat, page: seq<Comment>)
    requires IsFilteredPage(Dealt(rows, cursor, userId), userId, cursor, take, page)
    ensures NextRows(rows, cursor, userId, take, page)
  {
    var now := Dealt(rows, cursor, userId);
    forall c | c in page ensures c in rows && !Past(cursor, c) && Contains(c.body, userId) {
      var i :| 0 <= i < |now| && now[i] == c;
      assert now[i].id == rows[i].id;
    }
    forall r | r in rows && !Past(cursor, r) ensures r in now {
      var i :| 0 <= i < |rows| && rows[i] == r;
      assert now[i] == r;
    }
  }

  lemma SettledUpTo(rows: seq<Comment>, cursor: Option<int>, userId: string, take: nat, page: seq<Comment>, k: nat)
    requires NextRows(rows, cursor, userId, take, page) && k < |page|
    ensures var at := if k == 0 then cursor else Some(page[k - 1].id);
            page[k] in rows && !Past(at, page[k])
            && forall r | r in rows && !Past(at, r) && r.id < page[k].id :: RedactRow(r, userId) == r
  {
    var at := if k == 0 then cursor else Some(page[k - 1].id);
    assert page[k] in page;
    assert k > 0 ==> page[k - 1] in page;
    forall r | r in page && r.id < page[k].id ensures Past(at, r) {
      var j :| 0 <= j < |page| && page[j] == r;
      assert j < k ==> j == k - 1 || page[j].id < page[k - 1].id;
      assert !(k < j);
    }
    assert forall r | r in rows && !Past(at, r) :: !Past(cursor, r);
  }

  /** One row further. */
  lemma Advance(rows: seq<Comment>, at: Option<int>, c: Comment, userId: string)
    requires Distinct(Map(IdOf(), rows)) && c in rows && !Past(at, c)
    requires forall r | r in rows && !Past(at, r) && r.id < c.id :: RedactRow(r, userId) == r
    ensures var next := Some(c.id);
            && Dealt(rows, next, userId)
               == Map((x: Comment) => if x.id == c.id then x.(body := RedactRow(c, userId).body)
                      else x, Dealt(rows, at, userId))
            && (RedactRow(c, userId) == c ==> Dealt(rows, next, userId) == Dealt(rows, at, userId))
            && Changed(rows, next, userId) == Changed(rows, at, userId) + if RedactRow(c, userId) != c then 1 else 0
  {
    var next := Some(c.id);
    forall i | 0 <= i < |rows|
      ensures Dealt(rows, next, userId)[i] == if rows[i].id == c.id then RedactRow(c, userId)
              else Dealt(rows, at, userId)[i]
    {
      assert rows[i] in rows;
      if rows[i].id == c.id {
        KeyDetermines(IdOf(), rows, rows[i], c);
      }
    }
    var p := (x: Comment) => Past(at, x) && RedactRow(x, userId) != x;
    var q := (x: Comment) => Past(next, x) && RedactRow(x, userId) != x;
    forall r | r in rows ensures q(r) <==> p(r) || (r.id == c.id && RedactRow(c, userId) != c) {
      if r.id == c.id {
        KeyDetermines(IdOf(), rows, r, c);
      }
    }
    if RedactRow(c, userId) != c {
      FilterOneMore(p, q, IdOf(), rows, c);
    } else {
      FilterAgree(p, q, rows);
    }
  }

  lemma AllDealt(rows: seq<Comment>, cursor: Option<int>, userId: string)
    requires Settled(rows, cursor, userId)
    ensures Dealt(rows, cursor, userId) == Map((c: Comment) => RedactRow(c, userId), rows)
    ensures Changed(rows, cursor, userId) == |Filter((c: Comment) => RedactRow(c, userId) != c, rows)|
  {
    forall i | 0 <= i < |rows| ensures Dealt(rows, cursor, userId)[i] == RedactRow(rows[i], userId) {
      assert rows[i] in rows;
    }
    FilterAgree((c: Comment) => Past(cursor, c)
                && RedactRow(c, userId) != c, (c: Comment) => RedactRow(c, userId) != c, rows);
  }

  // ---- What a run achieves ----

  /**
    The filter is case-sensitive and the rewrite is not: a body is left as it was although the
    rewrite would change it exactly when it mentions the user and never spells the id verbatim.
  */
  lemma RunIsCompleteIff(c: Comment, userId: string)
    ensures RedactRow(c, userId).body == RedactMentionsOf(c.body, userId)
            <==> Contains(c.body, userId) || !IsMentioned(c.body, userId)
  {
    if IsMentioned(c.body, userId) {
      RedactedContains(c.body, userId);
    } else {
      Unmentioned(c.body, userId);
    }
  }

  function Upper(s: string): string {
    Map((c: char) => if 'a' <= c <= 'z' then c - 32 as char else c, s)
  }

  lemma ContainsCharacter(b: string, part: string, k: nat)
    requires k < |part| && Contains(b, part)
    ensures part[k] in b
  {
    var i :| 0 <= i <= |b| && OccursAt(b, part, i);
    assert b[i..i + |part|][k] == b[i + k];
  }

  /** The family that is missed: any id with a letter in it, written in upper case. */
  lemma UpperCaseIdIsMissed(userId: string, k: nat)
    requires IsUuid7(userId) && k < |userId| && 'a' <= userId[k] <= 'f'
    ensures var c := Comment(0, 0, FormatMentionMarkup("X", Upper(userId)));
            RedactRow(c, userId) == c && RedactMentionsOf(c.body, userId) != c.body
  {
    var b := FormatMentionMarkup("X", Upper(userId));
    MarkupMatches(MentionsOf(userId), "X", Upper(userId), "");
    assert b + "" == b;
    assert forall j | 0 <= j < |userId| :: Upper(userId)[j] != userId[k];
    assert userId[k] !in b;
    if Contains(b, userId) {
      ContainsCharacter(b, userId, k);
    }
    RunIsCompleteIff(Comment(0, 0, b), userId);
  }

  /** A second run has nothing left to do exactly when no body it looks at was crowded. */
  lemma SecondRunIsQuietIff(rows: seq<Comment>, userId: string)
    requires IsUuid7(userId)
    ensures var once := Map((c: Comment) => RedactRow(c, userId), rows);
            Filter((c: Comment) => RedactRow(c, userId) != c, once) == []
            <==> forall c | c in rows && Contains(c.body, userId) :: !Crowded(c.body, userId)
  {
    var once := Map((c: Comment) => RedactRow(c, userId), rows);
    var p := (c: Comment) => RedactRow(c, userId) != c;
    FilterNone(p, once);
    forall c ensures p(RedactRow(c, userId)) <==> Contains(c.body, userId) && Crowded(c.body, userId) {
      RowTwice(c, userId);
    }
    forall i | 0 <= i < |rows| ensures rows[i] in rows && once[i] in once && once[i] == RedactRow(rows[i], userId) {
    }
  }

  lemma RowTwice(c: Comment, userId: string)
    requires IsUuid7(userId)
    ensures RedactRow(RedactRow(c, userId), userId) == RedactRow(c, userId)
            <==> !(Contains(c.body, userId) && Crowded(c.body, userId))
  {
    SecondPass(c.body, userId);
    if IsMentioned(c.body, userId) {
      RedactedContains(c.body, userId);
    } else {
      Unmentioned(c.body, userId);
    }
  }
}
