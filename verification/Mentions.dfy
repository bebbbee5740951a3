/**
  Mention markup in comment bodies (apps/web/lib/mentions.ts): the scanner behind the regular
  expression, the tokenizer, the id list, and insertion at the caret.

  `@[` name `](` id `)` matches with a name of at most 200 characters and no `]`, so a match is
  settled by where the next `]` stands. A pattern says which ids it takes.
*/
module Mentions {
  import opened Rows
  import opened Wrappers
  import Text

  const MAX_MENTION_NAME := 200

  datatype Pattern = Pattern(idLength: nat, isId: string -> bool)

  /** What `matchAll` yields for one match. */
  datatype Match = Match(start: nat, end: nat, name: string, userId: string)

  datatype Token = PlainText(text: string) | Mention(name: string, userId: string)

  predicate IsHex(c: char) {
    '0' <= c <= '9' || 'a' <= c <= 'f' || 'A' <= c <= 'F'
  }

  /** The UUIDv7 shape, in either case. */
  predicate IsUuid7(s: string) {
    && |s| == 36
    && (forall i | 0 <= i < 36 :: if i in {8, 13, 18, 23} then s[i] == '-' else IsHex(s[i]))
    && s[14] == '7'
    && s[19] in {'8', '9', 'a', 'b', 'A', 'B'}
  }

  const MENTION := Pattern(36, s => IsUuid7(s))

  /** Ids of such a pattern hold none of the characters that delimit a mention. */
  ghost predicate Plain(p: Pattern) {
    forall s | p.isId(s) :: |s| == p.idLength && '@' !in s && ']' !in s
  }

  /** The first `]` from i on, or the end. */
  function Close(b: string, i: nat): (c: nat)
    requires i <= |b|
    ensures i <= c <= |b| && (forall k | i <= k < c :: b[k] != ']') && (c < |b| ==> b[c] == ']')
    decreases |b| - i
  {
    if i == |b| || b[i] == ']' then i else Close(b, i + 1)
  }

  predicate OpensAt(b: string, i: nat) {
    i + 2 <= |b| && b[i] == '@' && b[i + 1] == '['
  }

  /** `](` id `)` at c. */
  predicate ClosesAt(p: Pattern, b: string, c: nat) {
    c + p.idLength + 3 <= |b| && b[c] == ']' && b[c + 1] == '('
    && p.isId(b[c + 2..c + 2 + p.idLength]) && b[c + 2 + p.idLength] == ')'
  }

  /** The match that starts at i, if one does. */
  function MatchOf(p: Pattern, b: string, i: nat): Option<Match> {
    if !OpensAt(b, i) then None
    else
      var c := Close(b, i + 2);
      if c - (i + 2) <= MAX_MENTION_NAME && ClosesAt(p, b, c)
      then Some(Match(i, c + p.idLength + 3, b[i + 2..c], b[c + 2..c + 2 + p.idLength]))
      else None
  }

  /** Where a match can start: one entry for each position. */
  function Starts(p: Pattern, b: string): (a: seq<Option<Match>>)
    ensures |a| == |b| && Forward(a)
  {
    seq(|b|, i requires 0 <= i < |b| => MatchOf(p, b, i))
  }

  predicate Forward(a: seq<Option<Match>>) {
    forall i | 0 <= i < |a| :: a[i].Some? ==> a[i].value.start == i && i < a[i].value.end <= |a|
  }

  /** The leftmost matches from a position on, each search starting where the last match ended. */
  function Pick(a: seq<Option<Match>>, from: nat): (ms: seq<Match>)
    requires Forward(a) && from <= |a|
    decreases |a| - from
  {
    if from == |a| then []
    else if a[from].None? then Pick(a, from + 1)
    else [a[from].value] + Pick(a, a[from].value.end)
  }

  function MatchAll(p: Pattern, b: string): seq<Match> {
    Pick(Starts(p, b), 0)
  }

  function IdsOf(ms: seq<Match>): seq<string> {
    Map((m: Match) => m.userId, ms)
  }

  /** The ids of all matches, in order and with repetitions. */
  function Ids(p: Pattern, b: string): seq<string> {
    IdsOf(MatchAll(p, b))
  }

  function FormatMentionMarkup(name: string, userId: string): string {
    "@[" + name + "](" + userId + ")"
  }

  /** Matches that lie apart, in order, and read as their own markup. */
  ghost predicate Laid(b: string, ms: seq<Match>, from: nat) {
    if ms == [] then from <= |b|
    else
      && from <= ms[0].start < ms[0].end <= |b|
      && FormatMentionMarkup(ms[0].name, ms[0].userId) == b[ms[0].start..ms[0].end]
      && Laid(b, ms[1..], ms[0].end)
  }

  lemma FiveParts(b: string, i: nat, c: nat, n: nat)
    requires i + 2 <= c && c + n + 3 <= |b|
    ensures b[i..c + n + 3] == b[i..i + 2] + b[i + 2..c] + b[c..c + 2] + b[c + 2..c + 2 + n] + b[c + 2 + n..c + n + 3]
  {
  }

  lemma Delimiters(b: string, i: nat, c: nat, n: nat)
    requires i + 2 <= c && c + n + 3 <= |b| && b[i] == '@' && b[i + 1] == '['
    requires b[c] == ']' && b[c + 1] == '(' && b[c + 2 + n] == ')'
    ensures b[i..i + 2] == "@[" && b[c..c + 2] == "](" && b[c + 2 + n..c + n + 3] == ")"
  {
  }

  lemma MatchReads(p: Pattern, b: string, i: nat)
    requires i < |b| && MatchOf(p, b, i).Some?
    ensures var m := MatchOf(p, b, i).value;
            m.start == i < m.end <= |b| && b[i..m.end] == FormatMentionMarkup(m.name, m.userId)
            && Bindable(m.name) && p.isId(m.userId) && |m.userId| == p.idLength
  {
    var c := Close(b, i + 2);
    Delimiters(b, i, c, p.idLength);
    FiveParts(b, i, c, p.idLength);
  }

  lemma {:induction false} MatchesLaid(p: Pattern, b: string, from: nat)
    requires from <= |b|
    ensures Laid(b, Pick(Starts(p, b), from), from)
    ensures forall m | m in Pick(Starts(p, b), from) :: Bindable(m.name) && p.isId(m.userId) && |m.userId| == p.idLength
    decreases |b| - from
  {
    var a := Starts(p, b);
    if from < |b| {
      if a[from].None? {
        MatchesLaid(p, b, from + 1);
        LaidEarlier(b, Pick(a, from + 1), from, from + 1);
      } else {
        MatchReads(p, b, from);
        MatchesLaid(p, b, a[from].value.end);
      }
    }
  }

  lemma LaidEarlier(b: string, ms: seq<Match>, from: nat, later: nat)
    requires Laid(b, ms, later) && from <= later
    ensures Laid(b, ms, from)
  {
  }

  // ---- Tokens ----

  /** The text between two matches, when there is any. */
  function Gap(b: string, from: nat, to: nat): seq<Token>
    requires from <= to <= |b|
  {
    if from < to then [PlainText(b[from..to])] else []
  }

  function Tokens(b: string, ms: seq<Match>, from: nat): seq<Token>
    requires Laid(b, ms, from)
  {
    if ms == [] then Gap(b, from, |b|)
    else Gap(b, from, ms[0].start) + ([Mention(ms[0].name, ms[0].userId)] + Tokens(b, ms[1..], ms[0].end))
  }

  function RenderToken(t: Token): string {
    match t
    case PlainText(text) => text
    case Mention(name, userId) => FormatMentionMarkup(name, userId)
  }

  function Render(ts: seq<Token>): string {
    if ts == [] then "" else RenderToken(ts[0]) + Render(ts[1..])
  }

  /** No empty text token and no two in a row. */
  ghost predicate Tidy(ts: seq<Token>) {
    && (forall t | t in ts :: t.PlainText? ==> t.text != "")
    && (forall i | 0 <= i < |ts| - 1 :: ts[i].Mention? || ts[i + 1].Mention?)
  }

  function MentionedIds(ts: seq<Token>): seq<string> {
    if ts == [] then []
    else (if ts[0].Mention? then [ts[0].userId] else []) + MentionedIds(ts[1..])
  }

  lemma RenderMention(name: string, id: string, ts: seq<Token>)
    ensures Render([Mention(name, id)] + ts) == FormatMentionMarkup(name, id) + Render(ts)
    ensures MentionedIds([Mention(name, id)] + ts) == [id] + MentionedIds(ts)
    ensures Tidy(ts) ==> Tidy([Mention(name, id)] + ts)
  {
    assert ([Mention(name, id)] + ts)[1..] == ts;
  }

  lemma RenderGap(b: string, from: nat, to: nat, ts: seq<Token>)
    requires from <= to <= |b| && (ts == [] || ts[0].Mention?)
    ensures Render(Gap(b, from, to) + ts) == b[from..to] + Render(ts)
    ensures MentionedIds(Gap(b, from, to) + ts) == MentionedIds(ts)
    ensures Tidy(ts) ==> Tidy(Gap(b, from, to) + ts)
  {
    if from < to {
      assert (Gap(b, from, to) + ts)[1..] == ts;
    } else {
      assert Gap(b, from, to) + ts == ts && b[from..to] == "";
    }
  }

  /** Tokens print back to the text, are tidy, and mention what was matched. */
  lemma {:induction false} TokensRender(b: string, ms: seq<Match>, from: nat)
    requires Laid(b, ms, from)
    ensures Render(Tokens(b, ms, from)) == b[from..]
    ensures Tidy(Tokens(b, ms, from))
    ensures MentionedIds(Tokens(b, ms, from)) == IdsOf(ms)
    decreases |ms|
  {
    if ms == [] {
      TokensEnd(b, from);
    } else {
      TokensRender(b, ms[1..], ms[0].end);
      TokensStep(b, from, ms[0], Tokens(b, ms[1..], ms[0].end));
      IdsOfStep(ms);
    }
  }

  lemma IdsOfStep(ms: seq<Match>)
    requires ms != []
    ensures IdsOf(ms) == [ms[0].userId] + IdsOf(ms[1..])
  {
  }

  lemma TokensEnd(b: string, from: nat)
    requires from <= |b|
    ensures Render(Gap(b, from, |b|)) == b[from..] && Tidy(Gap(b, from, |b|)) && MentionedIds(Gap(b, from, |b|)) == []
  {
    RenderGap(b, from, |b|, []);
    assert Gap(b, from, |b|) + [] == Gap(b, from, |b|);
  }

  lemma TokensStep(b: string, from: nat, m: Match, ts: seq<Token>)
    requires from <= m.start < m.end <= |b| && FormatMentionMarkup(m.name, m.userId) == b[m.start..m.end]
    requires Render(ts) == b[m.end..] && Tidy(ts)
    ensures var next := Gap(b, from, m.start) + ([Mention(m.name, m.userId)] + ts);
            Render(next) == b[from..] && Tidy(next) && MentionedIds(next) == [m.userId] + MentionedIds(ts)
  {
    RenderMention(m.name, m.userId, ts);
    RenderGap(b, from, m.start, [Mention(m.name, m.userId)] + ts);
    Rejoin(b, from, m.start, m.end);
  }

  lemma Rejoin(b: string, i: nat, j: nat, k: nat)
    requires i <= j <= k <= |b|
    ensures b[i..] == b[i..j] + (b[j..k] + b[k..])
  {
    assert b[j..] == b[j..k] + b[k..];
    assert b[i..] == b[i..j] + b[j..];
  }

  // ---- The loops of the source ----

  /** The token list of the pattern's matches; it loses nothing and is tidy. */
  method TokenizeMentions(body: string) returns (tokens: seq<Token>)
    ensures Laid(body, MatchAll(MENTION, body), 0)
    ensures tokens == Tokens(body, MatchAll(MENTION, body), 0)
    ensures Render(tokens) == body && Tidy(tokens) && MentionedIds(tokens) == Ids(MENTION, body)
  {
    var matches := MatchAll(MENTION, body);
    MatchesLaid(MENTION, body, 0);
    tokens := TokenizeMatches(body, matches);
    TokensRender(body, matches, 0);
    assert body[0..] == body;
  }

  method TokenizeMatches(body: string, matches: seq<Match>) returns (tokens: seq<Token>)
    requires Laid(body, matches, 0)
    ensures tokens == Tokens(body, matches, 0)
  {
    tokens := [];
    var lastIndex: nat := 0;
    ghost var left := matches;
    for k := 0 to |matches|
      invariant left == matches[k..] && Laid(body, left, lastIndex)
      invariant Tokens(body, matches, 0) == tokens + Tokens(body, left, lastIndex)
    {
      var m := matches[k];
      FirstOfRest(matches, k);
      Append4(tokens, Gap(body, lastIndex, m.start), [Mention(m.name, m.userId)], Tokens(body, left[1..], m.end));
      tokens := PushText(tokens, body, lastIndex, m.start);
      tokens := tokens + [Mention(m.name, m.userId)];
      lastIndex := m.end;
      left := left[1..];
    }
    tokens := PushText(tokens, body, lastIndex, |body|);
  }

  /** The text between two positions, unless there is none. */
  method PushText(before: seq<Token>, body: string, from: nat, to: nat) returns (tokens: seq<Token>)
    requires from <= to <= |body|
    ensures tokens == before + Gap(body, from, to)
  {
    tokens := before;
    if from < to {
      tokens := tokens + [PlainText(body[from..to])];
    }
  }

  lemma FirstOfRest<T>(s: seq<T>, k: nat)
    requires k < |s|
    ensures s[k..] != [] && s[k..][0] == s[k] && s[k..][1..] == s[k + 1..]
  {
  }

  lemma Append4<T>(a: seq<T>, b: seq<T>, c: seq<T>, d: seq<T>)
    ensures a + (b + (c + d)) == a + b + c + d
  {
  }

  /** The distinct mentioned ids, each where it is first mentioned. */
  method ParseMentions(body: string) returns (ids: seq<string>)
    ensures ids == Dedupe(Ids(MENTION, body))
    ensures Distinct(ids) && forall id :: id in ids <==> id in Ids(MENTION, body)
  {
    var matches := MatchAll(MENTION, body);
    var found := IdsOf(matches);
    ids := [];
    for k := 0 to |matches|
      invariant ids == Dedupe(found[..k])
    {
      assert found[..k + 1][..k] == found[..k] && found[..k + 1][k] == matches[k].userId;
      if matches[k].userId !in ids {
        ids := ids + [matches[k].userId];
      }
    }
    assert found[..|matches|] == found;
    DedupeIsFirstOccurrences(found);
  }

  // ---- Matches of a text and of its parts ----

  lemma CloseIs(b: string, i: nat, c: nat)
    requires i <= c <= |b| && (forall k | i <= k < c :: b[k] != ']') && (c < |b| ==> b[c] == ']')
    ensures Close(b, i) == c
  {
  }

  function Shift(m: Option<Match>, offset: nat): Option<Match> {
    if m.None? then None else Some(m.value.(start := m.value.start + offset, end := m.value.end + offset))
  }

  lemma SliceOfSuffix(b: string, from: nat, i: nat, j: nat)
    requires from <= |b| && i <= j <= |b| - from
    ensures b[from..][i..j] == b[from + i..from + j]
  {
    var x, y := b[from..][i..j], b[from + i..from + j];
    assert |x| == |y|;
    forall k | 0 <= k < |x| ensures x[k] == y[k] {
    }
  }

  lemma CloseInSuffix(b: string, from: nat, i: nat)
    requires from + i <= |b|
    ensures Close(b, from + i) == from + Close(b[from..], i)
  {
    CloseIs(b, from + i, from + Close(b[from..], i));
  }

  lemma ClosesInSuffix(p: Pattern, b: string, from: nat, c: nat)
    requires from + c <= |b|
    ensures ClosesAt(p, b, from + c) <==> ClosesAt(p, b[from..], c)
  {
    assert |b[from..]| == |b| - from;
    if from + c + p.idLength + 3 <= |b| {
      SliceOfSuffix(b, from, c + 2, c + 2 + p.idLength);
    }
  }

  lemma OpensInSuffix(b: string, from: nat, i: nat)
    requires from + i <= |b|
    ensures OpensAt(b, from + i) <==> OpensAt(b[from..], i)
  {
  }

  /** A match, from where its bracket closes. */
  lemma MatchFrom(p: Pattern, b: string, i: nat, c: nat)
    requires OpensAt(b, i) && Close(b, i + 2) == c && i + 2 <= c
    ensures MatchOf(p, b, i)
            == if c - (i + 2) <= MAX_MENTION_NAME && ClosesAt(p, b, c)
               then Some(Match(i, c + p.idLength + 3, b[i + 2..c], b[c + 2..c + 2 + p.idLength])) else None
  {
  }

  /** The same brackets and the same words in between, `from` further on. */
  lemma MatchShifts(p: Pattern, b: string, s: string, from: nat, i: nat, c: nat)
    requires OpensAt(s, i) && OpensAt(b, from + i) && i + 2 <= c
    requires Close(s, i + 2) == c && Close(b, from + i + 2) == from + c
    requires ClosesAt(p, b, from + c) <==> ClosesAt(p, s, c)
    requires ClosesAt(p, s, c) ==>
               s[i + 2..c] == b[from + i + 2..from + c]
               && s[c + 2..c + 2 + p.idLength] == b[from + c + 2..from + c + 2 + p.idLength]
    ensures MatchOf(p, b, from + i) == Shift(MatchOf(p, s, i), from)
  {
    MatchFrom(p, s, i, c);
    MatchFrom(p, b, from + i, from + c);
  }

  lemma MatchInSuffix(p: Pattern, b: string, from: nat, i: nat)
    requires from + i <= |b|
    ensures MatchOf(p, b, from + i) == Shift(MatchOf(p, b[from..], i), from)
  {
    OpensInSuffix(b, from, i);
    if OpensAt(b[from..], i) {
      var c := Close(b[from..], i + 2);
      CloseInSuffix(b, from, i + 2);
      ClosesInSuffix(p, b, from, c);
      if ClosesAt(p, b[from..], c) {
        SliceOfSuffix(b, from, i + 2, c);
        SliceOfSuffix(b, from, c + 2, c + 2 + p.idLength);
      }
      MatchShifts(p, b, b[from..], from, i, c);
    }
  }

  /** Entries that agree up to a shift give the same ids. */
  lemma {:induction false} PickShift(a: seq<Option<Match>>, s: seq<Option<Match>>, from: nat, k: nat)
    requires Forward(a) && Forward(s) && |a| == from + |s| && k <= |s|
    requires forall i | 0 <= i < |s| :: a[from + i] == Shift(s[i], from)
    ensures IdsOf(Pick(a, from + k)) == IdsOf(Pick(s, k))
    ensures |Pick(a, from + k)| == |Pick(s, k)|
    ensures forall i | 0 <= i < |Pick(s, k)| :: Some(Pick(a, from + k)[i]) == Shift(Some(Pick(s, k)[i]), from)
    decreases |s| - k
  {
    if k < |s| {
      if s[k].None? {
        PickShift(a, s, from, k + 1);
      } else {
        PickShift(a, s, from, s[k].value.end);
      }
    }
  }

  lemma MatchesInSuffix(p: Pattern, b: string, from: nat)
    requires from <= |b|
    ensures IdsOf(Pick(Starts(p, b), from)) == Ids(p, b[from..])
    ensures var ms := Pick(Starts(p, b), from);
            var ns := MatchAll(p, b[from..]);
            |ms| == |ns| && forall i | 0 <= i < |ms| :: Some(ms[i]) == Shift(Some(ns[i]), from)
  {
    forall i | 0 <= i < |b| - from ensures Starts(p, b)[from + i] == Shift(Starts(p, b[from..])[i], from) {
      MatchInSuffix(p, b, from, i);
    }
    PickShift(Starts(p, b), Starts(p, b[from..]), from, 0);
  }

  /** A match that ends inside u does not see what follows u. */
  lemma MatchInPrefix(p: Pattern, u: string, w: string, i: nat)
    ensures MatchOf(p, u, i).Some? ==> MatchOf(p, u + w, i) == MatchOf(p, u, i)
    ensures MatchOf(p, u + w, i).Some? && MatchOf(p, u + w, i).value.end <= |u|
            ==> MatchOf(p, u, i) == MatchOf(p, u + w, i)
  {
    var b := u + w;
    if OpensAt(u, i) {
      var c := Close(b, i + 2);
      assert forall k | 0 <= k < |u| :: u[k] == b[k];
      CloseIs(u, i + 2, if c < |u| then c else |u|);
      if c + p.idLength + 3 <= |u| {
        assert b[i + 2..c] == u[i + 2..c];
        assert b[c + 2..c + 2 + p.idLength] == u[c + 2..c + 2 + p.idLength];
      }
    }
  }

  predicate Bindable(name: string) {
    |name| <= MAX_MENTION_NAME && ']' !in name
  }

  lemma MarkupMatches(p: Pattern, name: string, id: string, v: string)
    requires Bindable(name) && p.isId(id) && |id| == p.idLength
    ensures var b := FormatMentionMarkup(name, id) + v;
            MatchOf(p, b, 0) == Some(Match(0, |b| - |v|, name, id))
  {
    var b := FormatMentionMarkup(name, id) + v;
    assert b[2..2 + |name|] == name;
    CloseIs(b, 2, 2 + |name|);
    assert b[2 + |name| + 2..2 + |name| + 2 + |id|] == id;
  }

  /** `@[` at i with nothing closing it in u, near enough to be taken for the start of a name. */
  predicate ReachesFrom(u: string, nameLength: nat, i: nat) {
    OpensAt(u, i) && (forall k | i <= k < |u| :: u[k] != ']') && |u| - i + nameLength <= MAX_MENTION_NAME
  }

  /** Every position of u in front of markup: a match inside u, one swallowing the markup, or none. */
  lemma MatchBefore(p: Pattern, u: string, name: string, id: string, v: string, i: nat)
    requires Plain(p) && Bindable(name) && p.isId(id) && i < |u|
    ensures var b := u + FormatMentionMarkup(name, id) + v;
            var m := MatchOf(p, b, i);
            if ReachesFrom(u, |name|, i) then
              m == Some(Match(i, |b| - |v|, u[i + 2..] + "@[" + name, id))
            else
              m == MatchOf(p, u, i)
  {
    var w := FormatMentionMarkup(name, id) + v;
    var b := u + FormatMentionMarkup(name, id) + v;
    assert b == u + w;
    MatchInPrefix(p, u, w, i);
    assert forall k | 0 <= k < |u| :: u[k] == b[k];
    assert b[|u|] == '@';
    if OpensAt(b, i) {
      if forall k | i + 2 <= k < |u| :: u[k] != ']' {
        SwallowedMarkup(p, u, name, id, v, i);
      } else {
        NoIdOverAt(p, b, Close(b, i + 2), |u|);
      }
    }
  }

  lemma SwallowedMarkup(p: Pattern, u: string, name: string, id: string, v: string, i: nat)
    requires ']' !in name && p.isId(id) && |id| == p.idLength && i < |u|
    requires OpensAt(u, i) && forall k | i <= k < |u| :: u[k] != ']'
    ensures var b := u + FormatMentionMarkup(name, id) + v;
            MatchOf(p, b, i) == if |u| - i + |name| <= MAX_MENTION_NAME
                                then Some(Match(i, |b| - |v|, u[i + 2..] + "@[" + name, id)) else None
  {
    var b := u + FormatMentionMarkup(name, id) + v;
    CharactersAround(u, name, id, v);
    CloseIs(b, i + 2, |u| + 2 + |name|);
    SlicesAround(b, u, name, id, i + 2);
  }

  /** `b` reads u, then markup of name and id, up to the last parenthesis. */
  predicate Reads(b: string, u: string, name: string, id: string) {
    var end := |u| + 2 + |name|;
    && end + 3 + |id| <= |b|
    && (forall k | 0 <= k < |u| :: b[k] == u[k])
    && b[|u|] == '@' && b[|u| + 1] == '['
    && (forall k | |u| + 2 <= k < end :: b[k] == name[k - |u| - 2])
    && b[end] == ']' && b[end + 1] == '(' && b[end + 2 + |id|] == ')'
    && (forall k | end + 2 <= k < end + 2 + |id| :: b[k] == id[k - end - 2])
  }

  lemma CharactersAround(u: string, name: string, id: string, v: string)
    ensures Reads(u + FormatMentionMarkup(name, id) + v, u, name, id)
  {
  }

  lemma SlicesAround(b: string, u: string, name: string, id: string, j: nat)
    requires Reads(b, u, name, id) && j <= |u|
    ensures b[j..|u| + 2 + |name|] == u[j..] + "@[" + name
    ensures b[|u| + 4 + |name|..|u| + 4 + |name| + |id|] == id
  {
    var x, y := b[j..|u| + 2 + |name|], u[j..] + "@[" + name;
    assert |x| == |y|;
    forall k | 0 <= k < |x| ensures x[k] == y[k] { assert x[k] == b[j + k]; }
  }

  /** An id does not run over an `@`. */
  lemma NoIdOverAt(p: Pattern, b: string, c: nat, at: nat)
    requires Plain(p) && c < at < |b| && b[at] == '@' && b[c] == ']'
    ensures ClosesAt(p, b, c) ==> c + p.idLength + 3 <= at
  {
    if c + p.idLength + 3 <= |b| && c + 2 <= at < c + 2 + p.idLength {
      var id := b[c + 2..c + 2 + p.idLength];
      assert id[at - c - 2] == '@';
      assert '@' in id;
    }
  }

  /** Well-formed markup is found wherever it stands, whatever comes before it. */
  lemma IdsAround(p: Pattern, u: string, name: string, id: string, v: string)
    requires Plain(p) && Bindable(name) && p.isId(id)
    ensures Ids(p, u + FormatMentionMarkup(name, id) + v) == Ids(p, u) + [id] + Ids(p, v)
  {
    var b := u + FormatMentionMarkup(name, id) + v;
    var a, end := Starts(p, b), |b| - |v|;
    StartsAround(p, u, name, id, v);
    assert b[end..] == v;
    MatchesInSuffix(p, b, end);
    PickAround(a, Starts(p, u), end, id, 0);
  }

  /** Where matches start in a text with markup in it. */
  lemma StartsAround(p: Pattern, u: string, name: string, id: string, v: string)
    requires Plain(p) && Bindable(name) && p.isId(id)
    ensures var b := u + FormatMentionMarkup(name, id) + v;
            var a, au, end := Starts(p, b), Starts(p, u), |b| - |v|;
            && |u| < end
            && a[|u|] == Some(Match(|u|, end, name, id))
            && forall i | 0 <= i < |u| ::
                 if ReachesFrom(u, |name|, i) then
                   a[i] == Some(Match(i, end, u[i + 2..] + "@[" + name, id)) && (forall k | i <= k < |u| :: au[k].None?)
                 else
                   a[i] == au[i]
  {
    var b := u + FormatMentionMarkup(name, id) + v;
    MarkupAt(p, u, name, id, v);
    forall i | 0 <= i < |u|
      ensures if ReachesFrom(u, |name|, i) then
                Starts(p, b)[i] == Some(Match(i, |b| - |v|, u[i + 2..] + "@[" + name, id))
              else
                Starts(p, b)[i] == Starts(p, u)[i]
    {
      MatchBefore(p, u, name, id, v, i);
    }
    forall i, k | 0 <= i <= k < |u| && ReachesFrom(u, |name|, i) ensures Starts(p, u)[k].None? {
      NothingAfterOpening(p, u, |name|, i, k);
    }
  }

  lemma MarkupAt(p: Pattern, u: string, name: string, id: string, v: string)
    requires Bindable(name) && p.isId(id) && |id| == p.idLength
    ensures var b := u + FormatMentionMarkup(name, id) + v;
            MatchOf(p, b, |u|) == Some(Match(|u|, |b| - |v|, name, id))
  {
    var b := u + FormatMentionMarkup(name, id) + v;
    assert b[|u|..] == FormatMentionMarkup(name, id) + v;
    MarkupMatches(p, name, id, v);
    MatchInSuffix(p, b, |u|, 0);
  }

  lemma NothingAfterOpening(p: Pattern, u: string, nameLength: nat, i: nat, k: nat)
    requires i <= k < |u| && ReachesFrom(u, nameLength, i)
    ensures MatchOf(p, u, k).None?
  {
    if OpensAt(u, k) {
      CloseIs(u, k + 2, |u|);
    }
  }

  lemma {:induction false} PickAround(a: seq<Option<Match>>, au: seq<Option<Match>>, end: nat, id: string, from: nat)
    requires Forward(a) && Forward(au) && from <= |au| < end <= |a|
    requires a[|au|].Some? && a[|au|].value.end == end && a[|au|].value.userId == id
    requires forall i | 0 <= i < |au| ::
               || a[i] == au[i]
               || (a[i].Some? && a[i].value.end == end && a[i].value.userId == id
                   && (forall k | i <= k < |au| :: au[k].None?))
    ensures IdsOf(Pick(a, from)) == IdsOf(Pick(au, from)) + [id] + IdsOf(Pick(a, end))
    decreases |au| - from
  {
    if from == |au| {
    } else if a[from] != au[from] {
      PickNothing(au, from);
    } else if a[from].None? {
      PickAround(a, au, end, id, from + 1);
    } else {
      PickAround(a, au, end, id, a[from].value.end);
    }
  }

  lemma {:induction false} PickNothing(a: seq<Option<Match>>, from: nat)
    requires Forward(a) && from <= |a|
    ensures (forall k | from <= k < |a| :: a[k].None?) <==> Pick(a, from) == []
    decreases |a| - from
  {
    if from < |a| && a[from].None? {
      PickNothing(a, from + 1);
    }
  }

  /** The first match picked: nothing starts before it, and the rest is picked from its end. */
  lemma {:induction false} PickHead(a: seq<Option<Match>>, from: nat)
    requires Forward(a) && from <= |a| && Pick(a, from) != []
    ensures var m := Pick(a, from)[0];
            && from <= m.start < m.end <= |a| && a[m.start] == Some(m)
            && (forall k | from <= k < m.start :: a[k].None?)
            && Pick(a, from)[1..] == Pick(a, m.end)
    decreases |a| - from
  {
    if a[from].None? {
      PickHead(a, from + 1);
    }
  }

  lemma PickFirst(a: seq<Option<Match>>, i: nat)
    requires Forward(a) && i < |a| && a[i].Some? && forall k | 0 <= k < i :: a[k].None?
    ensures Pick(a, 0) != [] && Pick(a, 0)[0] == a[i].value
  {
    PickNothing(a, 0);
    PickHead(a, 0);
  }

  lemma {:induction false} PickedIsEntry(a: seq<Option<Match>>, from: nat)
    requires Forward(a) && from <= |a|
    ensures forall m | m in Pick(a, from) :: m.start < |a| && a[m.start] == Some(m)
    decreases |a| - from
  {
    if from < |a| {
      PickedIsEntry(a, if a[from].None? then from + 1 else a[from].value.end);
    }
  }

  // ---- Which mentions are found ----

  /** `@[name](id)` stands at i, with a name the pattern takes and an id of its kind. */
  ghost predicate MentionAt(p: Pattern, b: string, i: nat, name: string, id: string) {
    && |name| <= 200 && ']' !in name && |id| == p.idLength && p.isId(id)
    && i + |name| + |id| + 5 <= |b|
    && b[i..i + |name| + |id| + 5] == "@[" + name + "](" + id + ")"
  }

  lemma MatchIff(p: Pattern, b: string, i: nat, name: string, id: string)
    requires i <= |b|
    ensures MatchOf(p, b, i) == Some(Match(i, i + |name| + |id| + 5, name, id)) <==> MentionAt(p, b, i, name, id)
  {
    if MentionAt(p, b, i, name, id) {
      var end := i + |name| + |id| + 5;
      assert b[i..] == FormatMentionMarkup(name, id) + b[end..];
      MarkupMatches(p, name, id, b[end..]);
      MatchInSuffix(p, b, i, 0);
    }
    if MatchOf(p, b, i) == Some(Match(i, i + |name| + |id| + 5, name, id)) {
      MatchReads(p, b, i);
    }
  }

  lemma {:induction false} PickCovers(a: seq<Option<Match>>, from: nat, i: nat) returns (k: nat)
    requires Forward(a) && from <= i < |a| && a[i].Some?
    ensures k < |Pick(a, from)| && Pick(a, from)[k].start <= i < Pick(a, from)[k].end
    decreases |a| - from
  {
    if a[from].None? {
      k := PickCovers(a, from + 1, i);
    } else if i < a[from].value.end {
      k := 0;
    } else {
      k := PickCovers(a, a[from].value.end, i);
      k := k + 1;
    }
  }

  lemma {:induction false} PickAscends(a: seq<Option<Match>>, from: nat)
    requires Forward(a) && from <= |a|
    ensures forall m | m in Pick(a, from) :: from <= m.start
    ensures forall j, k | 0 <= j < k < |Pick(a, from)| :: Pick(a, from)[j].end <= Pick(a, from)[k].start
    decreases |a| - from
  {
    if from < |a| {
      PickAscends(a, if a[from].None? then from + 1 else a[from].value.end);
    }
  }

  /**
    Every match is a mention that stands in the text, matches follow one another without overlap,
    and every mention in the text either is matched or begins inside an earlier match.
  */
  lemma MatchesAreMentions(p: Pattern, b: string)
    ensures var ms := MatchAll(p, b);
            && (forall m | m in ms :: MentionAt(p, b, m.start, m.name, m.userId)
                                      && m.end == m.start + |m.name| + |m.userId| + 5)
            && (forall j, k | 0 <= j < k < |ms| :: ms[j].end <= ms[k].start)
            && (forall i: nat, name, id | MentionAt(p, b, i, name, id) ::
                  exists k | 0 <= k < |ms| ::
                    ms[k].start <= i < ms[k].end && (ms[k].start == i ==> ms[k].name == name && ms[k].userId == id))
  {
    var a := Starts(p, b);
    PickedIsEntry(a, 0);
    PickAscends(a, 0);
    forall m | m in MatchAll(p, b)
      ensures MentionAt(p, b, m.start, m.name, m.userId) && m.end == m.start + |m.name| + |m.userId| + 5
    {
      MatchReads(p, b, m.start);
    }
    forall i: nat, name, id | MentionAt(p, b, i, name, id)
      ensures exists k | 0 <= k < |MatchAll(p, b)| ::
                var m := MatchAll(p, b)[k];
                m.start <= i < m.end && (m.start == i ==> m.name == name && m.userId == id)
    {
      var k := MentionFound(p, b, i, name, id);
    }
  }

  lemma MentionFound(p: Pattern, b: string, i: nat, name: string, id: string) returns (k: nat)
    requires MentionAt(p, b, i, name, id)
    ensures k < |MatchAll(p, b)|
    ensures var m := MatchAll(p, b)[k];
            m.start <= i < m.end && (m.start == i ==> m.name == name && m.userId == id)
  {
    MatchIff(p, b, i, name, id);
    k := PickCovers(Starts(p, b), 0, i);
    PickedIsEntry(Starts(p, b), 0);
    assert MatchAll(p, b)[k] in MatchAll(p, b);
  }

  lemma MentionIsPlain()
    ensures Plain(MENTION)
  {
    forall s | MENTION.isId(s) ensures |s| == 36 && '@' !in s && ']' !in s {
      forall i | 0 <= i < |s| ensures s[i] != '@' && s[i] != ']' {
      }
    }
  }

  /** The picker's markup survives a round trip exactly when name and id fit the pattern. */
  lemma MarkupRoundTrip(name: string, userId: string)
    ensures var b := FormatMentionMarkup(name, userId);
            Laid(b, MatchAll(MENTION, b), 0)
            && (Tokens(b, MatchAll(MENTION, b), 0) == [Mention(name, userId)] <==> Bindable(name) && IsUuid7(userId))
  {
    var b := FormatMentionMarkup(name, userId);
    var ms := MatchAll(MENTION, b);
    MatchesLaid(MENTION, b, 0);
    if Bindable(name) && IsUuid7(userId) {
      MarkupMatches(MENTION, name, userId, "");
      assert b + "" == b;
      assert ms == [Match(0, |b|, name, userId)];
    }
    var ts := Tokens(b, ms, 0);
    if ts == [Mention(name, userId)] {
      assert ts[0].Mention? && ms != [];
      assert ms[0] in ms;
    }
  }

  // ---- The caret ----

  datatype ActiveQuery = ActiveQuery(start: nat, query: string)

  /** `lastIndexOf('@')`, or −1. */
  function LastAt(s: string): (i: int)
    ensures -1 <= i < |s| && (i >= 0 ==> s[i] == '@') && forall k | i < k < |s| :: s[k] != '@'
  {
    if s == [] then -1
    else if s[|s| - 1] == '@' then |s| - 1
    else LastAt(s[..|s| - 1])
  }

  function GetActiveMentionQuery(value: string, cursor: nat): Option<ActiveQuery>
    requires cursor <= |value|
  {
    var before := value[..cursor];
    var at := LastAt(before);
    if at < 0 then None
    else if at + 1 < |before| && before[at + 1] == '[' then None
    else if at > 0 && !Text.IsSpace(before[at - 1]) && before[at - 1] !in {'(', '[', '{'} then None
    else if exists c | c in before[at + 1..] :: Text.IsSpace(c) then None
    else Some(ActiveQuery(at, before[at + 1..]))
  }

  function InsertMentionMarkup(value: string, selectionStart: nat, selectionEnd: nat, name: string, userId: string)
    : (r: (string, nat))
    requires selectionStart <= selectionEnd <= |value|
  {
    var markup := FormatMentionMarkup(name, userId) + " ";
    var active := GetActiveMentionQuery(value, selectionStart);
    var start := if active.Some? then active.value.start else selectionStart;
    (value[..start] + markup + value[selectionEnd..], start + |markup|)
  }

  /** The caret stands in a query that begins at `at`: an `@` at a word's start, then neither blanks nor an `@`. */
  ghost predicate QueryFrom(value: string, caret: nat, at: nat)
    requires caret <= |value|
  {
    && at < caret && value[at] == '@'
    && (forall k | at < k < caret :: value[k] != '@' && !Text.IsSpace(value[k]))
    && (at + 1 < caret ==> value[at + 1] != '[')
    && (at > 0 ==> Text.IsSpace(value[at - 1]) || value[at - 1] == '(' || value[at - 1] == '[' || value[at - 1] == '{')
  }

  /** A query is found exactly where one stands, and it reads what was typed after the `@`. */
  lemma QueryIff(value: string, caret: nat, at: nat, query: string)
    requires caret <= |value|
    ensures GetActiveMentionQuery(value, caret) == Some(ActiveQuery(at, query))
            <==> QueryFrom(value, caret, at) && query == value[at + 1..caret]
  {
    var before := value[..caret];
    if QueryFrom(value, caret, at) {
      assert before[at] == '@' && forall k | at < k < caret :: before[k] == value[k];
      assert LastAt(before) == at;
      assert before[at + 1..] == value[at + 1..caret];
    }
    if GetActiveMentionQuery(value, caret) == Some(ActiveQuery(at, query)) {
      assert before[at + 1..] == value[at + 1..caret];
      forall k | at < k < caret ensures value[k] != '@' && !Text.IsSpace(value[k]) {
        assert before[at + 1..][k - at - 1] == value[k];
        assert before[k] == value[k];
      }
    }
  }

  /** What the insertion makes of the text and the caret, when a stretch from `start` is replaced. */
  ghost predicate Inserted(value: string, start: nat, selectionEnd: nat, name: string, userId: string, next: string,
                           cursor: nat)
    requires start <= selectionEnd <= |value|
  {
    var typed := value[..start] + "@[" + name + "](" + userId + ") ";
    next == typed + value[selectionEnd..] && cursor == |typed|
  }

  /**
    The markup replaces the selection and, when the caret stands in a query, the query with its `@`;
    the text left and right stays, the caret is just past the markup and in no query there.
  */
  lemma InsertionClosesQuery(value: string, selectionStart: nat, selectionEnd: nat, name: string, userId: string)
    requires selectionStart <= selectionEnd <= |value|
    ensures var (next, cursor) := InsertMentionMarkup(value, selectionStart, selectionEnd, name, userId);
            && (forall at: nat | QueryFrom(value, selectionStart, at) ::
                  Inserted(value, at, selectionEnd, name, userId, next, cursor))
            && ((forall at: nat :: !QueryFrom(value, selectionStart, at)) ==>
                  Inserted(value, selectionStart, selectionEnd, name, userId, next, cursor))
            && cursor <= |next| && forall at: nat :: !QueryFrom(next, cursor, at)
  {
    var (next, cursor) := InsertMentionMarkup(value, selectionStart, selectionEnd, name, userId);
    var active := GetActiveMentionQuery(value, selectionStart);
    var start := if active.Some? then active.value.start else selectionStart;
    Typed(value[..start], name, userId, value[selectionEnd..]);
    forall at: nat | QueryFrom(value, selectionStart, at)
      ensures Inserted(value, at, selectionEnd, name, userId, next, cursor)
    {
      QueryIff(value, selectionStart, at, value[at + 1..selectionStart]);
    }
    if forall at: nat :: !QueryFrom(value, selectionStart, at) {
      if active.Some? {
        QueryIff(value, selectionStart, active.value.start, active.value.query);
      }
    }
    ClosedAfter(value[..start], name, userId, value[selectionEnd..]);
    forall at: nat ensures !QueryFrom(next, cursor, at) {
      if at < cursor {
        QueryIff(next, cursor, at, next[at + 1..cursor]);
      }
    }
  }

  lemma Typed(left: string, name: string, userId: string, right: string)
    ensures left + (FormatMentionMarkup(name, userId) + " ") + right
            == left + "@[" + name + "](" + userId + ") " + right
    ensures |left + "@[" + name + "](" + userId + ") "| == |left| + |FormatMentionMarkup(name, userId) + " "|
  {
    assert left + (FormatMentionMarkup(name, userId) + " ") == left + "@[" + name + "](" + userId + ") ";
  }

  /** Behind the markup and its blank the caret is in no query. */
  lemma ClosedAfter(left: string, name: string, userId: string, right: string)
    ensures var markup := FormatMentionMarkup(name, userId) + " ";
            GetActiveMentionQuery(left + markup + right, |left| + |markup|).None?
  {
    var markup := FormatMentionMarkup(name, userId) + " ";
    var before, next := left + markup, left + markup + right;
    assert next[..|before|] == before;
    assert before[|left|] == '@' && before[|before| - 1] == ' ';
    BlankEndsQuery(before, |left|);
    QueryAt(next, |before|, before);
  }

  lemma BlankInTail(before: string, from: nat)
    requires from < |before| && before[|before| - 1] == ' '
    ensures exists c :: c in before[from..] && Text.IsSpace(c)
  {
    assert before[from..][|before| - 1 - from] == ' ';
    assert Text.IsSpace(' ') && ' ' in before[from..];
  }

  /** A caret behind an `@` and, later, a blank is in no query. */
  lemma BlankEndsQuery(before: string, i: nat)
    requires i < |before| - 1 && before[i] == '@' && before[|before| - 1] == ' '
    ensures 0 <= LastAt(before) && exists c :: c in before[LastAt(before) + 1..] && Text.IsSpace(c)
  {
    var at := LastAt(before);
    assert i <= at && at != |before| - 1;
    BlankInTail(before, at + 1);
  }

  lemma QueryAt(value: string, caret: nat, before: string)
    requires caret <= |value| && value[..caret] == before && 0 <= LastAt(before)
    requires exists c :: c in before[LastAt(before) + 1..] && Text.IsSpace(c)
    ensures GetActiveMentionQuery(value, caret).None?
  {
  }

  /** Inserting a pickable member is seen by the parser, next to everyone mentioned around it. */
  lemma InsertionIsParsed(value: string, selectionStart: nat, selectionEnd: nat, name: string, userId: string)
    requires selectionStart <= selectionEnd <= |value|
    requires Bindable(name) && IsUuid7(userId)
    ensures var (next, cursor) := InsertMentionMarkup(value, selectionStart, selectionEnd, name, userId);
            cursor <= |next|
            && Ids(MENTION, next) == Ids(MENTION, next[..cursor - |FormatMentionMarkup(name, userId)| - 1]) + [userId]
                                     + Ids(MENTION, value[selectionEnd..])
  {
    var (next, cursor) := InsertMentionMarkup(value, selectionStart, selectionEnd, name, userId);
    var markup := FormatMentionMarkup(name, userId);
    var active := GetActiveMentionQuery(value, selectionStart);
    var start := if active.Some? then active.value.start else selectionStart;
    var rest := value[selectionEnd..];
    assert next == value[..start] + markup + (" " + rest);
    assert next[..start] == value[..start];
    MentionIsPlain();
    IdsAround(MENTION, value[..start], name, userId, " " + rest);
    assert (" " + rest)[1..] == rest;
    var a := Starts(MENTION, " " + rest);
    assert a[0].None? && Pick(a, 0) == Pick(a, 1);
    MatchesInSuffix(MENTION, " " + rest, 1);
  }
}
