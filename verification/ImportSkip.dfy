/**
  The import's skip report (apps/api/src/import/import-skip.ts): everything left behind, gathered
  into (scope, reason) groups that are shown in the vocabulary's own order.
*/
module ImportSkip {
  import opened Rows
  import opened Text
  import opened Wrappers

  const SKIP_SAMPLE_LIMIT := 20

  /** In the order the shared vocabulary lists them. */
  datatype Scope = ListScope | ColumnScope | CardScope | LabelScope | ChecklistScope | ChecklistItemScope
                 | AttachmentScope | MemberScope | CommentScope

  datatype Reason = OutOfScope | Archived | Unmappable | UnsupportedScheme | Malformed | Defaulted

  function ScopeIndex(s: Scope): nat {
    match s
    case ListScope => 0
    case ColumnScope => 1
    case CardScope => 2
    case LabelScope => 3
    case ChecklistScope => 4
    case ChecklistItemScope => 5
    case AttachmentScope => 6
    case MemberScope => 7
    case CommentScope => 8
  }

  function ReasonIndex(r: Reason): nat {
    match r
    case OutOfScope => 0
    case Archived => 1
    case Unmappable => 2
    case UnsupportedScheme => 3
    case Malformed => 4
    case Defaulted => 5
  }

  datatype Group = Group(scope: Scope, reason: Reason, count: int, samples: seq<string>)

  /** One call of the collector. */
  datatype Event = Event(scope: Scope, reason: Reason, count: int, samples: seq<Option<string>>)

  predicate Before(a: Group, b: Group) {
    || ScopeIndex(a.scope) < ScopeIndex(b.scope)
    || (ScopeIndex(a.scope) == ScopeIndex(b.scope) && ReasonIndex(a.reason) < ReasonIndex(b.reason))
  }

  /** The report's comparator. */
  predicate InVocabularyOrder(a: Group, b: Group) {
    !Before(b, a)
  }

  // ---- The collector as a function of its calls ----

  function Capped(s: seq<string>): seq<string> {
    if |s| > SKIP_SAMPLE_LIMIT then s[..SKIP_SAMPLE_LIMIT] else s
  }

  /** The names worth quoting: trimmed, and not blank. */
  function Names(samples: seq<Option<string>>): seq<string> {
    if samples == [] then []
    else
      var last := samples[|samples| - 1];
      Names(samples[..|samples| - 1]) + if last.Some? && Trim(last.value) != "" then [Trim(last.value)] else []
  }

  function Position(groups: seq<Group>, scope: Scope, reason: Reason): (k: int)
    ensures -1 <= k < |groups|
    ensures 0 <= k ==> groups[k].scope == scope && groups[k].reason == reason
    ensures k < 0 ==> forall g | g in groups :: g.scope != scope || g.reason != reason
  {
    if groups == [] then -1
    else
      var last := groups[|groups| - 1];
      assert groups == groups[..|groups| - 1] + [last];
      if last.scope == scope && last.reason == reason then |groups| - 1
      else Position(groups[..|groups| - 1], scope, reason)
  }

  function AddTo(groups: seq<Group>, e: Event): seq<Group> {
    if e.count <= 0 then groups
    else
      var k := Position(groups, e.scope, e.reason);
      if k < 0 then groups + [Group(e.scope, e.reason, e.count, Capped(Names(e.samples)))]
      else
        var g := groups[k];
        groups[k := g.(count := g.count + e.count, samples := Capped(g.samples + Names(e.samples)))]
  }

  function Groups(log: seq<Event>): seq<Group> {
    if log == [] then [] else AddTo(Groups(log[..|log| - 1]), log[|log| - 1])
  }

  function Report(log: seq<Event>): seq<Group> {
    Sort(InVocabularyOrder, Groups(log))
  }

  // ---- What it should say ----

  predicate IsFor(e: Event, scope: Scope, reason: Reason) {
    e.scope == scope && e.reason == reason && e.count > 0
  }

  /** Items added to one group by one call. */
  function ItemsFor(scope: Scope, reason: Reason): Event -> nat {
    (e: Event) => if IsFor(e, scope, reason) then e.count else 0
  }

  function ItemsIn(scope: Scope): Event -> nat {
    (e: Event) => if e.scope == scope && e.count > 0 then e.count else 0
  }

  /** Every item added to a group, and every item added under a scope. */
  function Items(log: seq<Event>, scope: Scope, reason: Reason): nat {
    Sum(ItemsFor(scope, reason), log)
  }

  function Total(log: seq<Event>, scope: Scope): nat {
    Sum(ItemsIn(scope), log)
  }

  function NamesFor(log: seq<Event>, scope: Scope, reason: Reason): seq<string> {
    if log == [] then []
    else
      var e := log[|log| - 1];
      NamesFor(log[..|log| - 1], scope, reason) + if IsFor(e, scope, reason) then Names(e.samples) else []
  }

  function CountIn(scope: Scope): Group -> nat {
    (g: Group) => if g.scope == scope && g.count > 0 then g.count else 0
  }

  /** A group that tells the truth about the calls. */
  ghost predicate Honest(log: seq<Event>, g: Group) {
    && g.count == Items(log, g.scope, g.reason) && g.count > 0
    && g.samples == Capped(NamesFor(log, g.scope, g.reason))
  }

  function KeyOf(g: Group): (Scope, Reason) {
    (g.scope, g.reason)
  }

  lemma CappedTwice(a: seq<string>, b: seq<string>)
    ensures Capped(Capped(a) + b) == Capped(a + b)
  {
  }

  lemma GroupsMore(log: seq<Event>, e: Event)
    ensures Groups(log + [e]) == AddTo(Groups(log), e)
    ensures forall s, r :: Items(log + [e], s, r) == Items(log, s, r) + ItemsFor(s, r)(e)
    ensures forall s, r ::
            NamesFor(log + [e], s, r) == NamesFor(log, s, r) + if IsFor(e, s, r) then Names(e.samples) else []
  {
    assert (log + [e])[..|log|] == log;
    forall s, r ensures Items(log + [e], s, r) == Items(log, s, r) + ItemsFor(s, r)(e) {
      SumMore(ItemsFor(s, r), log, e);
    }
  }

  lemma NewGroup(groups: seq<Group>, g: Group)
    requires Distinct(Map(KeyOf, groups)) && Position(groups, g.scope, g.reason) < 0
    ensures Distinct(Map(KeyOf, groups + [g]))
  {
    var all := groups + [g];
    forall i, j | 0 <= i < j < |all| ensures KeyOf(all[i]) != KeyOf(all[j]) {
      if j < |groups| {
        assert Map(KeyOf, groups)[i] != Map(KeyOf, groups)[j];
      } else {
        assert all[i] in groups;
      }
    }
  }

  lemma SameKeys(groups: seq<Group>, k: nat, g: Group)
    requires k < |groups| && KeyOf(g) == KeyOf(groups[k])
    ensures Map(KeyOf, groups[k := g]) == Map(KeyOf, groups)
  {
  }

  ghost predicate Truthful(log: seq<Event>) {
    && Distinct(Map(KeyOf, Groups(log)))
    && (forall g | g in Groups(log) :: Honest(log, g))
    && (forall s, r :: Items(log, s, r) > 0 <==> 0 <= Position(Groups(log), s, r))
  }

  lemma StillTruthful(before: seq<Event>, e: Event)
    requires Truthful(before)
    ensures Truthful(before + [e])
  {
    GroupsMore(before, e);
    var was, now := Groups(before), Groups(before + [e]);
    if e.count > 0 {
      var k := Position(was, e.scope, e.reason);
      if k < 0 {
        NewGroup(was, now[|now| - 1]);
      } else {
        SameKeys(was, k, now[k]);
      }
      forall g | g in now ensures Honest(before + [e], g) { GroupKept(before, e, g); }
      forall s, r ensures Items(before + [e], s, r) > 0 <==> 0 <= Position(now, s, r) { PositionKept(was, e, s, r); }
    } else {
      forall g | g in now ensures Honest(before + [e], g) { NothingAdded(before, e, g); }
    }
  }

  lemma NothingAdded(before: seq<Event>, e: Event, g: Group)
    requires Honest(before, g) && e.count <= 0
    ensures Honest(before + [e], g)
  {
    GroupsMore(before, e);
    assert NamesFor(before, g.scope, g.reason) + [] == NamesFor(before, g.scope, g.reason);
  }

  /**
    Each group counts exactly the items added to it and quotes the first of their names; no group is
    empty or doubled.
  */
  lemma {:induction false} GroupsTellTheTruth(log: seq<Event>)
    ensures Distinct(Map(KeyOf, Groups(log)))
    ensures forall g | g in Groups(log) :: Honest(log, g)
    ensures forall s, r :: Items(log, s, r) > 0 <==> 0 <= Position(Groups(log), s, r)
  {
    if log != [] {
      var before, e := log[..|log| - 1], log[|log| - 1];
      GroupsTellTheTruth(before);
      StillTruthful(before, e);
      assert log == before + [e];
    }
  }

  lemma {:induction false} NoNamesYet(log: seq<Event>, scope: Scope, reason: Reason)
    requires Items(log, scope, reason) == 0
    ensures NamesFor(log, scope, reason) == []
  {
    if log != [] {
      NoNamesYet(log[..|log| - 1], scope, reason);
    }
  }

  lemma GroupKept(before: seq<Event>, e: Event, g: Group)
    requires Distinct(Map(KeyOf, Groups(before))) && (forall h | h in Groups(before) :: Honest(before, h))
    requires forall s, r :: Items(before, s, r) > 0 <==> 0 <= Position(Groups(before), s, r)
    requires e.count > 0 && g in AddTo(Groups(before), e)
    ensures Honest(before + [e], g)
  {
    var was := Groups(before);
    var k := Position(was, e.scope, e.reason);
    if g.scope != e.scope || g.reason != e.reason {
      OtherGroup(was, e, g);
      HonestOther(before, e, g);
    } else if k < 0 {
      OwnGroup(was, e, g);
      HonestNew(before, e, g);
    } else {
      OwnGroup(was, e, g);
      assert was[k] in was;
      HonestOld(before, e, was[k]);
    }
  }

  /** A group with another key was there before, as it is. */
  lemma OtherGroup(was: seq<Group>, e: Event, g: Group)
    requires e.count > 0 && g in AddTo(was, e) && (g.scope != e.scope || g.reason != e.reason)
    ensures g in was
  {
    var k := Position(was, e.scope, e.reason);
    var i :| 0 <= i < |AddTo(was, e)| && AddTo(was, e)[i] == g;
    assert i < |was| && i != k;
    assert was[i] == g;
  }

  lemma OwnGroup(was: seq<Group>, e: Event, g: Group)
    requires Distinct(Map(KeyOf, was))
    requires e.count > 0 && g in AddTo(was, e) && g.scope == e.scope && g.reason == e.reason
    ensures var k := Position(was, e.scope, e.reason);
            g == if k < 0 then Group(e.scope, e.reason, e.count, Capped(Names(e.samples)))
                 else was[k].(count := was[k].count + e.count, samples := Capped(was[k].samples + Names(e.samples)))
  {
    var k := Position(was, e.scope, e.reason);
    forall i | 0 <= i < |was| && i != k ensures KeyOf(was[i]) != (e.scope, e.reason) {
      assert was[i] in was;
      assert 0 <= k ==> Map(KeyOf, was)[i] != Map(KeyOf, was)[k];
    }
    var i :| 0 <= i < |AddTo(was, e)| && AddTo(was, e)[i] == g;
  }

  lemma HonestOther(before: seq<Event>, e: Event, g: Group)
    requires Honest(before, g) && (g.scope != e.scope || g.reason != e.reason)
    ensures Honest(before + [e], g)
  {
    GroupsMore(before, e);
    assert NamesFor(before, g.scope, g.reason) + [] == NamesFor(before, g.scope, g.reason);
  }

  lemma HonestNew(before: seq<Event>, e: Event, g: Group)
    requires e.count > 0 && g == Group(e.scope, e.reason, e.count, Capped(Names(e.samples)))
    requires Items(before, e.scope, e.reason) == 0
    ensures Honest(before + [e], g)
  {
    GroupsMore(before, e);
    NoNamesYet(before, e.scope, e.reason);
    assert [] + Names(e.samples) == Names(e.samples);
  }

  lemma HonestOld(before: seq<Event>, e: Event, g: Group)
    requires Honest(before, g) && e.count > 0 && g.scope == e.scope && g.reason == e.reason
    ensures Honest(before + [e], g.(count := g.count + e.count, samples := Capped(g.samples + Names(e.samples))))
  {
    GroupsMore(before, e);
    CappedTwice(NamesFor(before, e.scope, e.reason), Names(e.samples));
  }

  lemma PositionIn(groups: seq<Group>, scope: Scope, reason: Reason)
    ensures 0 <= Position(groups, scope, reason) <==> (scope, reason) in Map(KeyOf, groups)
  {
    var k := Position(groups, scope, reason);
    if 0 <= k {
      assert Map(KeyOf, groups)[k] == (scope, reason);
    } else {
      forall i | 0 <= i < |groups| ensures Map(KeyOf, groups)[i] != (scope, reason) { assert groups[i] in groups; }
    }
  }

  lemma PositionKept(was: seq<Group>, e: Event, scope: Scope, reason: Reason)
    requires e.count > 0
    ensures 0 <= Position(AddTo(was, e), scope, reason)
            <==> 0 <= Position(was, scope, reason) || (scope == e.scope && reason == e.reason)
  {
    var k := Position(was, e.scope, e.reason);
    PositionIn(was, scope, reason);
    PositionIn(was, e.scope, e.reason);
    PositionIn(AddTo(was, e), scope, reason);
    if k < 0 {
      assert Map(KeyOf, AddTo(was, e)) == Map(KeyOf, was) + [(e.scope, e.reason)];
    } else {
      SameKeys(was, k, AddTo(was, e)[k]);
    }
  }

  // ---- The report ----

  lemma VocabularyOrderIsTotal()
    ensures TotalPreorder(InVocabularyOrder)
  {
  }

  /** Groups in the vocabulary's order, each once, each telling the truth. */
  lemma ReportFacts(log: seq<Event>)
    ensures forall i, j | 0 <= i < j < |Report(log)| :: Before(Report(log)[i], Report(log)[j])
    ensures forall g | g in Report(log) :: Honest(log, g)
    ensures forall s, r | Items(log, s, r) > 0 :: exists g :: g in Report(log) && g.scope == s && g.reason == r
  {
    var groups, report := Groups(log), Report(log);
    GroupsTellTheTruth(log);
    VocabularyOrderIsTotal();
    SortPermutation(InVocabularyOrder, groups);
    SortSorted(InVocabularyOrder, groups);
    DistinctPermutation(KeyOf, groups, report);
    forall i, j | 0 <= i < j < |report| ensures Before(report[i], report[j]) {
      assert InVocabularyOrder(report[i], report[j]) && Map(KeyOf, report)[i] != Map(KeyOf, report)[j];
      IndexesTell(report[i], report[j]);
    }
    forall s, r | Items(log, s, r) > 0 ensures exists g :: g in report && g.scope == s && g.reason == r {
      assert groups[Position(groups, s, r)] in groups;
    }
  }

  lemma IndexesTell(a: Group, b: Group)
    ensures KeyOf(a) == KeyOf(b) <==> !Before(a, b) && !Before(b, a)
  {
  }

  /** The counts of a scope add up to the items added under it. */
  lemma TotalReported(log: seq<Event>, scope: Scope)
    ensures Sum(CountIn(scope), Report(log)) == Total(log, scope)
  {
    SortPermutation(InVocabularyOrder, Groups(log));
    SumPermutation(CountIn(scope), Report(log), Groups(log));
    TotalGrouped(log, scope);
  }

  lemma {:induction false} TotalGrouped(log: seq<Event>, scope: Scope)
    ensures Sum(CountIn(scope), Groups(log)) == Total(log, scope)
    ensures forall g | g in Groups(log) :: g.count > 0
  {
    if log != [] {
      TotalGrouped(log[..|log| - 1], scope);
      GroupAdded(Groups(log[..|log| - 1]), log[|log| - 1], scope);
    }
  }

  lemma GroupAdded(groups: seq<Group>, e: Event, scope: Scope)
    requires forall g | g in groups :: g.count > 0
    ensures Sum(CountIn(scope), AddTo(groups, e)) == Sum(CountIn(scope), groups) + ItemsIn(scope)(e)
    ensures forall g | g in AddTo(groups, e) :: g.count > 0
  {
    if e.count > 0 {
      var k := Position(groups, e.scope, e.reason);
      if k < 0 {
        SumMore(CountIn(scope), groups, AddTo(groups, e)[|groups|]);
      } else {
        assert groups[k] in groups;
        SumReplaced(CountIn(scope), groups, k, AddTo(groups, e)[k]);
      }
    }
  }

  lemma SumReplaced<T>(f: T -> nat, s: seq<T>, k: nat, x: T)
    requires k < |s|
    ensures Sum(f, s[k := x]) + f(s[k]) == Sum(f, s) + f(x)
  {
    Around(s, k);
    Replaced(s, k, x);
    SumMiddle(f, s[..k], s[k], s[k + 1..]);
    SumMiddle(f, s[..k], x, s[k + 1..]);
  }

  lemma Replaced<T>(s: seq<T>, k: nat, x: T)
    requires k < |s|
    ensures s[k := x] == s[..k] + [x] + s[k + 1..]
  {
  }

  function Bare(g: Group): Group {
    g.(samples := [])
  }

  /** The same skips in another order give the same groups with the same counts, in the same order. */
  lemma ReportIgnoresOrder(a: seq<Event>, b: seq<Event>)
    requires multiset(a) == multiset(b)
    ensures Map(Bare, Report(a)) == Map(Bare, Report(b))
  {
    var x, y := Map(Bare, Report(a)), Map(Bare, Report(b));
    BareReport(a);
    BareReport(b);
    forall s, r ensures Items(a, s, r) == Items(b, s, r) { SumPermutation(ItemsFor(s, r), a, b); }
    DistinctCount(x);
    DistinctCount(y);
    assert forall g :: g in x <==> g in y;
    forall g ensures multiset(x)[g] == multiset(y)[g] {
      assert g in multiset(x) <==> g in x;
      assert g in multiset(y) <==> g in y;
    }
    assert multiset(x) == multiset(y);
    SortedUnique(InVocabularyOrder, x, y);
  }

  lemma BareReport(log: seq<Event>)
    ensures var x := Map(Bare, Report(log));
            && Sorted(InVocabularyOrder, x) && AntisymmetricOn(InVocabularyOrder, x) && Distinct(x)
            && forall g :: g in x <==> g.samples == [] && g.count > 0 && g.count == Items(log, g.scope, g.reason)
  {
    var report := Report(log);
    var x := Map(Bare, report);
    ReportFacts(log);
    forall i, j | 0 <= i < j < |x| ensures Before(x[i], x[j]) { assert Before(report[i], report[j]); }
    StrictlyInOrder(x);
    forall g ensures g in x <==> g.samples == [] && g.count > 0 && g.count == Items(log, g.scope, g.reason) {
      InBareReport(log, g);
    }
  }

  lemma StrictlyInOrder(x: seq<Group>)
    requires forall i, j | 0 <= i < j < |x| :: Before(x[i], x[j])
    ensures Sorted(InVocabularyOrder, x) && AntisymmetricOn(InVocabularyOrder, x) && Distinct(x)
  {
    forall g, h | g in x && h in x ensures InVocabularyOrder(g, h) && InVocabularyOrder(h, g) ==> g == h {
      var i :| 0 <= i < |x| && x[i] == g;
      var j :| 0 <= j < |x| && x[j] == h;
      assert i < j ==> Before(x[i], x[j]);
      assert j < i ==> Before(x[j], x[i]);
    }
  }

  lemma InBareReport(log: seq<Event>, g: Group)
    ensures g in Map(Bare, Report(log)) <==> g.samples == [] && g.count > 0 && g.count == Items(log, g.scope, g.reason)
  {
    var report := Report(log);
    var x := Map(Bare, report);
    ReportFacts(log);
    if g in x {
      var i :| 0 <= i < |x| && x[i] == g;
      assert report[i] in report;
    }
    if g.samples == [] && g.count > 0 && g.count == Items(log, g.scope, g.reason) {
      var h :| h in report && h.scope == g.scope && h.reason == g.reason;
      var i :| 0 <= i < |report| && report[i] == h;
      assert x[i] == Bare(h) == g;
    }
  }

  // ---- What a group quotes ----

  function SamplesIn(e: Event): seq<Option<string>> { e.samples }

  lemma {:induction false} NamesAre(samples: seq<Option<string>>)
    ensures Names(samples)
            == Map((s: Option<string>) => if s.Some? then Trim(s.value) else "",
                   Filter((s: Option<string>) => s.Some? && Trim(s.value) != "", samples))
  {
    if samples != [] {
      var before, last := samples[..|samples| - 1], samples[|samples| - 1];
      NamesAre(before);
      MapAppend((s: Option<string>) => if s.Some? then Trim(s.value) else "",
                Filter((s: Option<string>) => s.Some? && Trim(s.value) != "", before), [last]);
    }
  }

  lemma {:induction false} NamesJoin(a: seq<Option<string>>, b: seq<Option<string>>)
    ensures Names(a + b) == Names(a) + Names(b)
  {
    if b == [] {
      NothingBehind(a);
      NothingBehind(Names(a));
    } else {
      NamesJoin(a, b[..|b| - 1]);
      AppendLast(a, b);
      Append3(Names(a), Names(b[..|b| - 1]), Names([b[|b| - 1]]));
      assert [b[|b| - 1]][..0] == [];
    }
  }

  function AddsTo(scope: Scope, reason: Reason): Event -> bool {
    (e: Event) => e.scope == scope && e.reason == reason && e.count > 0
  }

  /** The samples of the calls that add to a group, one call after the other. */
  function SamplesFor(log: seq<Event>, scope: Scope, reason: Reason): seq<Option<string>> {
    Flatten(Map(SamplesIn, Filter(AddsTo(scope, reason), log)))
  }

  lemma SamplesAdded(calls: seq<Event>, e: Event)
    ensures Flatten(Map(SamplesIn, calls + [e])) == Flatten(Map(SamplesIn, calls)) + e.samples
  {
    MapAppend(SamplesIn, calls, [e]);
    assert Map(SamplesIn, [e]) == [e.samples];
    FlattenMore(Map(SamplesIn, calls), e.samples);
  }

  lemma SamplesMore(log: seq<Event>, e: Event, scope: Scope, reason: Reason)
    ensures SamplesFor(log + [e], scope, reason)
            == SamplesFor(log, scope, reason) + if AddsTo(scope, reason)(e) then e.samples else []
  {
    var p := AddsTo(scope, reason);
    FilterAppend(p, log, [e]);
    FilterOne(p, e);
    if p(e) {
      SamplesAdded(Filter(p, log), e);
    } else {
      NothingBehind(Filter(p, log));
      NothingBehind(SamplesFor(log, scope, reason));
    }
  }

  lemma FlattenMore<T>(s: seq<seq<T>>, x: seq<T>)
    ensures Flatten(s + [x]) == Flatten(s) + x
  {
    assert (s + [x])[..|s|] == s;
  }

  lemma {:induction false} NamesForAre(log: seq<Event>, scope: Scope, reason: Reason)
    ensures NamesFor(log, scope, reason) == Names(SamplesFor(log, scope, reason))
  {
    if log != [] {
      var before, e := log[..|log| - 1], log[|log| - 1];
      NamesForAre(before, scope, reason);
      assert log == before + [e];
      SamplesMore(before, e, scope, reason);
      NamesJoin(SamplesFor(before, scope, reason), if IsFor(e, scope, reason) then e.samples else []);
    }
  }

  /** A group quotes the first twenty of the names its calls gave, trimmed, without the blank ones. */
  lemma QuotesFirstTwenty(log: seq<Event>, g: Group)
    requires g in Report(log)
    ensures var names := Map((s: Option<string>) => if s.Some? then Trim(s.value) else "",
                             Filter((s: Option<string>) => s.Some? && Trim(s.value) != "",
                                    SamplesFor(log, g.scope, g.reason)));
            g.samples == if |names| > 20 then names[..20] else names
  {
    ReportFacts(log);
    NamesForAre(log, g.scope, g.reason);
    NamesAre(SamplesFor(log, g.scope, g.reason));
  }

  // ---- The collector ----

  predicate Unsealed(k: int) {
    true
  }

  class SkipCollector {
    var groups: seq<Group>
    ghost var log: seq<Event>

    /** The groups are those of the calls so far; only a proof that says Unsealed gets to use it. */
    ghost predicate Valid()
      reads this
    {
      forall k {:trigger Unsealed(k)} :: Unsealed(k) ==> groups == Groups(log)
    }

    constructor ()
      ensures Valid() && log == []
    {
      groups, log := [], [];
    }

    method Add(scope: Scope, reason: Reason, sample: Option<string>)
      requires Valid()
      modifies this
      ensures Valid() && log == old(log) + [Event(scope, reason, 1, if sample.None? then [] else [sample])]
    {
      AddMany(scope, reason, 1, if sample.None? then [] else [sample]);
    }

    method AddMany(scope: Scope, reason: Reason, count: int, samples: seq<Option<string>>)
      requires Valid()
      modifies this
      ensures Valid() && log == old(log) + [Event(scope, reason, count, samples)]
    {
      assert Unsealed(0);
      GroupsStep(log, Event(scope, reason, count, samples));
      SamplesCapped(log);
      log := log + [Event(scope, reason, count, samples)];
      if count <= 0 {
        return;
      }
      groups := Counted(groups, scope, reason, count, samples);
    }

    /** The group a call finds or opens, with its count raised and its examples topped up. */
    static method Counted(groups: seq<Group>, scope: Scope, reason: Reason, count: int, samples: seq<Option<string>>)
      returns (r: seq<Group>)
      requires count > 0 && forall k | 0 <= k < |groups| :: |groups[k].samples| <= SKIP_SAMPLE_LIMIT
      ensures r == AddTo(groups, Event(scope, reason, count, samples))
    {
      var k := Position(groups, scope, reason);
      var group := if k < 0 then Group(scope, reason, 0, []) else groups[k];
      var quoted := Quote(group.samples, samples);
      AddedGroup(groups, Event(scope, reason, count, samples), quoted);
      group := group.(count := group.count + count, samples := quoted);
      r := if k < 0 then groups + [group] else groups[k := group];
    }

    /** Adds names until the cap is reached. */
    static method Quote(was: seq<string>, samples: seq<Option<string>>) returns (quoted: seq<string>)
      requires |was| <= SKIP_SAMPLE_LIMIT
      ensures quoted == Capped(was + Names(samples))
    {
      quoted := was;
      assert was + [] == was;
      var i := 0;
      while i < |samples|
        invariant i <= |samples| && quoted == Capped(was + Names(samples[..i]))
      {
        if |quoted| >= SKIP_SAMPLE_LIMIT {
          break;
        }
        PrefixMore(samples, i);
        var trimmed := if samples[i].Some? then Trim(samples[i].value) else "";
        if trimmed != "" {
          Append3(was, Names(samples[..i]), [trimmed]);
          quoted := quoted + [trimmed];
        }
        i := i + 1;
      }
      QuotedAll(was, samples, i, quoted);
    }

    /** The groups in report order; the collector is left as it was. */
    method ToReport() returns (r: seq<Group>)
      requires Valid()
      ensures r == Report(log)
    {
      assert Unsealed(0);
      r := Sort(InVocabularyOrder, groups);
    }
  }

  lemma GroupsStep(log: seq<Event>, e: Event)
    ensures Groups(log + [e]) == AddTo(Groups(log), e)
  {
    assert (log + [e])[..|log|] == log;
  }

  lemma SamplesCapped(log: seq<Event>)
    ensures forall k | 0 <= k < |Groups(log)| :: |Groups(log)[k].samples| <= SKIP_SAMPLE_LIMIT
  {
    GroupsTellTheTruth(log);
    assert forall k | 0 <= k < |Groups(log)| :: Groups(log)[k] in Groups(log);
  }

  lemma AddedGroup(groups: seq<Group>, e: Event, quoted: seq<string>)
    requires e.count > 0
    requires var k := Position(groups, e.scope, e.reason);
             quoted == Capped((if k < 0 then [] else groups[k].samples) + Names(e.samples))
    ensures var k := Position(groups, e.scope, e.reason);
            AddTo(groups, e) == if k < 0 then groups + [Group(e.scope, e.reason, e.count, quoted)]
                                else groups[k := groups[k].(count := groups[k].count + e.count, samples := quoted)]
  {
    assert [] + Names(e.samples) == Names(e.samples);
  }

  lemma {:induction false} NamesPrefix(samples: seq<Option<string>>, i: nat)
    requires i <= |samples|
    ensures Names(samples[..i]) <= Names(samples)
    decreases |samples|
  {
    if i < |samples| {
      NamesPrefix(samples[..|samples| - 1], i);
      assert samples[..|samples| - 1][..i] == samples[..i];
    } else {
      PrefixMore(samples, i);
    }
  }

  /** Stopping early loses no name that would have fitted. */
  lemma QuotedAll(was: seq<string>, samples: seq<Option<string>>, i: nat, quoted: seq<string>)
    requires i <= |samples| && quoted == Capped(was + Names(samples[..i]))
    requires i == |samples| || |quoted| >= SKIP_SAMPLE_LIMIT
    ensures quoted == Capped(was + Names(samples))
  {
    NamesPrefix(samples, i);
    PrefixMore(samples, |samples|);
    if i < |samples| {
      CappedFull(was, Names(samples[..i]), Names(samples));
    }
  }

  lemma CappedFull(a: seq<string>, b: seq<string>, c: seq<string>)
    requires b <= c && |Capped(a + b)| >= SKIP_SAMPLE_LIMIT
    ensures Capped(a + b) == Capped(a + c)
  {
  }
}
