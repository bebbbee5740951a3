/**
  Board filters and their query-string form (apps/web/lib/task-query.ts:29-137).

  Search params are a sequence of entries, as URLSearchParams keeps them. A list filter that is
  absent and one that is empty are the same to every function here, so both are the empty
  sequence.
*/
module TaskQuery {
  import opened Rows
  import opened Wrappers
  import opened Text

  /** A parameter name: one of the seven filter keys, or anything else. */
  datatype Key = Q | PriorityKey | AssigneeId | LabelId | DueDate | DueDateGte | DueDateLte | Other(name: string)

  type Entry = (Key, string)

  const PRIORITIES := {"LOW", "MEDIUM", "HIGH", "URGENT"}

  datatype Filters = Filters(
    q: Option<string>,
    priority: seq<string>,
    assigneeId: seq<string>,
    labelId: seq<string>,
    dueDateNull: bool,
    dueDateGte: Option<string>,
    dueDateLte: Option<string>)

  // ---- Search params ----

  function KeyOf(e: Entry): Key { e.0 }

  function ValueIn(e: Entry): string { e.1 }

  function Under(key: Key): Entry -> bool {
    (e: Entry) => e.0 == key
  }

  function NotUnder(key: Key): Entry -> bool {
    (e: Entry) => e.0 != key
  }

  predicate NonBlank(piece: string) {
    piece != ""
  }

  predicate KnownPriority(value: string) {
    value in PRIORITIES
  }

  function GetAll(entries: seq<Entry>, key: Key): seq<string> {
    Map(ValueIn, Filter(Under(key), entries))
  }

  function Get(entries: seq<Entry>, key: Key): Option<string> {
    var found := GetAll(entries, key);
    if found == [] then None else Some(found[0])
  }

  class SearchParams {
    var entries: seq<Entry>

    constructor (entries: seq<Entry>)
      ensures this.entries == entries
    {
      this.entries := entries;
    }

    method Append(key: Key, value: string)
      modifies this
      ensures entries == old(entries) + [(key, value)]
    {
      entries := entries + [(key, value)];
    }

    method Delete(key: Key)
      modifies this
      ensures entries == Filter(NotUnder(key), old(entries))
    {
      entries := Filter(NotUnder(key), entries);
    }

    /** `set` on a key that is not there appends; the source never sets a key twice. */
    method Set(key: Key, value: string)
      requires forall e | e in entries :: e.0 != key
      modifies this
      ensures entries == old(entries) + [(key, value)]
    {
      entries := entries + [(key, value)];
    }
  }

  // ---- Lists in one value ----

  function IndexOfComma(s: string): (i: nat)
    ensures i <= |s| && (i < |s| ==> s[i] == ',') && forall k | 0 <= k < i :: s[k] != ','
  {
    if s == [] || s[0] == ',' then 0 else 1 + IndexOfComma(s[1..])
  }

  function Split(s: string): (pieces: seq<string>)
    ensures pieces != [] && forall p | p in pieces :: ',' !in p
    decreases |s|
  {
    var i := IndexOfComma(s);
    assert ',' !in s[..i];
    if i == |s| then [s] else [s[..i]] + Split(s[i + 1..])
  }

  function Join(pieces: seq<string>): string {
    if pieces == [] then "" else if |pieces| == 1 then pieces[0] else pieces[0] + "," + Join(pieces[1..])
  }

  function Pieces(s: string): seq<string> {
    Filter(NonBlank, Map(Trim, Split(s)))
  }

  function CollectedList(entries: seq<Entry>, key: Key): seq<string> {
    Flatten(Map(Pieces, GetAll(entries, key)))
  }

  /** The non-blank comma-separated pieces of every value under a key, trimmed, in order. */
  method CollectList(params: SearchParams, key: Key) returns (values: seq<string>)
    ensures values == CollectedList(params.entries, key)
  {
    var fromAll := GetAll(params.entries, key);
    ghost var spec := Map(Pieces, fromAll);
    values := [];
    for i := 0 to |fromAll|
      invariant values == Flatten(spec[..i])
    {
      PrefixMore(spec, i);
      values := CollectPieces(fromAll[i], values);
    }
    PrefixMore(spec, |fromAll|);
  }

  method CollectPieces(raw: string, before: seq<string>) returns (values: seq<string>)
    ensures values == before + Pieces(raw)
  {
    var pieces := Split(raw);
    ghost var trimmed := Map(Trim, pieces);
    values := before;
    for j := 0 to |pieces|
      invariant values == before + Filter(NonBlank, trimmed[..j])
    {
      PrefixMore(trimmed, j);
      var piece := Trim(pieces[j]);
      Append3(before, Filter(NonBlank, trimmed[..j]), [piece]);
      if piece != "" {
        values := values + [piece];
      }
    }
    PrefixMore(trimmed, |pieces|);
  }

  // ---- The two directions ----

  function Truthy(s: Option<string>): Option<string> {
    if s == Some("") then None else s
  }

  function QueryText(q: Option<string>): Option<string> {
    if q.None? then None else Truthy(Some(Trim(q.value)))
  }

  function Parse(entries: seq<Entry>): Filters {
    Filters(
      QueryText(Get(entries, Q)),
      Filter(KnownPriority, CollectedList(entries, PriorityKey)),
      CollectedList(entries, AssigneeId),
      CollectedList(entries, LabelId),
      Get(entries, DueDate) == Some("null"),
      Truthy(Get(entries, DueDateGte)),
      Truthy(Get(entries, DueDateLte)))
  }

  /** The list filters, each set only when something is left of it. */
  method ParseLists(params: SearchParams, start: Filters) returns (filters: Filters)
    requires start.priority == [] && start.assigneeId == [] && start.labelId == []
    ensures filters == start.(priority := Filter(KnownPriority, CollectedList(params.entries, PriorityKey)),
                              assigneeId := CollectedList(params.entries, AssigneeId),
                              labelId := CollectedList(params.entries, LabelId))
  {
    filters := start;
    var priorities := CollectList(params, PriorityKey);
    priorities := Filter(KnownPriority, priorities);
    if |priorities| > 0 {
      filters := filters.(priority := priorities);
    }
    var assignees := CollectList(params, AssigneeId);
    if |assignees| > 0 {
      filters := filters.(assigneeId := assignees);
    }
    var labels := CollectList(params, LabelId);
    if |labels| > 0 {
      filters := filters.(labelId := labels);
    }
  }

  method ReadText(params: SearchParams, key: Key) returns (value: Option<string>)
    ensures value == Truthy(Get(params.entries, key))
  {
    value := Get(params.entries, key);
    if value.Some? && value.value == "" {
      value := None;
    }
  }

  method ReadQuery(params: SearchParams) returns (value: Option<string>)
    ensures value == QueryText(Get(params.entries, Q))
  {
    value := Get(params.entries, Q);
    if value.Some? {
      value := if Trim(value.value) == "" then None else Some(Trim(value.value));
    }
  }

  method ParseFiltersFromSearchParams(params: SearchParams) returns (filters: Filters)
    ensures filters == Parse(params.entries)
  {
    filters := Filters(None, [], [], [], false, None, None);
    var q := ReadQuery(params);
    if q.Some? {
      filters := filters.(q := q);
    }
    filters := ParseLists(params, filters);
    if Get(params.entries, DueDate) == Some("null") {
      filters := filters.(dueDateNull := true);
    }
    var gte := ReadText(params, DueDateGte);
    if gte.Some? {
      filters := filters.(dueDateGte := gte);
    }
    var lte := ReadText(params, DueDateLte);
    if lte.Some? {
      filters := filters.(dueDateLte := lte);
    }
  }

  function One(key: Key, value: Option<string>): seq<Entry> {
    if value.None? then [] else [(key, value.value)]
  }

  function Listed(values: seq<string>): Option<string> {
    if values == [] then None else Some(Join(values))
  }

  /** The value a filter state gives a key, if any. */
  function ValueOf(f: Filters, key: Key): Option<string> {
    match key
    case Q => QueryText(f.q)
    case PriorityKey => Listed(f.priority)
    case AssigneeId => Listed(f.assigneeId)
    case LabelId => Listed(f.labelId)
    case DueDate => if f.dueDateNull then Some("null") else None
    case DueDateGte => Truthy(f.dueDateGte)
    case DueDateLte => Truthy(f.dueDateLte)
    case Other(_) => None
  }

  function Rank(key: Key): nat {
    match key
    case Q => 0
    case PriorityKey => 1
    case AssigneeId => 2
    case LabelId => 3
    case DueDate => 4
    case DueDateGte => 5
    case DueDateLte => 6
    case Other(_) => 7
  }

  function KeyAt(i: nat): (key: Key)
    requires i < 7
    ensures Rank(key) == i
  {
    if i == 0 then Q else if i == 1 then PriorityKey else if i == 2 then AssigneeId else if i == 3 then LabelId
    else if i == 4 then DueDate else if i == 5 then DueDateGte else DueDateLte
  }

  function Values(f: Filters): Key -> Option<string> {
    (key: Key) => ValueOf(f, key)
  }

  /** The entries of the first keys, for any values. */
  function EntriesFirst(values: Key -> Option<string>, n: nat): seq<Entry>
    requires n <= 7
  {
    if n == 0 then [] else EntriesFirst(values, n - 1) + One(KeyAt(n - 1), values(KeyAt(n - 1)))
  }

  /** One entry for each filter that is set, in the order of the keys. */
  function Serialize(f: Filters): seq<Entry> {
    EntriesFirst(Values(f), 7)
  }

  method SerializeFiltersToSearchParams(filters: Filters) returns (params: SearchParams)
    ensures fresh(params) && params.entries == Serialize(filters)
  {
    params := new SearchParams([]);
    SetFilter(params, filters, Q);
    SetFilter(params, filters, PriorityKey);
    SetFilter(params, filters, AssigneeId);
    SetFilter(params, filters, LabelId);
    SetFilter(params, filters, DueDate);
    SetFilter(params, filters, DueDateGte);
    SetFilter(params, filters, DueDateLte);
  }

  /** Sets one key, when the state has a value for it. */
  method SetFilter(params: SearchParams, filters: Filters, key: Key)
    requires !key.Other? && params.entries == EntriesFirst(Values(filters), Rank(key))
    modifies params
    ensures params.entries == EntriesFirst(Values(filters), Rank(key) + 1)
  {
    NotSetYet(Values(filters), Rank(key), key);
    var value := ValueOf(filters, key);
    if value.Some? {
      params.Set(key, value.value);
    }
  }

  lemma {:induction false} NotSetYet(values: Key -> Option<string>, n: nat, key: Key)
    requires n <= 7 && n <= Rank(key)
    ensures forall e | e in EntriesFirst(values, n) :: e.0 != key
  {
    if n > 0 {
      NotSetYet(values, n - 1, key);
    }
  }

  lemma NoneUnder(values: Key -> Option<string>, n: nat, key: Key)
    requires n <= 7 && n <= Rank(key)
    ensures Filter(Under(key), EntriesFirst(values, n)) == []
  {
    NotSetYet(values, n, key);
    FilterNone(Under(key), EntriesFirst(values, n));
  }

  lemma {:induction false} OnceUnder(values: Key -> Option<string>, n: nat, key: Key)
    requires Rank(key) < n <= 7
    ensures Filter(Under(key), EntriesFirst(values, n)) == One(key, values(key))
  {
    var k := KeyAt(n - 1);
    if Rank(key) == n - 1 {
      RankIsInjective(k, key);
      NoneUnder(values, n - 1, key);
    } else {
      OnceUnder(values, n - 1, key);
    }
    MoreUnder(EntriesFirst(values, n - 1), k, values(k), key);
  }

  lemma MoreUnder(entries: seq<Entry>, k: Key, v: Option<string>, key: Key)
    ensures k != key ==> Filter(Under(key), entries + One(k, v)) == Filter(Under(key), entries)
    ensures k == key && Filter(Under(key), entries) == [] ==> Filter(Under(key), entries + One(k, v)) == One(k, v)
  {
    FilterAppend(Under(key), entries, One(k, v));
    OneUnder(k, v, key);
  }

  lemma RankIsInjective(a: Key, b: Key)
    requires Rank(a) == Rank(b) < 7
    ensures a == b
  {
  }

  lemma OneUnder(k: Key, v: Option<string>, key: Key)
    ensures Filter(Under(key), One(k, v)) == if k == key then One(k, v) else []
  {
    if v.Some? {
      FilterOne(Under(key), (k, v.value));
    }
  }

  predicate HasActiveFilters(f: Filters) {
    QueryText(f.q).Some? || |f.priority| > 0 || |f.assigneeId| > 0 || |f.labelId| > 0
    || f.dueDateNull || Truthy(f.dueDateGte).Some? || Truthy(f.dueDateLte).Some?
  }

  predicate Unrelated(e: Entry) {
    e.0.Other?
  }

  /** What is left once the keys in a list have been deleted, unless they are unrelated. */
  function Spared(keys: seq<Key>): Entry -> bool {
    (e: Entry) => Unrelated(e) || e.0 !in keys
  }

  ghost function Left(start: seq<Entry>, keys: seq<Key>): seq<Entry> {
    Filter(Spared(keys), start)
  }

  lemma LeftStep(start: seq<Entry>, keys: seq<Key>, key: Key)
    ensures Left(start, keys + [key])
            == if !key.Other? then Filter(NotUnder(key), Left(start, keys)) else Left(start, keys)
  {
    var before, after := Spared(keys), Spared(keys + [key]);
    if !key.Other? {
      FilterTwice(before, NotUnder(key), after, start);
    } else {
      FilterAgree(after, before, start);
    }
  }

  lemma LeftAtEnds(start: seq<Entry>)
    ensures Left(start, []) == start
    ensures Left(start, Map(KeyOf, start)) == Filter(Unrelated, start)
  {
    var keys := Map(KeyOf, start);
    FilterAll(Spared([]), start);
    forall e | e in start ensures e.0 in keys {
      var k :| 0 <= k < |start| && start[k] == e;
      assert keys[k] == e.0;
    }
    FilterAgree(Spared(keys), Unrelated, start);
  }

  /** Deletes every key that is not unrelated. */
  method DropFilters(params: SearchParams)
    modifies params
    ensures params.entries == Filter(Unrelated, old(params.entries))
  {
    ghost var start := params.entries;
    var keys := Map(KeyOf, params.entries);
    LeftAtEnds(start);
    for i := 0 to |keys|
      invariant params.entries == Left(start, keys[..i])
    {
      LeftStep(start, keys[..i], keys[i]);
      PrefixMore(keys, i);
      if !keys[i].Other? {
        params.Delete(keys[i]);
      }
    }
    PrefixMore(keys, |keys|);
  }

  method AppendAll(params: SearchParams, more: seq<Entry>)
    modifies params
    ensures params.entries == old(params.entries) + more
  {
    ghost var start := params.entries;
    assert start + [] == start;
    for i := 0 to |more|
      invariant params.entries == start + more[..i]
    {
      PrefixMore(more, i);
      Append3(start, more[..i], [more[i]]);
      params.Append(more[i].0, more[i].1);
    }
    PrefixMore(more, |more|);
  }

  /** The unrelated entries stay, in order, and the filter's own entries follow them. */
  method MergeFiltersIntoSearchParams(current: SearchParams, filters: Filters) returns (next: SearchParams)
    ensures fresh(next) && next.entries == Merged(current.entries, filters)
  {
    next := new SearchParams(current.entries);
    DropFilters(next);
    var encoded := SerializeFiltersToSearchParams(filters);
    AppendAll(next, encoded.entries);
  }

  function Merged(current: seq<Entry>, f: Filters): seq<Entry> {
    Filter(Unrelated, current) + Serialize(f)
  }

  // ---- Normal form ----

  predicate CleanList(values: seq<string>) {
    forall v | v in values :: v != "" && IsTrimmed(v) && ',' !in v
  }

  /** The filter states a query string can carry. */
  predicate Canonical(f: Filters) {
    && (f.q.Some? ==> f.q.value != "" && IsTrimmed(f.q.value))
    && CleanList(f.priority) && CleanList(f.assigneeId) && CleanList(f.labelId)
    && (forall p | p in f.priority :: p in PRIORITIES)
    && f.dueDateGte != Some("") && f.dueDateLte != Some("")
  }

  lemma {:induction false} SplitJoin(values: seq<string>)
    requires values != [] && forall v | v in values :: ',' !in v
    ensures Split(Join(values)) == values
  {
    var s := Join(values);
    if |values| == 1 {
      assert values == [values[0]] && values[0] in values;
      assert IndexOfComma(s) == |s|;
    } else {
      SplitJoin(values[1..]);
      assert values[0] in values;
      FirstPiece(values[0], Join(values[1..]));
      assert values == [values[0]] + values[1..];
    }
  }

  lemma FirstPiece(head: string, rest: string)
    requires ',' !in head
    ensures Split(head + "," + rest) == [head] + Split(rest)
  {
    var s := head + "," + rest;
    assert s[|head|] == ',';
    assert forall k | 0 <= k < |head| :: s[k] == head[k];
    assert IndexOfComma(s) == |head|;
    assert s[..|head|] == head && s[|head| + 1..] == rest;
  }

  lemma PiecesAreClean(s: string)
    ensures CleanList(Pieces(s))
  {
    var trimmed := Map(Trim, Split(s));
    FilterIn(NonBlank, trimmed);
    forall v | v in Pieces(s) ensures v != "" && IsTrimmed(v) && ',' !in v {
      var i :| 0 <= i < |trimmed| && trimmed[i] == v;
      TrimIsTrimmed(Split(s)[i]);
      assert Split(s)[i] in Split(s);
    }
  }

  lemma {:induction false} CollectedIsClean(found: seq<string>)
    ensures CleanList(Flatten(Map(Pieces, found)))
  {
    if found != [] {
      var t := found[..|found| - 1];
      assert Map(Pieces, found)[..|found| - 1] == Map(Pieces, t);
      CollectedIsClean(t);
      PiecesAreClean(found[|found| - 1]);
    }
  }

  /** Every parsed state is canonical. */
  lemma ParseIsCanonical(entries: seq<Entry>)
    ensures Canonical(Parse(entries))
  {
    CollectedIsClean(GetAll(entries, PriorityKey));
    CollectedIsClean(GetAll(entries, AssigneeId));
    CollectedIsClean(GetAll(entries, LabelId));
    FilterIn(KnownPriority, CollectedList(entries, PriorityKey));
    if Get(entries, Q).Some? {
      TrimIsTrimmed(Get(entries, Q).value);
    }
  }

  lemma PiecesOfCleanList(values: seq<string>)
    requires values != [] && CleanList(values)
    ensures Pieces(Join(values)) == values
  {
    SplitJoin(values);
    forall i | 0 <= i < |values| ensures Trim(values[i]) == values[i] {
      assert values[i] in values;
      TrimIsTrimmed(values[i]);
    }
    assert Map(Trim, values) == values;
    FilterAll(NonBlank, values);
  }

  lemma UnrelatedBefore(before: seq<Entry>, more: seq<Entry>, key: Key)
    requires !key.Other? && forall e | e in before :: Unrelated(e)
    ensures Filter(Under(key), before + more) == Filter(Under(key), more)
  {
    FilterNone(Under(key), before);
    FilterAppend(Under(key), before, more);
  }

  /** Looking a key up among unrelated entries and a serialized state. */
  lemma GetSerialized(before: seq<Entry>, f: Filters, key: Key)
    requires !key.Other? && forall e | e in before :: Unrelated(e)
    ensures GetAll(before + Serialize(f), key) == if ValueOf(f, key).None? then [] else [ValueOf(f, key).value]
  {
    UnrelatedBefore(before, Serialize(f), key);
    OnceUnder(Values(f), 7, key);
  }

  lemma GetUnder(before: seq<Entry>, f: Filters, key: Key)
    requires !key.Other? && forall e | e in before :: Unrelated(e)
    ensures Get(before + Serialize(f), key) == ValueOf(f, key)
  {
    GetSerialized(before, f, key);
  }

  lemma ValueUnder(before: seq<Entry>, f: Filters, key: Key)
    requires !key.Other? && forall e | e in before :: Unrelated(e)
    ensures CollectedList(before + Serialize(f), key)
            == if ValueOf(f, key).None? then [] else Pieces(ValueOf(f, key).value)
  {
    GetSerialized(before, f, key);
    var found := GetAll(before + Serialize(f), key);
    var each := Map(Pieces, found);
    if found != [] {
      assert each == [Pieces(found[0])] && each[..0] == [];
      assert Flatten(each) == [] + Pieces(found[0]);
    }
  }

  /** What the parser makes of a state that went through the query string. */
  ghost function Reread(f: Filters): Filters {
    Filters(QueryText(QueryText(f.q)), Filter(KnownPriority, RereadList(f.priority)), RereadList(f.assigneeId),
            RereadList(f.labelId), f.dueDateNull, Truthy(f.dueDateGte), Truthy(f.dueDateLte))
  }

  ghost function RereadList(values: seq<string>): seq<string> {
    if values == [] then [] else Pieces(Join(values))
  }

  /** Parsing what was serialized, whatever unrelated entries stand before it. */
  lemma ParseSerialized(before: seq<Entry>, f: Filters)
    requires forall e | e in before :: Unrelated(e)
    ensures Parse(before + Serialize(f)) == Reread(f)
  {
    SingleValues(before, f, before + Serialize(f));
    ListValues(before, f, before + Serialize(f));
  }

  lemma SingleValue(before: seq<Entry>, f: Filters, entries: seq<Entry>, key: Key, value: Option<string>)
    requires entries == before + Serialize(f) && forall e | e in before :: Unrelated(e)
    requires !key.Other? && ValueOf(f, key) == value
    ensures Get(entries, key) == value
  {
    GetUnder(before, f, key);
  }

  lemma SingleValues(before: seq<Entry>, f: Filters, entries: seq<Entry>)
    requires entries == before + Serialize(f) && forall e | e in before :: Unrelated(e)
    ensures Get(entries, Q) == QueryText(f.q) && Get(entries, DueDate) == ValueOf(f, DueDate)
    ensures Get(entries, DueDateGte) == Truthy(f.dueDateGte) && Get(entries, DueDateLte) == Truthy(f.dueDateLte)
  {
    SingleValue(before, f, entries, Q, QueryText(f.q));
    SingleValue(before, f, entries, DueDate, ValueOf(f, DueDate));
    SingleValue(before, f, entries, DueDateGte, Truthy(f.dueDateGte));
    SingleValue(before, f, entries, DueDateLte, Truthy(f.dueDateLte));
  }

  lemma ListValue(before: seq<Entry>, f: Filters, entries: seq<Entry>, key: Key, values: seq<string>)
    requires entries == before + Serialize(f) && forall e | e in before :: Unrelated(e)
    requires !key.Other? && ValueOf(f, key) == Listed(values)
    ensures CollectedList(entries, key) == RereadList(values)
  {
    ValueUnder(before, f, key);
  }

  lemma ListValues(before: seq<Entry>, f: Filters, entries: seq<Entry>)
    requires entries == before + Serialize(f) && forall e | e in before :: Unrelated(e)
    ensures CollectedList(entries, PriorityKey) == RereadList(f.priority)
    ensures CollectedList(entries, AssigneeId) == RereadList(f.assigneeId)
    ensures CollectedList(entries, LabelId) == RereadList(f.labelId)
  {
    ListValue(before, f, entries, PriorityKey, f.priority);
    ListValue(before, f, entries, AssigneeId, f.assigneeId);
    ListValue(before, f, entries, LabelId, f.labelId);
  }

  lemma RereadListIff(values: seq<string>)
    ensures RereadList(values) == values <==> CleanList(values)
  {
    if values != [] {
      PiecesAreClean(Join(values));
      if CleanList(values) {
        PiecesOfCleanList(values);
      }
    }
  }

  lemma RereadPriorities(values: seq<string>)
    ensures Filter(KnownPriority, RereadList(values)) == values
            <==> CleanList(values) && forall p | p in values :: p in PRIORITIES
  {
    var again := RereadList(values);
    RereadListIff(values);
    FilterIn(KnownPriority, again);
    if values != [] {
      PiecesAreClean(Join(values));
    }
    if CleanList(values) && forall p | p in values :: p in PRIORITIES {
      FilterAll(KnownPriority, again);
    }
  }

  lemma RereadQuery(q: Option<string>)
    ensures QueryText(QueryText(q)) == q <==> (q.Some? ==> q.value != "" && IsTrimmed(q.value))
  {
    if q.Some? {
      TrimIsTrimmed(q.value);
      TrimIsTrimmed(Trim(q.value));
    }
  }

  /** A state survives the query string exactly when it is canonical. */
  lemma RoundTripIff(f: Filters)
    ensures Parse(Serialize(f)) == f <==> Canonical(f)
  {
    assert [] + Serialize(f) == Serialize(f);
    ParseSerialized([], f);
    RereadQuery(f.q);
    RereadPriorities(f.priority);
    RereadListIff(f.assigneeId);
    RereadListIff(f.labelId);
  }

  /** Query strings have a normal form: parsing reaches it in one step. */
  lemma NormalForm(entries: seq<Entry>)
    ensures Parse(Serialize(Parse(entries))) == Parse(entries)
  {
    ParseIsCanonical(entries);
    RoundTripIff(Parse(entries));
  }

  // ---- What is read, entry by entry ----

  lemma {:induction false} FlattenAppend<T>(a: seq<seq<T>>, b: seq<seq<T>>)
    ensures Flatten(a + b) == Flatten(a) + Flatten(b)
  {
    if b == [] {
      NothingBehind(a);
      NothingBehind(Flatten(a));
    } else {
      FlattenAppend(a, b[..|b| - 1]);
      AppendLast(a, b);
      Append3(Flatten(a), Flatten(b[..|b| - 1]), b[|b| - 1]);
    }
  }

  lemma GetAllAppend(a: seq<Entry>, b: seq<Entry>, key: Key)
    ensures GetAll(a + b, key) == GetAll(a, key) + GetAll(b, key)
  {
    FilterAppend(Under(key), a, b);
    MapAppend(ValueIn, Filter(Under(key), a), Filter(Under(key), b));
  }

  /** Every entry counts, in order: nothing is lost when a key stands several times. */
  lemma CollectedAppend(a: seq<Entry>, b: seq<Entry>, key: Key)
    ensures CollectedList(a + b, key) == CollectedList(a, key) + CollectedList(b, key)
  {
    GetAllAppend(a, b, key);
    MapAppend(Pieces, GetAll(a, key), GetAll(b, key));
    FlattenAppend(Map(Pieces, GetAll(a, key)), Map(Pieces, GetAll(b, key)));
  }

  lemma FlattenOne<T>(x: seq<T>)
    ensures Flatten([x]) == x
  {
    assert [x][..0] == [];
  }

  lemma CollectedValue(key: Key, value: string)
    ensures CollectedList([(key, value)], key) == Pieces(value)
  {
    FilterOne(Under(key), (key, value));
    assert Map(Pieces, GetAll([(key, value)], key)) == [Pieces(value)];
    FlattenOne(Pieces(value));
  }

  lemma SplitPlain(piece: string)
    requires ',' !in piece
    ensures Split(piece) == [piece]
  {
    assert IndexOfComma(piece) == |piece|;
  }

  lemma PiecesPlain(piece: string)
    requires ',' !in piece
    ensures Pieces(piece) == if Trim(piece) == "" then [] else [Trim(piece)]
  {
    SplitPlain(piece);
    FilterOne(NonBlank, Trim(piece));
    assert Map(Trim, [piece]) == [Trim(piece)];
  }

  lemma PiecesBehind(piece: string, rest: string)
    requires ',' !in piece
    ensures Pieces(piece + "," + rest) == Pieces(piece) + Pieces(rest)
  {
    FirstPiece(piece, rest);
    SplitPlain(piece);
    MapAppend(Trim, [piece], Split(rest));
    FilterAppend(NonBlank, Map(Trim, [piece]), Map(Trim, Split(rest)));
  }

  /**
    What one entry adds: nothing under another key; a value without a comma its trimmed text unless
    that is blank; a value with one what its two sides add, left before right.
  */
  lemma CollectedFromOne(key: Key, other: Key, piece: string, rest: string)
    requires ',' !in piece && other != key
    ensures CollectedList([], key) == [] && CollectedList([(other, rest)], key) == []
    ensures CollectedList([(key, piece)], key) == if Trim(piece) == "" then [] else [Trim(piece)]
    ensures CollectedList([(key, piece + "," + rest)], key)
            == CollectedList([(key, piece)], key) + CollectedList([(key, rest)], key)
  {
    FilterOne(Under(key), (other, rest));
    CollectedValue(key, piece);
    CollectedValue(key, rest);
    CollectedValue(key, piece + "," + rest);
    PiecesPlain(piece);
    PiecesBehind(piece, rest);
  }

  /** A text filter is the first value of its key, if there is any. */
  lemma FirstValue(before: seq<Entry>, key: Key, value: string, behind: seq<Entry>)
    requires forall e | e in before :: e.0 != key
    ensures Get(before + [(key, value)] + behind, key) == Some(value) && Get(before, key) == None
  {
    var e := (key, value);
    GetAllAppend(before + [e], behind, key);
    GetAllAppend(before, [e], key);
    FilterNone(Under(key), before);
    FilterOne(Under(key), e);
    assert GetAll(before, key) == [] && GetAll([e], key) == [value];
  }

  lemma KnownIff(value: string)
    ensures KnownPriority(value) <==> value == "LOW" || value == "MEDIUM" || value == "HIGH" || value == "URGENT"
  {
  }

  /** Of the collected priorities exactly the four known ones are kept. */
  lemma PrioritiesKept(entries: seq<Entry>, known: string -> bool)
    requires forall v :: known(v) <==> v == "LOW" || v == "MEDIUM" || v == "HIGH" || v == "URGENT"
    ensures Parse(entries).priority == Filter(known, CollectedList(entries, PriorityKey))
  {
    var values := CollectedList(entries, PriorityKey);
    forall v | v in values ensures KnownPriority(v) == known(v) { KnownIff(v); }
    FilterAgree(KnownPriority, known, values);
  }

  /** The query is the first value under its key without the space around it, unless that leaves nothing. */
  lemma QueryRead(before: seq<Entry>, value: string, behind: seq<Entry>)
    requires forall e | e in before :: e.0 != Q
    ensures Parse(before).q == None
    ensures Parse(before + [(Q, value)] + behind).q == if Trim(value) == "" then None else Some(Trim(value))
  {
    FirstValue(before, Q, value, behind);
  }

  /** The due-date flag is set exactly by a first value that reads `null`. */
  lemma DueDateRead(before: seq<Entry>, value: string, behind: seq<Entry>)
    requires forall e | e in before :: e.0 != DueDate
    ensures !Parse(before).dueDateNull
    ensures Parse(before + [(DueDate, value)] + behind).dueDateNull <==> value == "null"
  {
    FirstValue(before, DueDate, value, behind);
  }

  /** The bounds are the first values under their keys, unless those are empty. */
  lemma BoundsRead(before: seq<Entry>, value: string, behind: seq<Entry>)
    requires forall e | e in before :: e.0 != DueDateGte && e.0 != DueDateLte
    ensures Parse(before).dueDateGte == None && Parse(before).dueDateLte == None
    ensures Parse(before + [(DueDateGte, value)] + behind).dueDateGte == if value == "" then None else Some(value)
    ensures Parse(before + [(DueDateLte, value)] + behind).dueDateLte == if value == "" then None else Some(value)
  {
    FirstValue(before, DueDateGte, value, behind);
    FirstValue(before, DueDateLte, value, behind);
  }

  lemma {:induction false} SerializedKeys(values: Key -> Option<string>, n: nat)
    requires n <= 7
    ensures forall e | e in EntriesFirst(values, n) :: !Unrelated(e)
  {
    if n > 0 {
      SerializedKeys(values, n - 1);
    }
  }

  /**
    Merging keeps the unrelated entries in order, replaces any earlier filter, and shows the
    parser the new filter only.
  */
  lemma MergeFacts(current: seq<Entry>, f: Filters, g: Filters)
    ensures Filter(Unrelated, Merged(current, f)) == Filter(Unrelated, current)
    ensures Merged(Merged(current, f), g) == Merged(current, g)
    ensures Merged(Merged(current, f), f) == Merged(current, f)
    ensures Parse(Merged(current, f)) == Parse(Serialize(f))
  {
    var p := Unrelated;
    var kept := Filter(p, current);
    FilterIn(p, current);
    FilterAll(p, kept);
    SerializedKeys(Values(f), 7);
    FilterNone(p, Serialize(f));
    FilterAppend(p, kept, Serialize(f));
    ParseSerialized(kept, f);
    ParseSerialized([], f);
    assert [] + Serialize(f) == Serialize(f);
  }

  lemma {:induction false} EmptyIffUnset(values: Key -> Option<string>, n: nat)
    requires n <= 7
    ensures EntriesFirst(values, n) == [] <==> forall i: nat | i < n :: values(KeyAt(i)).None?
  {
    if n > 0 {
      EmptyIffUnset(values, n - 1);
    }
  }

  /** A filter is active exactly when it leaves a trace in the query string. */
  lemma ActiveIffSerialized(f: Filters)
    ensures HasActiveFilters(f) <==> Serialize(f) != []
    ensures CountActiveFilters(f) > 0 <==> HasActiveFilters(f)
  {
    EmptyIffUnset(Values(f), 7);
    assert KeyAt(0) == Q && KeyAt(1) == PriorityKey && KeyAt(2) == AssigneeId && KeyAt(3) == LabelId
           && KeyAt(4) == DueDate && KeyAt(5) == DueDateGte && KeyAt(6) == DueDateLte;
  }

  function CountActiveFilters(f: Filters): nat {
    (if QueryText(f.q).Some? then 1 else 0) + |f.priority| + |f.assigneeId| + |f.labelId|
    + (if f.dueDateNull then 1 else 0)
    + (if Truthy(f.dueDateGte).Some? || Truthy(f.dueDateLte).Some? then 1 else 0)
  }
}
