/**
  The tolerant reader of a Trello export (apps/api/src/import/trello-export.ts): what it cannot
  read becomes an issue, and reading goes on. Parsing the bytes is not modelled; a number JSON can
  spell but a double cannot hold arrives as a number without a value.
*/
module TrelloExport {
  import opened ImportSkip
  import opened Rows
  import opened Wrappers

  /** The field names the reader looks for; all others are ignored. */
  datatype Key =
    | IdKey | NameKey | DescKey | ClosedKey | PosKey | IdListKey | DueKey | IdLabelsKey | IdMembersKey
    | AttachmentsKey | UrlKey | ColorKey | IdCardKey | CheckItemsKey | StateKey | TypeKey
    | ListsKey | CardsKey | LabelsKey | ChecklistsKey | ActionsKey | MembersKey

  datatype Json =
    | Undefined
    | Null
    | Bool(truth: bool)
    | Number(value: Option<real>)
    | Text(text: string)
    | Array(items: seq<Json>)
    | Object(fields: map<Key, Json>)

  datatype TrelloList = TrelloList(id: string, name: string, pos: Option<real>, closed: bool)

  datatype TrelloAttachment = TrelloAttachment(id: string, name: string, url: string)

  datatype TrelloCard = TrelloCard(
    id: string, name: string, desc: Option<string>, idList: Option<string>, pos: Option<real>, closed: bool,
    due: Option<string>, idLabels: seq<string>, idMembers: seq<string>, attachments: seq<TrelloAttachment>)

  datatype TrelloLabel = TrelloLabel(id: string, name: string, color: Option<string>)

  datatype TrelloCheckItem = TrelloCheckItem(id: string, name: string, state: Option<string>, pos: Option<real>)

  datatype TrelloChecklist = TrelloChecklist(
    id: string, idCard: Option<string>, name: string, pos: Option<real>, checkItems: seq<TrelloCheckItem>)

  datatype Source = Source(
    name: string, desc: Option<string>, lists: seq<TrelloList>, cards: seq<TrelloCard>, labels: seq<TrelloLabel>,
    checklists: seq<TrelloChecklist>, commentCount: nat, memberCount: nat)

  datatype Issue = Issue(scope: Scope, reason: Reason, sample: Option<string>)

  datatype ReadResult = ReadResult(source: Source, issues: seq<Issue>)

  datatype Error = NotJson | NotABoard

  // ---- One field ----

  function Field(entry: Json, key: Key): Json
    requires entry.Object?
  {
    if key in entry.fields then entry.fields[key] else Undefined
  }

  predicate Missing(v: Json) {
    v.Undefined? || v.Null?
  }

  function TextOr(v: Json, fallback: string): string {
    if v.Text? then v.text else fallback
  }

  function NullableText(v: Json): Option<string> {
    if v.Text? then Some(v.text) else None
  }

  predicate IsText(v: Json) {
    v.Text?
  }

  function TextOf(v: Json): string {
    TextOr(v, "")
  }

  function Texts(v: Json): seq<string> {
    if v.Array? then Map(TextOf, Filter(IsText, v.items)) else []
  }

  function ItemsOf(v: Json): seq<Json> {
    if v.Array? then v.items else []
  }

  function ReadPos(v: Json): Option<real> {
    if v.Number? then v.value else None
  }

  function ReadId(v: Json): Option<string> {
    if v.Text? && v.text != "" then Some(v.text) else None
  }

  /** Present, but of another type: the entry is reported once, however many fields are. */
  predicate BadText(v: Json) { !Missing(v) && !v.Text? }

  predicate BadBool(v: Json) { !Missing(v) && !v.Bool? }

  predicate BadArray(v: Json) { !Missing(v) && !v.Array? }

  predicate BadTexts(v: Json) { BadArray(v) || exists x | x in ItemsOf(v) :: !x.Text? }

  class EntryFields {
    var unusable: bool

    constructor ()
      ensures !unusable
    {
      unusable := false;
    }

    method String(value: Json, fallback: string) returns (r: string)
      modifies this
      ensures r == TextOr(value, fallback) && unusable == (old(unusable) || BadText(value))
    {
      if value.Text? { return value.text; }
      if !Missing(value) { unusable := true; }
      return fallback;
    }

    method NullableString(value: Json) returns (r: Option<string>)
      modifies this
      ensures r == NullableText(value) && unusable == (old(unusable) || BadText(value))
    {
      if value.Text? { return Some(value.text); }
      if !Missing(value) { unusable := true; }
      return None;
    }

    method Boolean(value: Json) returns (r: bool)
      modifies this
      ensures r == (value.Bool? && value.truth) && unusable == (old(unusable) || BadBool(value))
    {
      if value.Bool? { return value.truth; }
      if !Missing(value) { unusable := true; }
      return false;
    }

    method StringArray(value: Json) returns (r: seq<string>)
      modifies this
      ensures r == Texts(value) && unusable == (old(unusable) || BadTexts(value))
    {
      if Missing(value) { return []; }
      if !value.Array? {
        unusable := true;
        return [];
      }
      var strings := Filter(IsText, value.items);
      AllTexts(value.items);
      if |strings| != |value.items| { unusable := true; }
      return Map(TextOf, strings);
    }

    method Elements(value: Json) returns (r: seq<Json>)
      modifies this
      ensures r == ItemsOf(value) && unusable == (old(unusable) || BadArray(value))
    {
      if Missing(value) { return []; }
      if !value.Array? {
        unusable := true;
        return [];
      }
      return value.items;
    }
  }

  lemma AllTexts(items: seq<Json>)
    ensures |Filter(IsText, items)| != |items| <==> exists x :: x in items && !x.Text?
  {
    var q := (v: Json) => !IsText(v);
    FilterSplit(IsText, q, items);
    FilterNone(q, items);
  }

  // ---- One entry ----

  function ListOf(e: Json): Option<TrelloList> {
    if !e.Object? || ReadId(Field(e, IdKey)).None? || BadText(Field(e, NameKey)) || BadBool(Field(e, ClosedKey))
        then None
    else
      var closed := Field(e, ClosedKey);
      Some(TrelloList(ReadId(Field(e, IdKey)).value, TextOr(Field(e, NameKey), ""), ReadPos(Field(e, PosKey)),
                      closed.Bool? && closed.truth))
  }

  function AttachmentOf(e: Json): Option<TrelloAttachment> {
    if !e.Object? || ReadId(Field(e, UrlKey)).None? || BadText(Field(e, IdKey)) || BadText(Field(e, NameKey)) then None
    else
      var url := ReadId(Field(e, UrlKey)).value;
      Some(TrelloAttachment(TextOr(Field(e, IdKey), ""), TextOr(Field(e, NameKey), url), url))
  }

  function LabelOf(e: Json): Option<TrelloLabel> {
    if !e.Object? || ReadId(Field(e, IdKey)).None? || BadText(Field(e, NameKey)) || BadText(Field(e, ColorKey))
        then None
    else Some(TrelloLabel(ReadId(Field(e, IdKey)).value, TextOr(Field(e, NameKey), ""),
                          NullableText(Field(e, ColorKey))))
  }

  function CheckItemOf(e: Json): Option<TrelloCheckItem> {
    if !e.Object? || ReadId(Field(e, IdKey)).None? || BadText(Field(e, NameKey)) || BadText(Field(e, StateKey))
        then None
    else Some(TrelloCheckItem(ReadId(Field(e, IdKey)).value, TextOr(Field(e, NameKey), ""),
                              NullableText(Field(e, StateKey)),
                              ReadPos(Field(e, PosKey))))
  }

  /** The entries a reader could read, in order. */
  function Readable<T>(read: Json -> Option<T>, items: seq<Json>): seq<T> {
    if items == [] then []
    else
      var r := read(items[|items| - 1]);
      Readable(read, items[..|items| - 1]) + if r.Some? then [r.value] else []
  }

  predicate CardFieldsBad(e: Json)
    requires e.Object?
  {
    || BadArray(Field(e, AttachmentsKey)) || BadText(Field(e, NameKey)) || BadText(Field(e, DescKey))
    || BadText(Field(e, IdListKey)) || BadBool(Field(e, ClosedKey)) || BadText(Field(e, DueKey))
    || BadTexts(Field(e, IdLabelsKey)) || BadTexts(Field(e, IdMembersKey))
  }

  /** A card is read only whole: one unreadable attachment makes it unreadable. */
  function CardOf(e: Json): Option<TrelloCard> {
    if !e.Object? || ReadId(Field(e, IdKey)).None? || CardFieldsBad(e) then None
    else if exists x | x in ItemsOf(Field(e, AttachmentsKey)) :: AttachmentOf(x).None? then None
    else
      var closed := Field(e, ClosedKey);
      Some(TrelloCard(ReadId(Field(e, IdKey)).value, TextOr(Field(e, NameKey), ""), NullableText(Field(e, DescKey)),
                      NullableText(Field(e, IdListKey)), ReadPos(Field(e, PosKey)), closed.Bool? && closed.truth,
                      NullableText(Field(e, DueKey)), Texts(Field(e, IdLabelsKey)), Texts(Field(e, IdMembersKey)),
                      Readable(AttachmentOf, ItemsOf(Field(e, AttachmentsKey)))))
  }

  /** A checklist survives its unreadable lines, which are reported one by one. */
  function ChecklistOf(e: Json): Option<TrelloChecklist> {
    if || !e.Object? || ReadId(Field(e, IdKey)).None? || BadArray(Field(e, CheckItemsKey))
       || BadText(Field(e, IdCardKey)) || BadText(Field(e, NameKey))
    then None
    else Some(TrelloChecklist(ReadId(Field(e, IdKey)).value, NullableText(Field(e, IdCardKey)),
                              TextOr(Field(e, NameKey), ""),
                              ReadPos(Field(e, PosKey)), Readable(CheckItemOf, ItemsOf(Field(e, CheckItemsKey)))))
  }

  function ItemIssues(items: seq<Json>): seq<Issue> {
    if items == [] then []
    else ItemIssues(items[..|items| - 1])
         + if CheckItemOf(items[|items| - 1]).None? then [Issue(ChecklistItemScope, Malformed, None)] else []
  }

  /** Issues of a checklist's lines; a checklist without an id is not looked into. */
  function LineIssues(e: Json): seq<Issue> {
    if !e.Object? || ReadId(Field(e, IdKey)).None? then [] else ItemIssues(ItemsOf(Field(e, CheckItemsKey)))
  }

  function NoIssues(e: Json): seq<Issue> {
    []
  }

  method ReadList(entry: Json) returns (r: Option<TrelloList>)
    ensures r == ListOf(entry)
  {
    if !entry.Object? { return None; }
    var id := ReadId(Field(entry, IdKey));
    if id.None? { return None; }
    var fields := new EntryFields();
    var name := fields.String(Field(entry, NameKey), "");
    var closed := fields.Boolean(Field(entry, ClosedKey));
    return if fields.unusable then None else Some(TrelloList(id.value, name, ReadPos(Field(entry, PosKey)), closed));
  }

  method ReadAttachment(entry: Json) returns (r: Option<TrelloAttachment>)
    ensures r == AttachmentOf(entry)
  {
    if !entry.Object? { return None; }
    var url := ReadId(Field(entry, UrlKey));
    if url.None? { return None; }
    var fields := new EntryFields();
    var id := fields.String(Field(entry, IdKey), "");
    var name := fields.String(Field(entry, NameKey), url.value);
    return if fields.unusable then None else Some(TrelloAttachment(id, name, url.value));
  }

  method ReadLabel(entry: Json) returns (r: Option<TrelloLabel>)
    ensures r == LabelOf(entry)
  {
    if !entry.Object? { return None; }
    var id := ReadId(Field(entry, IdKey));
    if id.None? { return None; }
    var fields := new EntryFields();
    var name := fields.String(Field(entry, NameKey), "");
    var color := fields.NullableString(Field(entry, ColorKey));
    return if fields.unusable then None else Some(TrelloLabel(id.value, name, color));
  }

  method ReadCheckItem(entry: Json) returns (r: Option<TrelloCheckItem>)
    ensures r == CheckItemOf(entry)
  {
    if !entry.Object? { return None; }
    var id := ReadId(Field(entry, IdKey));
    if id.None? { return None; }
    var fields := new EntryFields();
    var name := fields.String(Field(entry, NameKey), "");
    var state := fields.NullableString(Field(entry, StateKey));
    return if fields.unusable then None
        else Some(TrelloCheckItem(id.value, name, state, ReadPos(Field(entry, PosKey))));
  }

  method ReadCard(entry: Json) returns (r: Option<TrelloCard>)
    ensures r == CardOf(entry)
  {
    if !entry.Object? { return None; }
    var id := ReadId(Field(entry, IdKey));
    if id.None? { return None; }
    var fields := new EntryFields();
    var attachments: seq<TrelloAttachment> := [];
    var items := fields.Elements(Field(entry, AttachmentsKey));
    for i := 0 to |items|
      invariant attachments == Readable(AttachmentOf, items[..i])
      invariant fields.unusable
                == (BadArray(Field(entry, AttachmentsKey)) || exists x | x in items[..i] :: AttachmentOf(x).None?)
    {
      PrefixMore(items, i);
      var attachment := ReadAttachment(items[i]);
      if attachment.None? {
        fields.unusable := true;
      } else {
        attachments := attachments + [attachment.value];
      }
    }
    PrefixMore(items, |items|);
    var name := fields.String(Field(entry, NameKey), "");
    var desc := fields.NullableString(Field(entry, DescKey));
    var idList := fields.NullableString(Field(entry, IdListKey));
    var closed := fields.Boolean(Field(entry, ClosedKey));
    var due := fields.NullableString(Field(entry, DueKey));
    var idLabels := fields.StringArray(Field(entry, IdLabelsKey));
    var idMembers := fields.StringArray(Field(entry, IdMembersKey));
    return if fields.unusable then None
           else Some(TrelloCard(id.value, name, desc, idList, ReadPos(Field(entry, PosKey)), closed, due, idLabels,
                                idMembers, attachments));
  }

  method ReadChecklist(entry: Json, issues: seq<Issue>) returns (r: Option<TrelloChecklist>, issues': seq<Issue>)
    ensures r == ChecklistOf(entry) && issues' == issues + LineIssues(entry)
  {
    issues' := issues;
    if !entry.Object? { return None, issues'; }
    var id := ReadId(Field(entry, IdKey));
    if id.None? { return None, issues'; }
    var fields := new EntryFields();
    var checkItems: seq<TrelloCheckItem> := [];
    var items := fields.Elements(Field(entry, CheckItemsKey));
    for i := 0 to |items|
      invariant checkItems == Readable(CheckItemOf, items[..i])
      invariant issues' == issues + ItemIssues(items[..i])
      invariant fields.unusable == BadArray(Field(entry, CheckItemsKey))
    {
      PrefixMore(items, i);
      var item := ReadCheckItem(items[i]);
      if item.None? {
        Append3(issues, ItemIssues(items[..i]), [Issue(ChecklistItemScope, Malformed, None)]);
        issues' := issues' + [Issue(ChecklistItemScope, Malformed, None)];
      } else {
        checkItems := checkItems + [item.value];
      }
    }
    PrefixMore(items, |items|);
    var idCard := fields.NullableString(Field(entry, IdCardKey));
    var name := fields.String(Field(entry, NameKey), "");
    return if fields.unusable then None
           else Some(TrelloChecklist(id.value, idCard, name, ReadPos(Field(entry, PosKey)), checkItems)), issues';
  }

  // ---- Sections ----

  /** What a section's entry is reported as when it cannot be read. */
  function Unread<T>(scope: Scope, read: Json -> Option<T>, e: Json): seq<Issue> {
    if read(e).Some? then []
    else [Issue(scope, Malformed, if e.Object? && Field(e, NameKey).Text? then Some(Field(e, NameKey).text) else None)]
  }

  function EntryIssues<T>(scope: Scope, read: Json -> Option<T>, inner: Json -> seq<Issue>,
                          items: seq<Json>): seq<Issue> {
    if items == [] then []
    else
      var e := items[|items| - 1];
      EntryIssues(scope, read, inner, items[..|items| - 1]) + (inner(e) + Unread(scope, read, e))
  }

  function SectionIssues<T>(raw: Json, scope: Scope, read: Json -> Option<T>, inner: Json -> seq<Issue>): seq<Issue> {
    if raw.Array? then EntryIssues(scope, read, inner, raw.items) else [Issue(scope, Malformed, None)]
  }

  /** A top-level array, entry by entry; `inner` is what reading one entry reports on its own. */
  method ReadSection<T>(raw: Json, scope: Scope, issues: seq<Issue>, read: Json -> Option<T>, inner: Json -> seq<Issue>)
    returns (rows: seq<T>, issues': seq<Issue>)
    ensures rows == Readable(read, ItemsOf(raw))
    ensures issues' == issues + SectionIssues(raw, scope, read, inner)
  {
    rows, issues' := [], issues;
    if !raw.Array? {
      issues' := issues' + [Issue(scope, Malformed, None)];
      return;
    }
    for i := 0 to |raw.items|
      invariant rows == Readable(read, raw.items[..i])
      invariant issues' == issues + EntryIssues(scope, read, inner, raw.items[..i])
    {
      PrefixMore(raw.items, i);
      var entry := raw.items[i];
      var row := read(entry);
      Append3(issues, EntryIssues(scope, read, inner, raw.items[..i]), inner(entry) + Unread(scope, read, entry));
      issues' := issues' + (inner(entry) + Unread(scope, read, entry));
      if row.Some? {
        rows := rows + [row.value];
      }
    }
    PrefixMore(raw.items, |raw.items|);
  }

  predicate IsCommentCard(e: Json) {
    e.Object? && Field(e, TypeKey) == Text("commentCard")
  }

  function AbsentIssue(raw: Json, scope: Scope): seq<Issue> {
    if raw.Array? then [] else [Issue(scope, Malformed, None)]
  }

  method CountActions(raw: Json, issues: seq<Issue>) returns (count: nat, issues': seq<Issue>)
    ensures count == |Filter(IsCommentCard, ItemsOf(raw))| && issues' == issues + AbsentIssue(raw, CommentScope)
  {
    if !raw.Array? {
      return 0, issues + [Issue(CommentScope, Malformed, None)];
    }
    assert issues + [] == issues;
    return |Filter(IsCommentCard, raw.items)|, issues;
  }

  method CountMembers(raw: Json, issues: seq<Issue>) returns (count: nat, issues': seq<Issue>)
    ensures count == |ItemsOf(raw)| && issues' == issues + AbsentIssue(raw, MemberScope)
  {
    if !raw.Array? {
      return 0, issues + [Issue(MemberScope, Malformed, None)];
    }
    assert issues + [] == issues;
    return |raw.items|, issues;
  }

  predicate IsBoard(raw: Json) {
    raw.Object? && Field(raw, NameKey).Text? && Field(raw, ListsKey).Array?
  }

  function SourceOf(raw: Json): Source
    requires IsBoard(raw)
  {
    Source(Field(raw, NameKey).text, NullableText(Field(raw, DescKey)),
           Readable(ListOf, ItemsOf(Field(raw, ListsKey))), Readable(CardOf, ItemsOf(Field(raw, CardsKey))),
           Readable(LabelOf, ItemsOf(Field(raw, LabelsKey))), Readable(ChecklistOf, ItemsOf(Field(raw, ChecklistsKey))),
           |Filter(IsCommentCard, ItemsOf(Field(raw, ActionsKey)))|, |ItemsOf(Field(raw, MembersKey))|)
  }

  function IssuesOf(raw: Json): seq<Issue>
    requires IsBoard(raw)
  {
    SectionIssues(Field(raw, ListsKey), ListScope, ListOf, NoIssues)
    + SectionIssues(Field(raw, CardsKey), CardScope, CardOf, NoIssues)
    + SectionIssues(Field(raw, LabelsKey), LabelScope, LabelOf, NoIssues)
    + SectionIssues(Field(raw, ChecklistsKey), ChecklistScope, ChecklistOf, LineIssues)
    + AbsentIssue(Field(raw, ActionsKey), CommentScope)
    + AbsentIssue(Field(raw, MembersKey), MemberScope)
  }

  /** Two things are errors: no JSON at all, and JSON that is not a board. Everything else is read. */
  method ParseTrelloExport(parsed: Option<Json>) returns (r: Result<ReadResult, Error>)
    ensures parsed.None? <==> r == Err(NotJson)
    ensures parsed.Some? && !IsBoard(parsed.value) <==> r == Err(NotABoard)
    ensures parsed.Some? && IsBoard(parsed.value) ==>
              r == Ok(ReadResult(SourceOf(parsed.value), IssuesOf(parsed.value)))
  {
    if parsed.None? { return Err(NotJson); }
    var raw := parsed.value;
    if !raw.Object? || !Field(raw, NameKey).Text? || !Field(raw, ListsKey).Array? { return Err(NotABoard); }
    var issues: seq<Issue> := [];
    var lists, cards, labels, checklists, commentCount, memberCount;
    lists, issues := ReadSection(Field(raw, ListsKey), ListScope, issues, ListOf, NoIssues);
    assert issues == SectionIssues(Field(raw, ListsKey), ListScope, ListOf, NoIssues);
    cards, issues := ReadSection(Field(raw, CardsKey), CardScope, issues, CardOf, NoIssues);
    labels, issues := ReadSection(Field(raw, LabelsKey), LabelScope, issues, LabelOf, NoIssues);
    checklists, issues := ReadSection(Field(raw, ChecklistsKey), ChecklistScope, issues, ChecklistOf, LineIssues);
    commentCount, issues := CountActions(Field(raw, ActionsKey), issues);
    memberCount, issues := CountMembers(Field(raw, MembersKey), issues);
    return Ok(ReadResult(
      Source(Field(raw, NameKey).text, NullableText(Field(raw, DescKey)), lists, cards, labels, checklists,
             commentCount, memberCount),
      issues));
  }

  // ---- Nothing goes missing ----

  function InScope(scope: Scope): Issue -> bool {
    (i: Issue) => i.scope == scope
  }

  /** Whatever reading one entry reports on its own is about checklist lines. */
  ghost predicate AboutLines(items: seq<Json>, inner: Json -> seq<Issue>) {
    forall e, i | e in items && i in inner(e) :: i.scope == ChecklistItemScope
  }

  /** Raw entries of a section are either rows or issues of its scope. */
  lemma {:induction false} SectionConserved<T>(items: seq<Json>, scope: Scope, read: Json -> Option<T>,
                                               inner: Json -> seq<Issue>)
    requires AboutLines(items, inner) && scope != ChecklistItemScope
    ensures |items| == |Readable(read, items)| + |Filter(InScope(scope), EntryIssues(scope, read, inner, items))|
  {
    if items != [] {
      var before, e := items[..|items| - 1], items[|items| - 1];
      assert e in items && forall x | x in before :: x in items;
      SectionConserved(before, scope, read, inner);
      FilterAppend(InScope(scope), EntryIssues(scope, read, inner, before), inner(e) + Unread(scope, read, e));
      OwnIssue(scope, read, inner, e);
    }
  }

  lemma OwnIssue<T>(scope: Scope, read: Json -> Option<T>, inner: Json -> seq<Issue>, e: Json)
    requires forall i | i in inner(e) :: i.scope != scope
    ensures |Filter(InScope(scope), inner(e) + Unread(scope, read, e))| == if read(e).Some? then 0 else 1
  {
    FilterAppend(InScope(scope), inner(e), Unread(scope, read, e));
    FilterNone(InScope(scope), inner(e));
    FilterAll(InScope(scope), Unread(scope, read, e));
  }

  lemma {:induction false} IssueScopes<T>(items: seq<Json>, scope: Scope, read: Json -> Option<T>,
                                          inner: Json -> seq<Issue>)
    requires AboutLines(items, inner)
    ensures forall i | i in EntryIssues(scope, read, inner, items) :: i.scope == scope || i.scope == ChecklistItemScope
  {
    if items != [] {
      var e := items[|items| - 1];
      assert e in items && forall x | x in items[..|items| - 1] :: x in items;
      IssueScopes(items[..|items| - 1], scope, read, inner);
    }
  }

  lemma SectionScopes<T>(raw: Json, scope: Scope, read: Json -> Option<T>, inner: Json -> seq<Issue>, other: Scope)
    requires AboutLines(ItemsOf(raw), inner) && other != scope && other != ChecklistItemScope
    ensures Filter(InScope(other), SectionIssues(raw, scope, read, inner)) == []
  {
    if raw.Array? {
      IssueScopes(raw.items, scope, read, inner);
    }
    FilterNone(InScope(other), SectionIssues(raw, scope, read, inner));
  }

  lemma LinesOnly(items: seq<Json>)
    ensures AboutLines(items, NoIssues) && AboutLines(items, LineIssues)
  {
    forall e | e in items ensures forall i | i in LineIssues(e) :: i.scope == ChecklistItemScope { LineIssuesScope(e); }
  }

  /** Issues of one scope in the whole list, for the four sections and the two that are only counted. */
  lemma IssuesInScope(raw: Json, scope: Scope)
    requires IsBoard(raw) && scope in {ListScope, CardScope, LabelScope, ChecklistScope}
    ensures |Filter(InScope(scope), IssuesOf(raw))|
            == match scope
               case ListScope => |Filter(InScope(scope), SectionIssues(Field(raw, ListsKey), scope, ListOf, NoIssues))|
               case CardScope => |Filter(InScope(scope), SectionIssues(Field(raw, CardsKey), scope, CardOf, NoIssues))|
               case LabelScope => |Filter(InScope(scope),
                                          SectionIssues(Field(raw, LabelsKey), scope, LabelOf, NoIssues))|
               case _ => |Filter(InScope(scope),
                                 SectionIssues(Field(raw, ChecklistsKey), scope, ChecklistOf, LineIssues))|
  {
    var a := SectionIssues(Field(raw, ListsKey), ListScope, ListOf, NoIssues);
    var b := SectionIssues(Field(raw, CardsKey), CardScope, CardOf, NoIssues);
    var c := SectionIssues(Field(raw, LabelsKey), LabelScope, LabelOf, NoIssues);
    var d := SectionIssues(Field(raw, ChecklistsKey), ChecklistScope, ChecklistOf, LineIssues);
    var e, f := AbsentIssue(Field(raw, ActionsKey), CommentScope), AbsentIssue(Field(raw, MembersKey), MemberScope);
    SplitSix(InScope(scope), a, b, c, d, e, f);
    LinesOnly(ItemsOf(Field(raw, ListsKey)));
    LinesOnly(ItemsOf(Field(raw, CardsKey)));
    LinesOnly(ItemsOf(Field(raw, LabelsKey)));
    LinesOnly(ItemsOf(Field(raw, ChecklistsKey)));
    if scope != ListScope { SectionScopes(Field(raw, ListsKey), ListScope, ListOf, NoIssues, scope); }
    if scope != CardScope { SectionScopes(Field(raw, CardsKey), CardScope, CardOf, NoIssues, scope); }
    if scope != LabelScope { SectionScopes(Field(raw, LabelsKey), LabelScope, LabelOf, NoIssues, scope); }
    if scope != ChecklistScope {
      SectionScopes(Field(raw, ChecklistsKey), ChecklistScope, ChecklistOf, LineIssues, scope);
    }
    FilterNone(InScope(scope), e);
    FilterNone(InScope(scope), f);
  }

  lemma SplitSix<T>(p: T -> bool, a: seq<T>, b: seq<T>, c: seq<T>, d: seq<T>, e: seq<T>, f: seq<T>)
    ensures |Filter(p, a + b + c + d + e + f)|
            == |Filter(p, a)| + |Filter(p, b)| + |Filter(p, c)| + |Filter(p, d)| + |Filter(p, e)| + |Filter(p, f)|
  {
    FilterAppend(p, a + b + c + d + e, f);
    FilterAppend(p, a + b + c + d, e);
    FilterAppend(p, a + b + c, d);
    FilterAppend(p, a + b, c);
    FilterAppend(p, a, b);
  }

  /**
    Reading loses nothing: in a section that is an array, every raw entry is a row or an issue of
    the section's scope.
  */
  lemma ReadingConserves(raw: Json)
    requires IsBoard(raw)
    ensures |ItemsOf(Field(raw, ListsKey))| == |SourceOf(raw).lists| + |Filter(InScope(ListScope), IssuesOf(raw))|
    ensures Field(raw, CardsKey).Array? ==>
              |ItemsOf(Field(raw, CardsKey))| == |SourceOf(raw).cards| + |Filter(InScope(CardScope), IssuesOf(raw))|
    ensures Field(raw, ChecklistsKey).Array? ==>
              |ItemsOf(Field(raw, ChecklistsKey))|
              == |SourceOf(raw).checklists| + |Filter(InScope(ChecklistScope), IssuesOf(raw))|
  {
    IssuesInScope(raw, ListScope);
    IssuesInScope(raw, CardScope);
    IssuesInScope(raw, ChecklistScope);
    LinesOnly(ItemsOf(Field(raw, ListsKey)));
    LinesOnly(ItemsOf(Field(raw, CardsKey)));
    LinesOnly(ItemsOf(Field(raw, ChecklistsKey)));
    SectionConserved(ItemsOf(Field(raw, ListsKey)), ListScope, ListOf, NoIssues);
    SectionConserved(ItemsOf(Field(raw, CardsKey)), CardScope, CardOf, NoIssues);
    SectionConserved(ItemsOf(Field(raw, ChecklistsKey)), ChecklistScope, ChecklistOf, LineIssues);
  }

  lemma {:induction false} ItemIssuesScope(items: seq<Json>)
    ensures forall i | i in ItemIssues(items) :: i.scope == ChecklistItemScope
  {
    if items != [] {
      ItemIssuesScope(items[..|items| - 1]);
    }
  }

  lemma LineIssuesScope(e: Json)
    ensures forall i | i in LineIssues(e) :: i.scope == ChecklistItemScope
  {
    if e.Object? {
      ItemIssuesScope(ItemsOf(Field(e, CheckItemsKey)));
    }
  }

  // ---- What reads back ----

  function TextOrNull(t: Option<string>): Json {
    if t.Some? then Text(t.value) else Null
  }

  function PosOrNull(pos: Option<real>): Json {
    if pos.Some? then Number(pos) else Null
  }

  function TextItem(t: string): Json { Text(t) }

  function TextItems(ts: seq<string>): Json { Array(Map(TextItem, ts)) }

  function ListJson(l: TrelloList): Json {
    Object(map[IdKey := Text(l.id), NameKey := Text(l.name), PosKey := PosOrNull(l.pos), ClosedKey := Bool(l.closed)])
  }

  function LabelJson(l: TrelloLabel): Json {
    Object(map[IdKey := Text(l.id), NameKey := Text(l.name), ColorKey := TextOrNull(l.color)])
  }

  function AttachmentJson(a: TrelloAttachment): Json {
    Object(map[IdKey := Text(a.id), NameKey := Text(a.name), UrlKey := Text(a.url)])
  }

  function CheckItemJson(i: TrelloCheckItem): Json {
    Object(map[IdKey := Text(i.id), NameKey := Text(i.name), StateKey := TextOrNull(i.state),
               PosKey := PosOrNull(i.pos)])
  }

  function CardJson(c: TrelloCard): Json {
    Object(map[IdKey := Text(c.id), NameKey := Text(c.name), DescKey := TextOrNull(c.desc),
               IdListKey := TextOrNull(c.idList),
               PosKey := PosOrNull(c.pos), ClosedKey := Bool(c.closed), DueKey := TextOrNull(c.due),
               IdLabelsKey := TextItems(c.idLabels), IdMembersKey := TextItems(c.idMembers),
               AttachmentsKey := Array(Map(AttachmentJson, c.attachments))])
  }

  function ChecklistJson(c: TrelloChecklist): Json {
    Object(map[IdKey := Text(c.id), IdCardKey := TextOrNull(c.idCard), NameKey := Text(c.name),
               PosKey := PosOrNull(c.pos),
               CheckItemsKey := Array(Map(CheckItemJson, c.checkItems))])
  }

  /** An entry of the expected shape reads back as what it spells, exactly when it has its identity. */
  lemma ListReadsBack(l: TrelloList)
    ensures ListOf(ListJson(l)) == if l.id != "" then Some(l) else None
  {
    var e := ListJson(l);
    assert Field(e, IdKey) == Text(l.id) && Field(e, NameKey) == Text(l.name);
    assert Field(e, PosKey) == PosOrNull(l.pos) && Field(e, ClosedKey) == Bool(l.closed);
  }

  lemma LabelReadsBack(l: TrelloLabel)
    ensures LabelOf(LabelJson(l)) == if l.id != "" then Some(l) else None
  {
    var e := LabelJson(l);
    assert Field(e, IdKey) == Text(l.id) && Field(e, NameKey) == Text(l.name)
           && Field(e, ColorKey) == TextOrNull(l.color);
  }

  lemma AttachmentReadsBack(a: TrelloAttachment)
    ensures AttachmentOf(AttachmentJson(a)) == if a.url != "" then Some(a) else None
  {
    var e := AttachmentJson(a);
    assert Field(e, IdKey) == Text(a.id) && Field(e, NameKey) == Text(a.name) && Field(e, UrlKey) == Text(a.url);
  }

  lemma CheckItemReadsBack(i: TrelloCheckItem)
    ensures CheckItemOf(CheckItemJson(i)) == if i.id != "" then Some(i) else None
  {
    var e := CheckItemJson(i);
    assert Field(e, IdKey) == Text(i.id) && Field(e, NameKey) == Text(i.name);
    assert Field(e, StateKey) == TextOrNull(i.state) && Field(e, PosKey) == PosOrNull(i.pos);
  }

  lemma TextsReadBack(ts: seq<string>)
    ensures Texts(TextItems(ts)) == ts && !BadTexts(TextItems(ts))
  {
    FilterAll(IsText, Map(TextItem, ts));
    MapTwice(TextItem, TextOf, (t: string) => t, ts);
    MapSame((t: string) => t, ts);
  }

  function HasUrl(a: TrelloAttachment): bool { a.url != "" }

  function HasItemId(i: TrelloCheckItem): bool { i.id != "" }

  /** Entries written out are read back one for one, those without an identity apart. */
  lemma {:induction false} ReadableWritten<T>(write: T -> Json, read: Json -> Option<T>, keeps: T -> bool, xs: seq<T>)
    requires forall x | x in xs :: read(write(x)) == if keeps(x) then Some(x) else None
    ensures Readable(read, Map(write, xs)) == Filter(keeps, xs)
    ensures (exists e :: e in Map(write, xs) && read(e).None?) <==> Filter(keeps, xs) != xs
    ensures |Filter(keeps, xs)| <= |xs|
  {
    if xs != [] {
      var n := |xs| - 1;
      var before, x := xs[..n], xs[n];
      assert x in xs;
      ReadableWritten(write, read, keeps, before);
      var written := Map(write, before);
      assert Map(write, xs) == written + [write(x)];
      Front(written, write(x));
      Front(before, x);
      assert xs == before + [x];
    }
  }

  lemma Front<T>(s: seq<T>, x: T)
    ensures (s + [x])[..|s + [x]| - 1] == s
  {
  }

  lemma AttachmentsReadBack(attachments: seq<TrelloAttachment>)
    ensures Readable(AttachmentOf, Map(AttachmentJson, attachments)) == Filter(HasUrl, attachments)
    ensures (exists e :: e in Map(AttachmentJson, attachments) && AttachmentOf(e).None?)
            <==> Filter(HasUrl, attachments) != attachments
  {
    forall a | a in attachments ensures AttachmentOf(AttachmentJson(a)) == if HasUrl(a) then Some(a) else None {
      AttachmentReadsBack(a);
    }
    ReadableWritten(AttachmentJson, AttachmentOf, HasUrl, attachments);
  }

  ghost predicate SpellsCard(e: Json, c: TrelloCard) {
    && e.Object?
    && Field(e, IdKey) == Text(c.id) && Field(e, NameKey) == Text(c.name) && Field(e, DescKey) == TextOrNull(c.desc)
    && Field(e, IdListKey) == TextOrNull(c.idList) && Field(e, PosKey) == PosOrNull(c.pos)
    && Field(e, ClosedKey) == Bool(c.closed) && Field(e, DueKey) == TextOrNull(c.due)
    && Field(e, IdLabelsKey) == TextItems(c.idLabels) && Field(e, IdMembersKey) == TextItems(c.idMembers)
    && Field(e, AttachmentsKey) == Array(Map(AttachmentJson, c.attachments))
  }

  lemma CardSpelled(c: TrelloCard)
    ensures SpellsCard(CardJson(c), c)
  {
  }

  lemma CardFieldsGood(e: Json, c: TrelloCard)
    requires SpellsCard(e, c)
    ensures !CardFieldsBad(e) && Texts(Field(e, IdLabelsKey)) == c.idLabels
            && Texts(Field(e, IdMembersKey)) == c.idMembers
  {
    TextsReadBack(c.idLabels);
    TextsReadBack(c.idMembers);
  }

  lemma SpelledCardRead(e: Json, c: TrelloCard)
    requires SpellsCard(e, c)
    ensures CardOf(e) == if c.id != "" && Filter(HasUrl, c.attachments) == c.attachments then Some(c) else None
  {
    CardFieldsGood(e, c);
    AttachmentsReadBack(c.attachments);
  }

  /** A card reads back whole, or not at all once its id or the URL of one of its attachments is missing. */
  lemma CardReadsBack(c: TrelloCard)
    ensures CardOf(CardJson(c)) == if c.id != "" && Filter(HasUrl, c.attachments) == c.attachments then Some(c)
            else None
  {
    CardSpelled(c);
    SpelledCardRead(CardJson(c), c);
  }

  ghost predicate SpellsChecklist(e: Json, c: TrelloChecklist) {
    && e.Object?
    && Field(e, IdKey) == Text(c.id) && Field(e, IdCardKey) == TextOrNull(c.idCard) && Field(e, NameKey) == Text(c.name)
    && Field(e, PosKey) == PosOrNull(c.pos) && Field(e, CheckItemsKey) == Array(Map(CheckItemJson, c.checkItems))
  }

  lemma ItemsReadBack(items: seq<TrelloCheckItem>)
    ensures Readable(CheckItemOf, Map(CheckItemJson, items)) == Filter(HasItemId, items)
    ensures |ItemIssues(Map(CheckItemJson, items))| == |items| - |Filter(HasItemId, items)|
  {
    forall i | i in items ensures CheckItemOf(CheckItemJson(i)) == if HasItemId(i) then Some(i) else None {
      CheckItemReadsBack(i);
    }
    ReadableWritten(CheckItemJson, CheckItemOf, HasItemId, items);
    LinesCounted(Map(CheckItemJson, items));
  }

  lemma SpelledChecklistRead(e: Json, c: TrelloChecklist)
    requires SpellsChecklist(e, c)
    ensures ChecklistOf(e) == if c.id != "" then Some(c.(checkItems := Filter(HasItemId, c.checkItems))) else None
    ensures |LineIssues(e)| == if c.id != "" then |c.checkItems| - |Filter(HasItemId, c.checkItems)| else 0
  {
    ItemsReadBack(c.checkItems);
  }

  lemma ChecklistSpelled(c: TrelloChecklist)
    ensures SpellsChecklist(ChecklistJson(c), c)
  {
  }

  /** A checklist reads back without its lines that have no id, each of which is one issue. */
  lemma ChecklistReadsBack(c: TrelloChecklist)
    ensures ChecklistOf(ChecklistJson(c)) == if c.id != "" then Some(c.(checkItems := Filter(HasItemId, c.checkItems)))
            else None
    ensures |LineIssues(ChecklistJson(c))| == if c.id != "" then |c.checkItems| - |Filter(HasItemId, c.checkItems)|
            else 0
  {
    ChecklistSpelled(c);
    SpelledChecklistRead(ChecklistJson(c), c);
  }

  lemma {:induction false} LinesCounted(items: seq<Json>)
    ensures |ItemIssues(items)| == |items| - |Readable(CheckItemOf, items)|
  {
    if items != [] {
      LinesCounted(items[..|items| - 1]);
    }
  }

  // ---- The lines of checklists ----

  /** The lines of an entry that are reported as unreadable. */
  function LinesUnread(e: Json): nat {
    |LineIssues(e)|
  }

  /** Every raw line of a checklist that was read is one of its items or is reported. */
  lemma LinesConserved(e: Json)
    requires ChecklistOf(e).Some?
    ensures |ItemsOf(Field(e, CheckItemsKey))| == |ChecklistOf(e).value.checkItems| + LinesUnread(e)
  {
    LinesCounted(ItemsOf(Field(e, CheckItemsKey)));
  }

  lemma {:induction false} EntryLines(items: seq<Json>)
    ensures |Filter(InScope(ChecklistItemScope), EntryIssues(ChecklistScope, ChecklistOf, LineIssues, items))|
            == Sum(LinesUnread, items)
  {
    if items != [] {
      var before, e := items[..|items| - 1], items[|items| - 1];
      var p, own := InScope(ChecklistItemScope), Unread(ChecklistScope, ChecklistOf, e);
      EntryLines(before);
      FilterAppend(p, EntryIssues(ChecklistScope, ChecklistOf, LineIssues, before), LineIssues(e) + own);
      FilterAppend(p, LineIssues(e), own);
      LineIssuesScope(e);
      FilterAll(p, LineIssues(e));
      FilterNone(p, own);
    }
  }

  lemma {:induction false} NoLinesIn<T>(items: seq<Json>, scope: Scope, read: Json -> Option<T>)
    requires scope != ChecklistItemScope
    ensures forall i | i in EntryIssues(scope, read, NoIssues, items) :: i.scope != ChecklistItemScope
  {
    if items != [] {
      NoLinesIn(items[..|items| - 1], scope, read);
    }
  }

  lemma NoLinesInSection<T>(raw: Json, scope: Scope, read: Json -> Option<T>)
    requires scope != ChecklistItemScope
    ensures Filter(InScope(ChecklistItemScope), SectionIssues(raw, scope, read, NoIssues)) == []
  {
    if raw.Array? {
      NoLinesIn(raw.items, scope, read);
    }
    FilterNone(InScope(ChecklistItemScope), SectionIssues(raw, scope, read, NoIssues));
  }

  lemma LinesInSection(raw: Json)
    ensures |Filter(InScope(ChecklistItemScope), SectionIssues(raw, ChecklistScope, ChecklistOf, LineIssues))|
            == Sum(LinesUnread, ItemsOf(raw))
  {
    if raw.Array? {
      EntryLines(raw.items);
    } else {
      FilterNone(InScope(ChecklistItemScope), SectionIssues(raw, ChecklistScope, ChecklistOf, LineIssues));
    }
  }

  /** The issues about checklist lines are the unreadable lines of the raw checklists. */
  lemma LineIssuesOfBoard(raw: Json)
    requires IsBoard(raw)
    ensures |Filter(InScope(ChecklistItemScope), IssuesOf(raw))| == Sum(LinesUnread, ItemsOf(Field(raw, ChecklistsKey)))
  {
    var p := InScope(ChecklistItemScope);
    var a := SectionIssues(Field(raw, ListsKey), ListScope, ListOf, NoIssues);
    var b := SectionIssues(Field(raw, CardsKey), CardScope, CardOf, NoIssues);
    var c := SectionIssues(Field(raw, LabelsKey), LabelScope, LabelOf, NoIssues);
    var d := SectionIssues(Field(raw, ChecklistsKey), ChecklistScope, ChecklistOf, LineIssues);
    var e, f := AbsentIssue(Field(raw, ActionsKey), CommentScope), AbsentIssue(Field(raw, MembersKey), MemberScope);
    NoLinesInSection(Field(raw, ListsKey), ListScope, ListOf);
    NoLinesInSection(Field(raw, CardsKey), CardScope, CardOf);
    NoLinesInSection(Field(raw, LabelsKey), LabelScope, LabelOf);
    LinesInSection(Field(raw, ChecklistsKey));
    FilterNone(p, e);
    FilterNone(p, f);
    SplitSix(p, a, b, c, d, e, f);
  }

  // ---- Which entries are readable, by their fields ----

  predicate OptionalText(v: Json) { v == Undefined || v == Null || v.Text? }

  predicate OptionalBool(v: Json) { v == Undefined || v == Null || v.Bool? }

  predicate OptionalTexts(v: Json) {
    v == Undefined || v == Null || (v.Array? && forall x | x in v.items :: x.Text?)
  }

  predicate OptionalArray(v: Json) { v == Undefined || v == Null || v.Array? }

  predicate HasText(v: Json) { v.Text? && v.text != "" }

  /**
    A list, a label and a checklist line need an id; their other fields may be absent or null but not
    of another type.
  */
  lemma SmallEntriesReadable(e: Json)
    ensures ListOf(e).Some?
            <==> e.Object? && HasText(Field(e, IdKey)) && OptionalText(Field(e, NameKey))
                 && OptionalBool(Field(e, ClosedKey))
    ensures LabelOf(e).Some?
            <==> e.Object? && HasText(Field(e, IdKey)) && OptionalText(Field(e, NameKey))
                 && OptionalText(Field(e, ColorKey))
    ensures CheckItemOf(e).Some?
            <==> e.Object? && HasText(Field(e, IdKey)) && OptionalText(Field(e, NameKey))
                 && OptionalText(Field(e, StateKey))
    ensures AttachmentOf(e).Some?
            <==> e.Object? && HasText(Field(e, UrlKey)) && OptionalText(Field(e, IdKey))
                 && OptionalText(Field(e, NameKey))
  {
  }

  lemma {:induction false} EachRead<T>(read: Json -> Option<T>, items: seq<Json>)
    requires forall x | x in items :: read(x).Some?
    ensures |Readable(read, items)| == |items|
    ensures forall k | 0 <= k < |items| :: read(items[k]) == Some(Readable(read, items)[k])
  {
    if items != [] {
      assert items[|items| - 1] in items;
      EachRead(read, items[..|items| - 1]);
    }
  }

  /** A card is readable exactly when it has an id, no field is of another type, and each attachment is readable. */
  lemma CardReadable(e: Json)
    ensures CardOf(e).Some?
            <==> && e.Object? && HasText(Field(e, IdKey)) && OptionalText(Field(e, NameKey))
                 && OptionalText(Field(e, DescKey)) && OptionalText(Field(e, IdListKey))
                 && OptionalText(Field(e, DueKey)) && OptionalBool(Field(e, ClosedKey))
                 && OptionalTexts(Field(e, IdLabelsKey)) && OptionalTexts(Field(e, IdMembersKey))
                 && OptionalArray(Field(e, AttachmentsKey))
                 && (Field(e, AttachmentsKey).Array? ==>
                       forall x | x in Field(e, AttachmentsKey).items :: AttachmentOf(x).Some?)
  {
  }

  /** What a readable card is read as, absent fields included; its attachments are read one by one. */
  lemma CardReads(e: Json)
    requires CardOf(e).Some?
    ensures var c := CardOf(e).value;
            && Field(e, IdKey) == Text(c.id)
            && c.name == (if Field(e, NameKey).Text? then Field(e, NameKey).text else "")
            && c.desc == (if Field(e, DescKey).Text? then Some(Field(e, DescKey).text) else None)
            && c.idList == (if Field(e, IdListKey).Text? then Some(Field(e, IdListKey).text) else None)
            && c.due == (if Field(e, DueKey).Text? then Some(Field(e, DueKey).text) else None)
            && c.pos == (if Field(e, PosKey).Number? then Field(e, PosKey).value else None)
            && (c.closed <==> Field(e, ClosedKey) == Bool(true))
    ensures var c, items := CardOf(e).value, ItemsOf(Field(e, AttachmentsKey));
            && |c.attachments| == |items|
            && forall k | 0 <= k < |items| :: AttachmentOf(items[k]) == Some(c.attachments[k])
  {
    EachRead(AttachmentOf, ItemsOf(Field(e, AttachmentsKey)));
  }
}
