/**
 * The server-sent-event streams of the entry module: `get_related_topics`,
 * `make_sections`, `make_section` and `make_chat_completion`, as methods of a
 * store that append what the stream yields to `events` and every generator
 * request to `calls`.
 */
module EntryStreams {
  import opened Wrappers
  import opened Config
  import opened Protocol
  import opened Entries
  import opened ChatMessages
  import PyText
  import Gpt

  /**
   * One item of a stream: `data: <json>`, `data: <html>` or `event: close`.
   * `RowData(row)` is the `data:` event of a row's `as_dict()` and
   * `SectionData(s)` that of a section with its subsections (see `Payload`).
   * `Aborted` is an exception escaping the generator, which ends the stream.
   */
  datatype Event =
    | Data(body: Json)
    | RowData(row: SectionRow)
    | SectionData(section: Section)
    | DataText(text: string)
    | Close
    | Aborted(error: string)

  /** The JSON a `data:` event carries. */
  function Payload(e: Event): Option<Json>
  {
    match e
    case Data(body) => Some(body)
    case RowData(row) => Some(RowJson(row))
    case SectionData(section) => Some(SectionDict(section, true))
    case _ => None
  }

  /** The fields of an entry the streams read. */
  datatype EntryHead = EntryHead(proficiency: Proficiency, topic: string)

  const MissingEntryIdMessage: string := "Missing argument: 'entry_id'."
  const MissingSectionIdMessage: string := "Missing argument: 'section_id'."
  const NoEntryMessage: string := "No entry exists for the given ID."
  const NoSectionMessage: string := "No section exists for the given ID."
  const NoSectionEntryMessage: string := "No entry exists for the given section ID."
  const RelatedTopicsExistMessage: string := "This entry's related topics have already been created."
  const SectionExistsMessage: string := "This section has already been created."
  const SectionsExistMessage: string := "This entry has already been created."
  const SectionFailedMessage: string := "There was an error generating this section."
  const SectionsFailedMessage: string := "There was an error generating sections."

  /** The `data:` event of an error response. */
  function ErrorEvent(status: ResponseStatus, message: string): Event
  {
    Data(ErrorBody(status.Value(), message))
  }

  /** A stream that ends with its only `event: close`. */
  predicate ClosedOnce(s: seq<Event>)
  {
    |s| > 0 && s[|s| - 1] == Close && forall i :: 0 <= i < |s| - 1 ==> s[i] != Close
  }

  /** The `data:` events of rows, one per row, in order. */
  function RowEvents(rows: seq<SectionRow>): (r: seq<Event>)
  {
    seq(|rows|, k requires 0 <= k < |rows| => RowData(rows[k]))
  }

  lemma RowEventsSnoc(rows: seq<SectionRow>, row: SectionRow)
    ensures RowEvents(rows + [row]) == RowEvents(rows) + [RowData(row)]
  {
    assert forall k :: 0 <= k < |rows| ==> RowEvents(rows + [row])[k] == RowEvents(rows)[k];
  }

  lemma RowEventsAppend(a: seq<SectionRow>, b: seq<SectionRow>)
    ensures RowEvents(a + b) == RowEvents(a) + RowEvents(b)
  {
    assert forall k :: 0 <= k < |a + b| ==> RowEvents(a + b)[k] == (RowEvents(a) + RowEvents(b))[k];
  }

  /** Row events contain no close marker. */
  lemma RowEventsThenClose(prefix: seq<Event>, rows: seq<SectionRow>)
    ensures var s := prefix + RowEvents(rows) + [Close];
      |s| > |prefix| && s[..|prefix|] == prefix && ClosedOnce(s[|prefix|..])
  {
    var s := prefix + RowEvents(rows) + [Close];
    assert s[|prefix|..] == RowEvents(rows) + [Close];
  }

  /** The `data:` events of created related topics. */
  function TopicEvents(topics: seq<RelatedTopic>): (r: seq<Event>)
  {
    seq(|topics|, k requires 0 <= k < |topics| => Data(RelatedTopicDict(topics[k])))
  }

  /** Topic events contain no close marker. */
  lemma TopicEventsThenClose(prefix: seq<Event>, topics: seq<RelatedTopic>)
    ensures var s := prefix + TopicEvents(topics) + [Close];
      |s| > |prefix| && s[..|prefix|] == prefix && ClosedOnce(s[|prefix|..])
  {
    var s := prefix + TopicEvents(topics) + [Close];
    assert s[|prefix|..] == TopicEvents(topics) + [Close];
  }

  /** The related-topic rows created for `entryId`, with ids from `firstId` on. */
  function TopicRows(entryId: Uuid, topics: seq<string>, firstId: Uuid): (r: seq<RelatedTopic>)
  {
    seq(|topics|, k requires 0 <= k < |topics| => RelatedTopic(firstId + k, entryId, topics[k]))
  }

  // ---------------------------------------------------------------------------
  // make_sections: the plan a table of contents gives
  // ---------------------------------------------------------------------------

  /** What the generation of an entry's sections needs to know about the entry. */
  datatype Generation = Generation(entryId: Uuid, proficiency: string, topic: string, llm: Llm, render: Renderer)

  /** The content of a title: generated when `eager`, absent otherwise. */
  function ContentIf(g: Generation, title: string, eager: bool): (string, string)
  {
    if eager then SectionContent(g.llm, g.render, g.proficiency, Some(title), g.topic) else ("", "")
  }

  /** The row of subsection j of the section `parent`. */
  function PlannedSubsection(g: Generation, title: string, j: nat, id: Uuid, parent: Uuid, eager: bool): SectionRow
  {
    var c := ContentIf(g, title, eager);
    SectionRow(id, g.entryId, j, Some(title), c.1, c.0, Some(parent))
  }

  /** Item i of the table of contents as the section `make_sections` creates, its row having id `id`. */
  function PlannedSection(g: Generation, item: TocItem, i: nat, id: Uuid): Section
  {
    var c := ContentIf(g, item.title, i == 0);
    Section(SectionRow(id, g.entryId, i, Some(item.title), c.1, c.0, None),
            seq(|item.subsections|, j requires 0 <= j < |item.subsections| =>
              PlannedSubsection(g, item.subsections[j], j, id + 1 + j, id, i == 0)))
  }

  /** The rows of sections in the order they are created: each section, then its subsections. */
  function Flatten(ss: seq<Section>): seq<SectionRow>
  {
    if ss == [] then [] else Flatten(ss[..|ss| - 1]) + [ss[|ss| - 1].row] + ss[|ss| - 1].subsections
  }

  /** The rows the first i items of a table of contents ask for: one per item and one per subsection title. */
  function RowsBefore(toc: seq<TocItem>, i: nat): nat
    requires i <= |toc|
  {
    if i == 0 then 0 else RowsBefore(toc, i - 1) + 1 + |toc[i - 1].subsections|
  }

  /** How many rows a table of contents asks for. */
  function RowCount(toc: seq<TocItem>): nat
  {
    RowsBefore(toc, |toc|)
  }

  /** The sections made for the first i items, ids handed out from `firstId` on in creation order. */
  function PlannedUpTo(g: Generation, toc: seq<TocItem>, i: nat, firstId: Uuid): (r: seq<Section>)
    requires i <= |toc|
    ensures |r| == i
  {
    if i == 0 then []
    else PlannedUpTo(g, toc, i - 1, firstId) + [PlannedSection(g, toc[i - 1], i - 1, firstId + RowsBefore(toc, i - 1))]
  }

  /** The sections `make_sections` creates for a table of contents. */
  function PlannedSections(g: Generation, toc: seq<TocItem>, firstId: Uuid): seq<Section>
  {
    PlannedUpTo(g, toc, |toc|, firstId)
  }

  /** The section requests of `make_sections`: the first section's title, then its subsections' titles. */
  function PlannedCalls(g: Generation, toc: seq<TocItem>): seq<LlmCall>
  {
    if toc == [] then []
    else [SectionCall(g.proficiency, Some(toc[0].title), g.topic)] + SubsectionCalls(g, toc[0].subsections)
  }

  function SubsectionCalls(g: Generation, titles: seq<string>): (r: seq<LlmCall>)
  {
    seq(|titles|, j requires 0 <= j < |titles| => SectionCall(g.proficiency, Some(titles[j]), g.topic))
  }

  lemma SubsectionCallsSnoc(g: Generation, titles: seq<string>, j: nat)
    requires j < |titles|
    ensures SubsectionCalls(g, titles[..j + 1]) == SubsectionCalls(g, titles[..j]) + [SectionCall(g.proficiency, Some(titles[j]), g.topic)]
  {
    assert forall k :: 0 <= k < j ==> titles[..j + 1][k] == titles[..j][k];
  }

  /** `sections` with every planned section stored under its id. */
  function AddSections(m: map<Uuid, Section>, ss: seq<Section>): map<Uuid, Section>
  {
    if ss == [] then m else AddSections(m, ss[..|ss| - 1])[ss[|ss| - 1].row.id := ss[|ss| - 1]]
  }

  /** Item k of the table of contents becomes section k, its row numbered after the rows of the items before it. */
  lemma {:induction false} PlannedIndex(g: Generation, toc: seq<TocItem>, i: nat, firstId: Uuid, k: nat)
    requires k < i <= |toc|
    ensures |PlannedUpTo(g, toc, i, firstId)| == i
    ensures PlannedUpTo(g, toc, i, firstId)[k] == PlannedSection(g, toc[k], k, firstId + RowsBefore(toc, k))
  {
    if k < i - 1 {
      PlannedIndex(g, toc, i - 1, firstId, k);
    } else if i > 1 {
      PlannedIndex(g, toc, i - 1, firstId, 0);
    }
  }

  /** Planning the first i items gives the first i sections of any longer plan. */
  lemma {:induction false} PlannedPrefix(g: Generation, toc: seq<TocItem>, i: nat, j: nat, firstId: Uuid)
    requires i <= j <= |toc|
    ensures |PlannedUpTo(g, toc, j, firstId)| == j
    ensures PlannedUpTo(g, toc, j, firstId)[..i] == PlannedUpTo(g, toc, i, firstId)
    decreases j
  {
    if j > 0 {
      PlannedPrefix(g, toc, if i == j then i - 1 else i, j - 1, firstId);
    }
    if i < j {
      var b := PlannedUpTo(g, toc, j, firstId);
      assert b[..j - 1] == PlannedUpTo(g, toc, j - 1, firstId);
      assert b[..i] == b[..j - 1][..i];
    }
  }

  /** The planned rows number as many as the table of contents asks for. */
  lemma {:induction false} FlattenLength(g: Generation, toc: seq<TocItem>, i: nat, firstId: Uuid)
    requires i <= |toc|
    ensures |Flatten(PlannedUpTo(g, toc, i, firstId))| == RowsBefore(toc, i)
  {
    if i > 0 {
      var done := PlannedUpTo(g, toc, i - 1, firstId);
      var s := PlannedSection(g, toc[i - 1], i - 1, firstId + RowsBefore(toc, i - 1));
      FlattenLength(g, toc, i - 1, firstId);
      assert (done + [s])[..|done|] == done;
    }
  }

  /** Consecutive ids stay consecutive when a section with consecutive ids is appended. */
  lemma AppendConsecutive(rows: seq<SectionRow>, s: Section, firstId: Uuid)
    requires forall k :: 0 <= k < |rows| ==> rows[k].id == firstId + k
    requires s.row.id == firstId + |rows|
    requires forall j :: 0 <= j < |s.subsections| ==> s.subsections[j].id == s.row.id + 1 + j
    ensures var all := rows + [s.row] + s.subsections;
      forall k :: 0 <= k < |all| ==> all[k].id == firstId + k
  {
    var all := rows + [s.row] + s.subsections;
    forall k | 0 <= k < |all| ensures all[k].id == firstId + k {
      if k > |rows| {
        assert all[k] == s.subsections[k - |rows| - 1];
      }
    }
  }

  /** A planned section's subsections take the ids following its own. */
  lemma PlannedSectionIds(g: Generation, item: TocItem, i: nat, id: Uuid)
    ensures var s := PlannedSection(g, item, i, id);
      s.row.id == id && forall j :: 0 <= j < |s.subsections| ==> s.subsections[j].id == id + 1 + j
  {
  }

  /** A section whose row has id `id` and whose subsections take the ids following it. */
  predicate IdsFrom(s: Section, id: Uuid)
  {
    s.row.id == id && forall j :: 0 <= j < |s.subsections| ==> s.subsections[j].id == id + 1 + j
  }

  /** Section i is numbered on from the rows of the sections before it. */
  predicate NumberedAt(ss: seq<Section>, i: nat, firstId: Uuid)
    requires i < |ss|
  {
    IdsFrom(ss[i], firstId + |Flatten(ss[..i])|)
  }

  /** Sections each numbered on from the rows before them give consecutive row ids. */
  lemma {:induction false} FlattenIds(ss: seq<Section>, firstId: Uuid)
    requires forall i :: 0 <= i < |ss| ==> NumberedAt(ss, i, firstId)
    ensures var rows := Flatten(ss);
      forall k :: 0 <= k < |rows| ==> rows[k].id == firstId + k
    decreases |ss|
  {
    if ss != [] {
      var n := |ss|;
      var init := ss[..n - 1];
      var last := ss[n - 1];
      forall i | 0 <= i < |init| ensures NumberedAt(init, i, firstId) {
        assert NumberedAt(ss, i, firstId);
        assert init[i] == ss[i] && init[..i] == ss[..i];
      }
      FlattenIds(init, firstId);
      assert NumberedAt(ss, n - 1, firstId);
      assert IdsFrom(last, firstId + |Flatten(init)|);
      AppendConsecutive(Flatten(init), last, firstId);
      assert Flatten(ss) == Flatten(init) + [last.row] + last.subsections;
    }
  }

  /** The rows are created with consecutive ids from `firstId` on, so every id is fresh and used once. */
  lemma PlannedIds(g: Generation, toc: seq<TocItem>, firstId: Uuid)
    ensures var rows := Flatten(PlannedSections(g, toc, firstId));
      forall k :: 0 <= k < |rows| ==> rows[k].id == firstId + k
  {
    var all := PlannedSections(g, toc, firstId);
    PlannedPrefix(g, toc, 0, |toc|, firstId);
    forall i | 0 <= i < |all| ensures NumberedAt(all, i, firstId) {
      PlannedPrefix(g, toc, i, |toc|, firstId);
      FlattenLength(g, toc, i, firstId);
      PlannedIndex(g, toc, |toc|, firstId, i);
      PlannedSectionIds(g, toc[i], i, firstId + RowsBefore(toc, i));
    }
    FlattenIds(all, firstId);
  }

  /**
   * The numbering of `make_sections`: top-level section i has index i, the
   * title of item i and no parent; its subsection j has index j, the title
   * of subsection j of item i and the section's id as parent. Only section 0
   * and its subsections get generated content.
   */
  lemma PlannedNumbering(g: Generation, toc: seq<TocItem>, firstId: Uuid, i: nat)
    requires i < |toc|
    ensures var s := PlannedSections(g, toc, firstId)[i];
      && s.row.index == i && s.row.title == Some(toc[i].title) && s.row.parentId == None
      && s.row.entryId == g.entryId
      && |s.subsections| == |toc[i].subsections|
      && (forall j :: 0 <= j < |s.subsections| ==>
            && s.subsections[j].index == j
            && s.subsections[j].title == Some(toc[i].subsections[j])
            && s.subsections[j].parentId == Some(s.row.id)
            && s.subsections[j].entryId == g.entryId)
      && (i == 0 ==> s.row.contentMd == g.llm.section(g.proficiency, Some(toc[i].title), g.topic).GetOr(""))
      && (i == 0 ==> forall j :: 0 <= j < |s.subsections| ==>
            s.subsections[j].contentMd == g.llm.section(g.proficiency, Some(toc[i].subsections[j]), g.topic).GetOr(""))
      && (i > 0 ==> s.row.contentMd == "" && s.row.contentHtml == "")
      && (i > 0 ==> forall j :: 0 <= j < |s.subsections| ==>
            s.subsections[j].contentMd == "" && s.subsections[j].contentHtml == "")
  {
    PlannedIndex(g, toc, |toc|, firstId, i);
  }

  /** The first item's requests are all the requests of the plan. */
  lemma FirstItemCalls(g: Generation, toc: seq<TocItem>)
    requires toc != []
    ensures PlannedCalls(g, [toc[0]]) == PlannedCalls(g, toc)
  {
  }

  lemma ConcatAssociative<T>(a: seq<T>, b: seq<T>, c: seq<T>)
    ensures a + (b + c) == a + b + c
  {
  }

  /** Storing and streaming one more section. */
  lemma AppendSection(m: map<Uuid, Section>, done: seq<Section>, s: Section)
    ensures AddSections(m, done + [s]) == AddSections(m, done)[s.row.id := s]
    ensures RowEvents(Flatten(done + [s])) == RowEvents(Flatten(done)) + RowEvents([s.row] + s.subsections)
  {
    assert (done + [s])[..|done|] == done;
    assert Flatten(done + [s]) == Flatten(done) + [s.row] + s.subsections;
    RowEventsAppend(Flatten(done), [s.row] + s.subsections);
    assert Flatten(done) + [s.row] + s.subsections == Flatten(done) + ([s.row] + s.subsections);
  }

  /**
   * The body of the loop of `make_sections` for item i of the table of
   * contents, whose row gets id `id`: the section, the events it yields and
   * the requests it makes.
   */
  method BuildSection(g: Generation, item: TocItem, i: nat, id: Uuid) returns (s: Section, out: seq<Event>, reqs: seq<LlmCall>)
    ensures s == PlannedSection(g, item, i, id)
    ensures out == RowEvents([s.row] + s.subsections)
    ensures reqs == if i == 0 then PlannedCalls(g, [item]) else []
  {
    ghost var target := PlannedSection(g, item, i, id);
    reqs := [];
    var c := ("", "");
    if i == 0 {
      reqs := [SectionCall(g.proficiency, Some(item.title), g.topic)];
      c := SectionContent(g.llm, g.render, g.proficiency, Some(item.title), g.topic);
    }
    var row := SectionRow(id, g.entryId, i, Some(item.title), c.1, c.0, None);
    var subs: seq<SectionRow> := [];
    out := [RowData(row)];
    var j := 0;
    while j < |item.subsections|
      invariant 0 <= j <= |item.subsections|
      invariant subs == target.subsections[..j]
      invariant out == RowEvents([row] + subs)
      invariant reqs == if i == 0 then [SectionCall(g.proficiency, Some(item.title), g.topic)]
                                       + SubsectionCalls(g, item.subsections[..j]) else []
    {
      var title := item.subsections[j];
      var sc := ("", "");
      if i == 0 {
        SubsectionCallsSnoc(g, item.subsections, j);
        reqs := reqs + [SectionCall(g.proficiency, Some(title), g.topic)];
        sc := SectionContent(g.llm, g.render, g.proficiency, Some(title), g.topic);
      }
      var sub := SectionRow(id + 1 + j, g.entryId, j, Some(title), sc.1, sc.0, Some(id));
      assert target.subsections[..j + 1] == subs + [sub];
      RowEventsSnoc([row] + subs, sub);
      out := out + [RowData(sub)];
      subs := subs + [sub];
      j := j + 1;
    }
    assert subs == target.subsections;
    s := Section(row, subs);
  }

  // ---------------------------------------------------------------------------
  // make_section: filling in the content of a stored section
  // ---------------------------------------------------------------------------

  /** The section requests for the titles of stored rows, in order. */
  function TitleCalls(g: Generation, rows: seq<SectionRow>): seq<LlmCall>
  {
    seq(|rows|, j requires 0 <= j < |rows| => SectionCall(g.proficiency, rows[j].title, g.topic))
  }

  /** A stored row with the content generated for its title. */
  function Filled(g: Generation, row: SectionRow): (r: SectionRow)
  {
    var c := SectionContent(g.llm, g.render, g.proficiency, row.title, g.topic);
    row.(contentHtml := c.1, contentMd := c.0)
  }

  /** The subsections as `make_section` leaves them: each with the content generated for its own title. */
  function FilledSubsections(g: Generation, subs: seq<SectionRow>): (r: seq<SectionRow>)
  {
    seq(|subs|, j requires 0 <= j < |subs| => Filled(g, subs[j]))
  }

  /**
   * Every filled subsection keeps its id, index, title and parent, and its
   * HTML is rendered from its own Markdown: none when that is empty.
   */
  lemma FilledSubsectionsOwnHtml(g: Generation, subs: seq<SectionRow>, j: nat)
    requires j < |subs|
    ensures var r := FilledSubsections(g, subs)[j];
      && r.id == subs[j].id && r.index == subs[j].index && r.title == subs[j].title
      && r.parentId == subs[j].parentId && r.entryId == subs[j].entryId
      && r.contentMd == g.llm.section(g.proficiency, subs[j].title, g.topic).GetOr("")
      && (r.contentMd == "" ==> r.contentHtml == "")
      && (r.contentMd != "" ==> r.contentHtml == g.render(FootnotesSuperFencesTables, r.contentMd))
  {
  }

  /**
   * The subsection loop of `make_section` as written: `content_html` is
   * assigned only when the new Markdown is non-empty, so a subsection whose
   * generation fails keeps the HTML of the row rendered before it.
   */
  function FilledSubsectionsAsWritten(g: Generation, subs: seq<SectionRow>, html: string): (r: seq<SectionRow>)
    ensures |r| == |subs|
  {
    if subs == [] then []
    else
      var md := g.llm.section(g.proficiency, subs[0].title, g.topic).GetOr("");
      var h := if md != "" then g.render(FootnotesSuperFencesTables, md) else html;
      [subs[0].(contentHtml := h, contentMd := md)] + FilledSubsectionsAsWritten(g, subs[1..], h)
  }

  /**
   * A section whose content generates and a subsection whose content does
   * not: as written, the subsection is stored with no Markdown but with the
   * section's HTML; the corrected loop stores it with no HTML.
   */
  lemma SubsectionKeepsStaleHtml()
    ensures var llm := Llm(t => None, t => None, t => None, t => None, (p, t) => None, (p, t) => None,
                           (p, title, t) => if title == Some("A") then Some("a") else None);
      var g := Generation(0, "", "", llm, (x, md) => "<p>" + md + "</p>");
      var sub := SectionRow(2, 0, 0, Some("B"), "", "", Some(1));
      var sectionHtml := Filled(g, SectionRow(1, 0, 0, Some("A"), "", "", None)).contentHtml;
      && sectionHtml == "<p>a</p>"
      && FilledSubsectionsAsWritten(g, [sub], sectionHtml)[0].contentMd == ""
      && FilledSubsectionsAsWritten(g, [sub], sectionHtml)[0].contentHtml == "<p>a</p>"
      && FilledSubsections(g, [sub])[0].contentHtml == ""
  {
  }

  /**
   * The subsection loop of `make_section`, with each subsection's HTML taken
   * from its own Markdown: the rows, the events they yield and the requests
   * made.
   */
  method FillRows(g: Generation, subs: seq<SectionRow>) returns (filled: seq<SectionRow>, out: seq<Event>, reqs: seq<LlmCall>)
    ensures filled == FilledSubsections(g, subs)
    ensures out == RowEvents(filled)
    ensures reqs == TitleCalls(g, subs)
  {
    filled, out, reqs := [], [], [];
    var j := 0;
    while j < |subs|
      invariant 0 <= j <= |subs|
      invariant filled == FilledSubsections(g, subs[..j])
      invariant out == RowEvents(filled)
      invariant reqs == TitleCalls(g, subs[..j])
    {
      var md := g.llm.section(g.proficiency, subs[j].title, g.topic).GetOr("");
      var html := if md != "" then g.render(FootnotesSuperFencesTables, md) else "";
      var row := subs[j].(contentHtml := html, contentMd := md);
      assert subs[..j + 1] == subs[..j] + [subs[j]];
      assert FilledSubsections(g, subs[..j + 1]) == filled + [row];
      assert TitleCalls(g, subs[..j + 1]) == reqs + [SectionCall(g.proficiency, subs[j].title, g.topic)];
      RowEventsSnoc(filled, row);
      filled := filled + [row];
      out := out + [RowData(row)];
      reqs := reqs + [SectionCall(g.proficiency, subs[j].title, g.topic)];
      j := j + 1;
    }
    assert subs[..j] == subs;
  }

  /** Every section stored under its own id below `n`, and every other id below `n` too. */
  ghost predicate IdsBelow(sections: map<Uuid, Section>, relatedTopics: seq<RelatedTopic>, n: Uuid)
  {
    && (forall k :: k in sections ==> sections[k].row.id == k && k < n)
    && (forall k, j :: k in sections && 0 <= j < |sections[k].subsections| ==> sections[k].subsections[j].id < n)
    && (forall i :: 0 <= i < |relatedTopics| ==> relatedTopics[i].id < n)
  }

  /** Storing a section whose rows take the ids from `n` on keeps every id below the next free one. */
  lemma IdsBelowPut(sections: map<Uuid, Section>, relatedTopics: seq<RelatedTopic>, n: Uuid, s: Section)
    requires IdsBelow(sections, relatedTopics, n)
    requires s.row.id == n && forall j :: 0 <= j < |s.subsections| ==> s.subsections[j].id == n + 1 + j
    ensures IdsBelow(sections[n := s], relatedTopics, n + 1 + |s.subsections|)
  {
  }

  /** Replacing a stored section by one with the same ids keeps every id below `n`. */
  lemma IdsBelowReplace(sections: map<Uuid, Section>, relatedTopics: seq<RelatedTopic>, n: Uuid, k: Uuid, s: Section)
    requires IdsBelow(sections, relatedTopics, n) && k in sections
    requires s.row.id == k && |s.subsections| == |sections[k].subsections|
    requires forall j :: 0 <= j < |s.subsections| ==> s.subsections[j].id == sections[k].subsections[j].id
    ensures IdsBelow(sections[k := s], relatedTopics, n)
  {
  }

  // ---------------------------------------------------------------------------
  // make_chat_completion: the chat beside a section
  // ---------------------------------------------------------------------------

  /** A stream that ends with `event: close` or with an exception, and has no earlier end. */
  predicate Ended(s: seq<Event>)
  {
    && |s| > 0 && (s[|s| - 1] == Close || s[|s| - 1].Aborted?)
    && forall i :: 0 <= i < |s| - 1 ==> s[i] != Close && !s[i].Aborted?
  }

  /** The history a query is added to: the stored one, unless there is none, it is empty or the chat is reset. */
  function BaseHistory(histories: map<Uuid, seq<ChatMessage>>, sectionId: Uuid, resetChat: bool): (r: seq<ChatMessage>)
    ensures r == [] || (sectionId in histories && r == histories[sectionId])
    ensures resetChat ==> r == []
  {
    if sectionId !in histories || histories[sectionId] == [] || resetChat then [] else histories[sectionId]
  }

  /**
   * The Markdown the chat is about: the section's, else the fun fact's with
   * that id. A section not generated yet has no Markdown (an empty
   * `contentMd` in its row; generated text is never empty), which the
   * prompt's f-string renders as `None`.
   */
  function ChatSubject(sections: map<Uuid, Section>, funFacts: map<Uuid, FunFact>, id: Uuid): (r: Option<string>)
    ensures r.Some? <==> id in sections || id in funFacts
    ensures id in sections && sections[id].row.contentMd != "" ==> r == Some(sections[id].row.contentMd)
    ensures id in sections && sections[id].row.contentMd == "" ==> r == Some("None")
    ensures id !in sections && id in funFacts ==> r == Some(funFacts[id].contentMd)
  {
    if id in sections then
      var md := sections[id].row.contentMd;
      Some(ArgText(if md == "" then None else Some(md)))
    else if id in funFacts then Some(funFacts[id].contentMd)
    else None
  }

  /** The user's message: the query and its HTML, in the chat of the section, from the signed-in user if any. */
  function UserMessage(sectionId: Uuid, queryMd: string, render: Renderer, creatorId: Option<int>): ChatMessage
  {
    ChatMessage(None, Some(sectionId), render(SuperFencesTables, queryMd), queryMd, creatorId, SenderRole.User, None)
  }

  /** The assistant's message: the completion and its HTML, with no sender. */
  function AssistantMessage(sectionId: Uuid, replyMd: string, render: Renderer): ChatMessage
  {
    ChatMessage(None, Some(sectionId), render(FootnotesSuperFencesTables, replyMd), replyMd, None, SenderRole.Assistant, None)
  }

  /**
   * A completed exchange adds exactly two messages to the history it was
   * given: the user's, carrying the context only when it opens the
   * conversation, then the assistant's.
   */
  lemma ExchangeAppendsTwo(base: seq<ChatMessage>, user: ChatMessage, context: string, assistant: ChatMessage)
    ensures var h := Gpt.InjectContext(base + [user], context) + [assistant];
      && |h| == |base| + 2
      && h[|base| + 1] == assistant
      && h[|base|].senderRole == user.senderRole && h[|base|].contentHtml == user.contentHtml
      && (base != [] ==> h[..|base|] == base && h[|base|] == user)
      && (base == [] ==> h[0].contentMd == Gpt.ContextPrefix(context) + user.contentMd)
  {
    if base != [] {
      assert |base + [user]| != 1;
    }
  }

  /** A missing argument reaches the prompt's f-string as the text `None`. */
  function ArgText(arg: Option<string>): string
  {
    if arg.Some? then arg.value else "None"
  }

  // ---------------------------------------------------------------------------
  // The store and the streams
  // ---------------------------------------------------------------------------

  /**
   * The rows the streams read and write, the module-level chat histories,
   * the id the next created row gets, and what has been streamed and asked
   * of the generators so far.
   */
  class EntryStore {
    var entries: map<Uuid, EntryHead>
    /** Top-level sections with their subsections, as `EntrySection.get_by_id` loads them. */
    var sections: map<Uuid, Section>
    var relatedTopics: seq<RelatedTopic>
    var funFacts: map<Uuid, FunFact>
    var chatHistories: map<Uuid, seq<ChatMessage>>
    var nextId: Uuid
    var events: seq<Event>
    var calls: seq<LlmCall>
    const llm: Llm
    const render: Renderer

    /** Every stored section sits under its own id, and every stored id is below `nextId`. */
    ghost predicate Valid()
      reads this
    {
      IdsBelow(sections, relatedTopics, nextId)
    }

    constructor (llm: Llm, render: Renderer)
      ensures Valid()
      ensures entries == map[] && sections == map[] && relatedTopics == [] && funFacts == map[]
      ensures chatHistories == map[] && events == [] && calls == []
      ensures this.llm == llm && this.render == render
    {
      this.llm := llm;
      this.render := render;
      entries, sections, relatedTopics, funFacts := map[], map[], [], map[];
      chatHistories, nextId, events, calls := map[], 0, [], [];
    }

    /** The loaded entry has sections. */
    predicate HasSections(id: Uuid)
      reads this
    {
      exists k :: k in sections && sections[k].row.entryId == id
    }

    /** The loaded entry has related topics. */
    predicate HasRelatedTopics(id: Uuid)
      reads this
    {
      exists i :: 0 <= i < |relatedTopics| && relatedTopics[i].entryId == id
    }

    /** Appends a whole stream that ends the request: an error, a close or an abort. */
    method Emit(ev: seq<Event>)
      requires Valid() && Ended(ev)
      modifies this
      ensures Valid() && events == old(events) + ev
      ensures |events| > |old(events)| && events[..|old(events)|] == old(events)
      ensures Ended(events[|old(events)|..])
      ensures ClosedOnce(ev) ==> ClosedOnce(events[|old(events)|..])
      ensures entries == old(entries) && sections == old(sections) && relatedTopics == old(relatedTopics)
      ensures funFacts == old(funFacts) && nextId == old(nextId) && chatHistories == old(chatHistories)
      ensures calls == old(calls)
    {
      assert (events + ev)[..|events|] == events && (events + ev)[|events|..] == ev;
      events := events + ev;
    }

    /** The stream of `get_related_topics`. */
    method GetRelatedTopics(entryId: Option<Uuid>)
      requires Valid()
      modifies this
      ensures Valid()
      ensures |events| > |old(events)| && events[..|old(events)|] == old(events)
      ensures ClosedOnce(events[|old(events)|..])
      ensures entries == old(entries) && sections == old(sections) && funFacts == old(funFacts)
      ensures chatHistories == old(chatHistories)
      ensures entryId == None ==> events == old(events) + [ErrorEvent(BadRequest, MissingEntryIdMessage), Close]
      ensures entryId.Some? && entryId.value !in entries ==>
        events == old(events) + [ErrorEvent(NotFound, NoEntryMessage), Close]
      ensures entryId.Some? && entryId.value in entries && old(HasRelatedTopics(entryId.value)) ==>
        events == old(events) + [ErrorEvent(AlreadyExists, RelatedTopicsExistMessage), Close]
      ensures !(entryId.Some? && entryId.value in entries && !old(HasRelatedTopics(entryId.value))) ==>
        relatedTopics == old(relatedTopics) && calls == old(calls) && nextId == old(nextId)
      ensures entryId.Some? && entryId.value in entries && !old(HasRelatedTopics(entryId.value)) ==>
        var e := entries[entryId.value];
        var prompt := e.proficiency.PromptFormat();
        var created := TopicRows(entryId.value, llm.relatedTopics(prompt, e.topic).GetOr([]), old(nextId));
        && calls == old(calls) + [RelatedTopicsCall(prompt, e.topic)]
        && relatedTopics == old(relatedTopics) + created
        && nextId == old(nextId) + |created|
        && events == old(events) + TopicEvents(created) + [Close]
    {
      if entryId.None? {
        Emit([ErrorEvent(BadRequest, MissingEntryIdMessage), Close]);
        return;
      }
      var id := entryId.value;
      if id !in entries {
        Emit([ErrorEvent(NotFound, NoEntryMessage), Close]);
        return;
      }
      if HasRelatedTopics(id) {
        Emit([ErrorEvent(AlreadyExists, RelatedTopicsExistMessage), Close]);
        return;
      }
      var e := entries[id];
      var prompt := e.proficiency.PromptFormat();
      calls := calls + [RelatedTopicsCall(prompt, e.topic)];
      var topics := llm.relatedTopics(prompt, e.topic).GetOr([]);
      ghost var before := events;
      AddRelatedTopics(id, topics);
      TopicEventsThenClose(before, TopicRows(id, topics, old(nextId)));
      events := events + [Close];
    }

    /** The loop of `get_related_topics`: one row and one event per topic, ids from `nextId` on. */
    method AddRelatedTopics(id: Uuid, topics: seq<string>)
      requires Valid()
      modifies this
      ensures Valid()
      ensures relatedTopics == old(relatedTopics) + TopicRows(id, topics, old(nextId))
      ensures nextId == old(nextId) + |topics|
      ensures events == old(events) + TopicEvents(TopicRows(id, topics, old(nextId)))
      ensures entries == old(entries) && sections == old(sections) && funFacts == old(funFacts)
      ensures chatHistories == old(chatHistories) && calls == old(calls)
    {
      var i := 0;
      while i < |topics|
        invariant 0 <= i <= |topics|
        invariant nextId == old(nextId) + i
        invariant relatedTopics == old(relatedTopics) + TopicRows(id, topics[..i], old(nextId))
        invariant events == old(events) + TopicEvents(TopicRows(id, topics[..i], old(nextId)))
        invariant Valid()
        invariant entries == old(entries) && sections == old(sections) && funFacts == old(funFacts)
        invariant chatHistories == old(chatHistories) && calls == old(calls)
      {
        var topic := RelatedTopic(nextId, id, topics[i]);
        assert TopicRows(id, topics[..i + 1], old(nextId)) == TopicRows(id, topics[..i], old(nextId)) + [topic];
        relatedTopics := relatedTopics + [topic];
        events := events + [Data(RelatedTopicDict(topic))];
        nextId := nextId + 1;
        i := i + 1;
      }
      assert topics[..i] == topics;
    }

    /** The stream of `make_sections`: the table of contents, then every section and subsection it names. */
    method MakeSections(entryId: Option<Uuid>)
      requires Valid()
      modifies this
      ensures Valid()
      ensures |events| > |old(events)| && events[..|old(events)|] == old(events)
      ensures ClosedOnce(events[|old(events)|..])
      ensures entries == old(entries) && relatedTopics == old(relatedTopics) && funFacts == old(funFacts)
      ensures chatHistories == old(chatHistories)
      ensures entryId == None ==> events == old(events) + [ErrorEvent(BadRequest, MissingEntryIdMessage), Close]
      ensures entryId.Some? && entryId.value !in entries ==>
        events == old(events) + [ErrorEvent(NotFound, NoEntryMessage), Close]
      ensures entryId.Some? && entryId.value in entries && old(HasSections(entryId.value)) ==>
        events == old(events) + [ErrorEvent(AlreadyExists, SectionsExistMessage), Close]
      ensures !(entryId.Some? && entryId.value in entries && !old(HasSections(entryId.value))) ==>
        sections == old(sections) && calls == old(calls) && nextId == old(nextId)
      ensures entryId.Some? && entryId.value in entries && !old(HasSections(entryId.value)) ==>
        var e := entries[entryId.value];
        var prompt := e.proficiency.PromptFormat();
        var toc := llm.tableOfContents(prompt, e.topic).GetOr([]);
        var plan := PlannedSections(Generation(entryId.value, prompt, e.topic, llm, render), toc, old(nextId));
        && calls == old(calls) + [TableOfContentsCall(prompt, e.topic)]
                    + PlannedCalls(Generation(entryId.value, prompt, e.topic, llm, render), toc)
        && (toc == [] ==> events == old(events) + [ErrorEvent(NoContent, SectionsFailedMessage), Close])
        && sections == AddSections(old(sections), plan)
        && nextId == old(nextId) + RowCount(toc)
        && (toc != [] ==> events == old(events) + RowEvents(Flatten(plan)) + [Close])
    {
      if entryId.None? {
        Emit([ErrorEvent(BadRequest, MissingEntryIdMessage), Close]);
        return;
      }
      var id := entryId.value;
      if id !in entries {
        Emit([ErrorEvent(NotFound, NoEntryMessage), Close]);
        return;
      }
      if HasSections(id) {
        Emit([ErrorEvent(AlreadyExists, SectionsExistMessage), Close]);
        return;
      }
      var e := entries[id];
      var prompt := e.proficiency.PromptFormat();
      calls := calls + [TableOfContentsCall(prompt, e.topic)];
      var toc := llm.tableOfContents(prompt, e.topic).GetOr([]);
      if toc == [] {
        Emit([ErrorEvent(NoContent, SectionsFailedMessage), Close]);
        return;
      }
      var g := Generation(id, prompt, e.topic, llm, render);
      ghost var before := events;
      AddPlannedSections(g, toc);
      RowEventsThenClose(before, Flatten(PlannedSections(g, toc, old(nextId))));
      events := events + [Close];
    }

    /**
     * The store after the loop of `make_sections` has handled the first i
     * items, starting from sections `m0`, events `e0`, requests `c0` and id `n0`.
     */
    ghost predicate PlannedAt(g: Generation, toc: seq<TocItem>, i: nat,
                              m0: map<Uuid, Section>, e0: seq<Event>, c0: seq<LlmCall>, n0: Uuid)
      requires i <= |toc|
      reads this
    {
      && sections == AddSections(m0, PlannedUpTo(g, toc, i, n0))
      && nextId == n0 + RowsBefore(toc, i)
      && events == e0 + RowEvents(Flatten(PlannedUpTo(g, toc, i, n0)))
      && calls == c0 + (if i == 0 then [] else PlannedCalls(g, toc))
    }

    /** The loop of `make_sections` over the table of contents. */
    method AddPlannedSections(g: Generation, toc: seq<TocItem>)
      requires Valid()
      modifies this
      ensures Valid()
      ensures sections == AddSections(old(sections), PlannedSections(g, toc, old(nextId)))
      ensures nextId == old(nextId) + RowCount(toc)
      ensures events == old(events) + RowEvents(Flatten(PlannedSections(g, toc, old(nextId))))
      ensures calls == old(calls) + PlannedCalls(g, toc)
      ensures entries == old(entries) && relatedTopics == old(relatedTopics) && funFacts == old(funFacts)
      ensures chatHistories == old(chatHistories)
    {
      ghost var m0, e0, c0, n0 := sections, events, calls, nextId;
      var i := 0;
      while i < |toc|
        invariant 0 <= i <= |toc|
        invariant Valid()
        invariant PlannedAt(g, toc, i, m0, e0, c0, n0)
        invariant entries == old(entries) && relatedTopics == old(relatedTopics) && funFacts == old(funFacts)
        invariant chatHistories == old(chatHistories)
      {
        AddPlannedItem(g, toc, i, m0, e0, c0, n0);
        i := i + 1;
      }
    }

    /** One turn of the loop of `make_sections`: the store holds the plan of the first i items, then of i + 1. */
    method AddPlannedItem(g: Generation, toc: seq<TocItem>, i: nat,
                          ghost m0: map<Uuid, Section>, ghost e0: seq<Event>, ghost c0: seq<LlmCall>, ghost n0: Uuid)
      requires Valid() && i < |toc|
      requires PlannedAt(g, toc, i, m0, e0, c0, n0)
      modifies this
      ensures Valid()
      ensures PlannedAt(g, toc, i + 1, m0, e0, c0, n0)
      ensures entries == old(entries) && relatedTopics == old(relatedTopics) && funFacts == old(funFacts)
      ensures chatHistories == old(chatHistories)
    {
      ghost var done := PlannedUpTo(g, toc, i, n0);
      ghost var s := PlannedSection(g, toc[i], i, nextId);
      assert PlannedUpTo(g, toc, i + 1, n0) == done + [s];
      AppendSection(m0, done, s);
      if i == 0 {
        FirstItemCalls(g, toc);
        assert calls == c0 by { assert c0 + [] == c0; }
      } else {
        assert calls == c0 + PlannedCalls(g, toc);
      }
      AddPlannedSection(g, toc[i], i, s);
      ConcatAssociative(e0, RowEvents(Flatten(done)), RowEvents([s.row] + s.subsections));
    }

    /** One item of the table of contents: its section, then its subsections, content only for item 0. */
    method AddPlannedSection(g: Generation, item: TocItem, i: nat, ghost s: Section)
      requires Valid() && s == PlannedSection(g, item, i, nextId)
      modifies this
      ensures Valid()
      ensures sections == old(sections)[s.row.id := s]
      ensures events == old(events) + RowEvents([s.row] + s.subsections)
      ensures nextId == old(nextId) + 1 + |item.subsections|
      ensures i == 0 ==> calls == old(calls) + PlannedCalls(g, [item])
      ensures i != 0 ==> calls == old(calls)
      ensures entries == old(entries) && relatedTopics == old(relatedTopics) && funFacts == old(funFacts)
      ensures chatHistories == old(chatHistories)
    {
      var s, out, reqs := BuildSection(g, item, i, nextId);
      PlannedSectionIds(g, item, i, nextId);
      IdsBelowPut(sections, relatedTopics, nextId, s);
      sections := sections[nextId := s];
      events := events + out;
      if i == 0 {
        calls := calls + reqs;
      }
      nextId := nextId + 1 + |item.subsections|;
    }

    /** A stored section that `make_section` fills in: one without content whose entry exists. */
    predicate Fillable(sid: Uuid)
      reads this
    {
      sid in sections && sections[sid].row.contentHtml == "" && sections[sid].row.entryId in entries
    }

    /** The stream of `make_section`: a stored section's content, then each of its subsections'. */
    method MakeSection(sectionId: Option<Uuid>)
      requires Valid()
      modifies this
      ensures Valid()
      ensures |events| > |old(events)| && events[..|old(events)|] == old(events)
      ensures ClosedOnce(events[|old(events)|..])
      ensures entries == old(entries) && relatedTopics == old(relatedTopics) && funFacts == old(funFacts)
      ensures chatHistories == old(chatHistories) && nextId == old(nextId)
      ensures sectionId == None ==> events == old(events) + [ErrorEvent(BadRequest, MissingSectionIdMessage), Close]
      ensures sectionId.Some? && sectionId.value !in old(sections) ==>
        events == old(events) + [ErrorEvent(NotFound, NoSectionMessage), Close]
      ensures sectionId.Some? && sectionId.value in old(sections) && old(sections)[sectionId.value].row.contentHtml != "" ==>
        events == old(events) + [ErrorEvent(AlreadyExists, SectionExistsMessage), Close]
      ensures sectionId.Some? && sectionId.value in old(sections) && old(sections)[sectionId.value].row.contentHtml == ""
              && old(sections)[sectionId.value].row.entryId !in entries ==>
        events == old(events) + [ErrorEvent(NotFound, NoSectionEntryMessage), Close]
      ensures !(sectionId.Some? && old(Fillable(sectionId.value))) ==> sections == old(sections) && calls == old(calls)
      ensures sectionId.Some? && old(Fillable(sectionId.value)) ==>
        var s := old(sections)[sectionId.value];
        var e := entries[s.row.entryId];
        var g := Generation(s.row.entryId, e.proficiency.PromptFormat(), e.topic, llm, render);
        var row := Filled(g, s.row);
        && (row.contentMd == "" ==>
              && events == old(events) + [ErrorEvent(NoContent, SectionFailedMessage), Close]
              && sections == old(sections)
              && calls == old(calls) + [SectionCall(g.proficiency, s.row.title, g.topic)])
        && (row.contentMd != "" ==>
              && sections == old(sections)[sectionId.value := Section(row, FilledSubsections(g, s.subsections))]
              && events == old(events) + [SectionData(Section(row, s.subsections))]
                           + RowEvents(FilledSubsections(g, s.subsections)) + [Close]
              && calls == old(calls) + [SectionCall(g.proficiency, s.row.title, g.topic)] + TitleCalls(g, s.subsections))
    {
      if sectionId.None? {
        Emit([ErrorEvent(BadRequest, MissingSectionIdMessage), Close]);
        return;
      }
      var sid := sectionId.value;
      if sid !in sections {
        Emit([ErrorEvent(NotFound, NoSectionMessage), Close]);
        return;
      }
      var s := sections[sid];
      if s.row.contentHtml != "" {
        Emit([ErrorEvent(AlreadyExists, SectionExistsMessage), Close]);
        return;
      }
      if s.row.entryId !in entries {
        Emit([ErrorEvent(NotFound, NoSectionEntryMessage), Close]);
        return;
      }
      GenerateSection(sid);
    }

    /** The part of `make_section` that generates content, for a section it fills in. */
    method GenerateSection(sid: Uuid)
      requires Valid() && Fillable(sid)
      modifies this
      ensures Valid()
      ensures |events| > |old(events)| && events[..|old(events)|] == old(events)
      ensures ClosedOnce(events[|old(events)|..])
      ensures entries == old(entries) && relatedTopics == old(relatedTopics) && funFacts == old(funFacts)
      ensures chatHistories == old(chatHistories) && nextId == old(nextId)
      ensures var s := old(sections)[sid];
        var e := entries[s.row.entryId];
        var g := Generation(s.row.entryId, e.proficiency.PromptFormat(), e.topic, llm, render);
        var row := Filled(g, s.row);
        && (row.contentMd == "" ==>
              && events == old(events) + [ErrorEvent(NoContent, SectionFailedMessage), Close]
              && sections == old(sections)
              && calls == old(calls) + [SectionCall(g.proficiency, s.row.title, g.topic)])
        && (row.contentMd != "" ==>
              && sections == old(sections)[sid := Section(row, FilledSubsections(g, s.subsections))]
              && events == old(events) + [SectionData(Section(row, s.subsections))]
                           + RowEvents(FilledSubsections(g, s.subsections)) + [Close]
              && calls == old(calls) + [SectionCall(g.proficiency, s.row.title, g.topic)] + TitleCalls(g, s.subsections))
    {
      var s := sections[sid];
      var e := entries[s.row.entryId];
      var g := Generation(s.row.entryId, e.proficiency.PromptFormat(), e.topic, llm, render);
      calls := calls + [SectionCall(g.proficiency, s.row.title, g.topic)];
      var md := llm.section(g.proficiency, s.row.title, g.topic).GetOr("");
      if md == "" {
        Emit([ErrorEvent(NoContent, SectionFailedMessage), Close]);
        return;
      }
      var row := s.row.(contentHtml := render(FootnotesSuperFencesTables, md), contentMd := md);
      assert row == Filled(g, s.row);
      var subs, out, reqs := FillRows(g, s.subsections);
      IdsBelowReplace(sections, relatedTopics, nextId, sid, Section(row, subs));
      sections := sections[sid := Section(row, subs)];
      RowEventsThenClose(events + [SectionData(Section(row, s.subsections))], subs);
      events := events + [SectionData(Section(row, s.subsections))] + out + [Close];
      calls := calls + reqs;
    }

    /** The stream of `make_chat_completion`: one query about a section or fun fact, and the reply. */
    method MakeChatCompletion(context: Option<string>, entryId: Option<Uuid>, resetChat: bool, sectionId: Uuid,
                              creatorId: Option<int>, query: Option<string>, backend: Gpt.ChatBackend, enc: Gpt.Encoder)
      requires Valid()
      modifies this
      ensures Valid()
      ensures |events| > |old(events)| && events[..|old(events)|] == old(events)
      ensures Ended(events[|old(events)|..])
      ensures entries == old(entries) && sections == old(sections) && relatedTopics == old(relatedTopics)
      ensures funFacts == old(funFacts) && nextId == old(nextId)
      ensures entryId == None ==> events == old(events) + [ErrorEvent(BadRequest, MissingEntryIdMessage), Close]
      ensures entryId.Some? && entryId.value !in entries ==>
        events == old(events) + [ErrorEvent(NotFound, NoEntryMessage), Close]
      ensures entryId.Some? && entryId.value in entries && query == None ==> events == old(events) + [Aborted("AttributeError")]
      ensures entryId.Some? && entryId.value in entries && query.Some? && PyText.Strip(query.value) == "" ==>
        events == old(events) + [Close]
      ensures !(entryId.Some? && entryId.value in entries && query.Some? && PyText.Strip(query.value) != "") ==>
        chatHistories == old(chatHistories) && calls == old(calls)
      ensures entryId.Some? && entryId.value in entries && query.Some? && PyText.Strip(query.value) != "" ==>
        Answered(old(chatHistories), chatHistories, old(events), events, old(calls), calls,
                 entries[entryId.value], sectionId, PyText.Strip(query.value), context, resetChat, creatorId, backend, enc)
    {
      if entryId.None? {
        Emit([ErrorEvent(BadRequest, MissingEntryIdMessage), Close]);
        return;
      }
      if entryId.value !in entries {
        Emit([ErrorEvent(NotFound, NoEntryMessage), Close]);
        return;
      }
      if query.None? {
        Emit([Aborted("AttributeError")]);
        return;
      }
      var q := PyText.Strip(query.value);
      if q == "" {
        Emit([Close]);
        return;
      }
      Answer(entries[entryId.value], sectionId, q, context, resetChat, creatorId, backend, enc);
    }

    /**
     * How a non-empty query is answered: the user's message joins the
     * section's history; without a section or fun fact of that id the stream
     * ends with an exception, otherwise the reply is generated (see `Replied`).
     */
    ghost predicate Answered(h0: map<Uuid, seq<ChatMessage>>, h1: map<Uuid, seq<ChatMessage>>, e0: seq<Event>, e1: seq<Event>,
                             c0: seq<LlmCall>, c1: seq<LlmCall>, e: EntryHead, sectionId: Uuid, q: string,
                             context: Option<string>, resetChat: bool, creatorId: Option<int>,
                             backend: Gpt.ChatBackend, enc: Gpt.Encoder)
      reads this
    {
      var history := BaseHistory(h0, sectionId, resetChat) + [UserMessage(sectionId, q, render, creatorId)];
      var subject := ChatSubject(sections, funFacts, sectionId);
      && (subject.None? ==>
            && h1 == h0[sectionId := history]
            && c1 == c0
            && e1 == e0 + [Aborted("AttributeError")])
      && (subject.Some? ==> Replied(h0, h1, e0, e1, c0, c1, e, sectionId, subject.value, history, context, backend, enc))
    }

    /**
     * How the reply to a history is made: the history, the context injected
     * into it, is stored, one completion request is made, and its answer
     * joins the history as the assistant's message; a failed completion ends
     * the stream with an exception.
     */
    ghost predicate Replied(h0: map<Uuid, seq<ChatMessage>>, h1: map<Uuid, seq<ChatMessage>>, e0: seq<Event>, e1: seq<Event>,
                            c0: seq<LlmCall>, c1: seq<LlmCall>, e: EntryHead, sectionId: Uuid, subjectMd: string,
                            history: seq<ChatMessage>, context: Option<string>, backend: Gpt.ChatBackend, enc: Gpt.Encoder)
      reads this
    {
      var newHistory := Gpt.InjectContext(history, ArgText(context));
      var run := Gpt.ChatRun(backend, Gpt.ChatPrompt(e.topic, e.proficiency.PromptFormat(), subjectMd, newHistory,
                                                     enc, ContextLen(Gpt.ChatModel)), 0);
      && c1 == c0 + [ChatCompletionCall(run.1)]
      && (run.0.Raised? ==>
            && h1 == h0[sectionId := newHistory]
            && e1 == e0 + [Aborted("UnboundLocalError")])
      && (run.0.Completed? ==>
            && h1 == h0[sectionId := newHistory + [AssistantMessage(sectionId, run.0.text, render)]]
            && e1 == e0 + [DataText(render(FootnotesSuperFencesTables, run.0.text)), Close])
    }

    /** The part of `make_chat_completion` after the query is found non-empty. */
    method Answer(e: EntryHead, sectionId: Uuid, q: string, context: Option<string>, resetChat: bool,
                  creatorId: Option<int>, backend: Gpt.ChatBackend, enc: Gpt.Encoder)
      requires Valid()
      modifies this
      ensures Valid()
      ensures |events| > |old(events)| && events[..|old(events)|] == old(events)
      ensures Ended(events[|old(events)|..])
      ensures entries == old(entries) && sections == old(sections) && relatedTopics == old(relatedTopics)
      ensures funFacts == old(funFacts) && nextId == old(nextId)
      ensures Answered(old(chatHistories), chatHistories, old(events), events, old(calls), calls,
                       e, sectionId, q, context, resetChat, creatorId, backend, enc)
    {
      var subject := ChatSubject(sections, funFacts, sectionId);
      var history := BaseHistory(chatHistories, sectionId, resetChat) + [UserMessage(sectionId, q, render, creatorId)];
      if subject.None? {
        chatHistories := chatHistories[sectionId := history];
        events := events + [Aborted("AttributeError")];
        return;
      }
      Reply(e, sectionId, subject.value, history, context, backend, enc);
    }

    /** The completion of `make_chat_completion` for a history that ends with the user's message. */
    method Reply(e: EntryHead, sectionId: Uuid, subjectMd: string, history: seq<ChatMessage>, context: Option<string>,
                 backend: Gpt.ChatBackend, enc: Gpt.Encoder)
      requires Valid()
      modifies this
      ensures Valid()
      ensures |events| > |old(events)| && events[..|old(events)|] == old(events)
      ensures Ended(events[|old(events)|..])
      ensures entries == old(entries) && sections == old(sections) && relatedTopics == old(relatedTopics)
      ensures funFacts == old(funFacts) && nextId == old(nextId)
      ensures Replied(old(chatHistories), chatHistories, old(events), events, old(calls), calls,
                      e, sectionId, subjectMd, history, context, backend, enc)
    {
      var reply, newHistory, n := Gpt.EntryChatCompletion(ArgText(context), e.proficiency.PromptFormat(), subjectMd,
                                                          e.topic, history, backend, enc);
      Record(sectionId, reply, newHistory, n);
    }

    /** Stores the outcome of a completion: the request, the history and the reply's message and event. */
    method Record(sectionId: Uuid, reply: Gpt.Completion, newHistory: seq<ChatMessage>, n: nat)
      requires Valid()
      modifies this
      ensures Valid()
      ensures |events| > |old(events)| && events[..|old(events)|] == old(events)
      ensures Ended(events[|old(events)|..])
      ensures entries == old(entries) && sections == old(sections) && relatedTopics == old(relatedTopics)
      ensures funFacts == old(funFacts) && nextId == old(nextId)
      ensures calls == old(calls) + [ChatCompletionCall(n)]
      ensures reply.Raised? ==>
        && chatHistories == old(chatHistories)[sectionId := newHistory]
        && events == old(events) + [Aborted("UnboundLocalError")]
      ensures reply.Completed? ==>
        && chatHistories == old(chatHistories)[sectionId := newHistory + [AssistantMessage(sectionId, reply.text, render)]]
        && events == old(events) + [DataText(render(FootnotesSuperFencesTables, reply.text)), Close]
    {
      calls := calls + [ChatCompletionCall(n)];
      if reply.Raised? {
        chatHistories := chatHistories[sectionId := newHistory];
        events := events + [Aborted("UnboundLocalError")];
        return;
      }
      chatHistories := chatHistories[sectionId := newHistory + [AssistantMessage(sectionId, reply.text, render)]];
      events := events + [DataText(render(FootnotesSuperFencesTables, reply.text)), Close];
    }
  }
}
