/**
 * Encyclopedia entries as values: their records and `as_dict` serialisations,
 * the generators of the language model as the entry module sees them, and the
 * decision logic of `entry.make`.
 */
module Entries {
  import opened Wrappers
  import opened Config
  import opened Protocol
  import PyText
  import Util
  import Gpt

  // ---------------------------------------------------------------------------
  // Records. Where the source tests a text only for truthiness, `None` and the
  // empty text are both the empty string here.
  // ---------------------------------------------------------------------------

  datatype CoverImage = CoverImage(caption: string, source: string, url: string)

  datatype FunFact = FunFact(id: Uuid, entryId: Uuid, contentMd: string)

  datatype RelatedTopic = RelatedTopic(id: Uuid, entryId: Uuid, topic: string)

  datatype Stat = Stat(id: Uuid, entryId: Uuid, index: int, nameHtml: string, nameMd: string,
                       valueHtml: string, valueMd: string)

  /** A row of the section table: a section or, when it has a parent, a subsection. */
  datatype SectionRow = SectionRow(id: Uuid, entryId: Uuid, index: int, title: Option<string>,
                                   contentHtml: string, contentMd: string, parentId: Option<Uuid>)

  /**
   * A top-level section as `EntrySection.get_all_for_entry` loads it: its own
   * row and the rows whose parent it is, ordered by index. The query nests
   * one level only, so a loaded subsection carries no subsections of its own.
   */
  datatype Section = Section(row: SectionRow, subsections: seq<SectionRow>)

  datatype Entry = Entry(id: Uuid, permalink: string, proficiency: Proficiency, topic: string,
                         summary: string, coverImage: Option<CoverImage>, funFacts: seq<FunFact>,
                         relatedTopics: seq<RelatedTopic>, sections: seq<Section>, stats: seq<Stat>,
                         userId: Option<int>, user: Option<Json>)

  /** `{key}` when `present`, otherwise no key. */
  function KeyIf(present: bool, key: Key): set<Key>
  {
    if present then {key} else {}
  }

  // ---------------------------------------------------------------------------
  // Serialisation
  // ---------------------------------------------------------------------------

  /** `EntryCoverImage.as_dict()`: only the non-empty texts, each under its own key. */
  function CoverImageDict(c: CoverImage): (r: Json)
    ensures r.JObject?
    ensures r.fields.Keys == KeyIf(c.caption != "", Key.Caption) + KeyIf(c.source != "", Key.Source) + KeyIf(c.url != "", Key.Url)
    ensures forall k :: k in r.fields ==> r.fields[k].JStr? && r.fields[k].s != ""
    ensures c.caption != "" ==> r.fields[Key.Caption] == JStr(c.caption)
    ensures c.source != "" ==> r.fields[Key.Source] == JStr(c.source)
    ensures c.url != "" ==> r.fields[Key.Url] == JStr(c.url)
  {
    var caption := if c.caption != "" then map[Key.Caption := JStr(c.caption)] else map[];
    var source := if c.source != "" then map[Key.Source := JStr(c.source)] else map[];
    var url := if c.url != "" then map[Key.Url := JStr(c.url)] else map[];
    JObject(caption + source + url)
  }

  /** Reading a cover image back from its serialisation: an absent text is empty. */
  function CoverImageFromFields(f: map<Key, Json>): CoverImage
  {
    CoverImage.CoverImage(TextField(f, Key.Caption).GetOr(""), TextField(f, Key.Source).GetOr(""), TextField(f, Key.Url).GetOr(""))
  }

  /** Dropping the empty texts loses nothing: a cover image reads back from its serialisation. */
  lemma CoverImageDictRoundTrip(c: CoverImage)
    ensures CoverImageFromFields(CoverImageDict(c).fields) == c
  {
  }

  /** `EntryFunFact.as_dict()`: the two identifiers as text and the Markdown. */
  function FunFactDict(f: FunFact): (r: Json)
    ensures r.JObject? && r.fields.Keys == {Key.EntryId, Key.Id, Key.ContentMarkdown}
    ensures r.fields[Key.EntryId] == JStr(UuidText(f.entryId)) && r.fields[Key.Id] == JStr(UuidText(f.id))
    ensures r.fields[Key.ContentMarkdown] == JStr(f.contentMd)
  {
    JObject(map[Key.EntryId := JStr(UuidText(f.entryId)), Key.Id := JStr(UuidText(f.id)),
                Key.ContentMarkdown := JStr(f.contentMd)])
  }

  /** Reading a fun fact back; a missing or ill-typed field makes the reading fail. */
  function FunFactFromFields(f: map<Key, Json>): Option<FunFact>
  {
    var id := UuidField(f, Key.Id);
    var entryId := UuidField(f, Key.EntryId);
    var md := TextField(f, Key.ContentMarkdown);
    if id.Some? && entryId.Some? && md.Some? then Some(FunFact(id.value, entryId.value, md.value)) else None
  }

  /** A fun fact reads back from its serialisation. */
  lemma FunFactDictRoundTrip(f: FunFact)
    ensures FunFactFromFields(FunFactDict(f).fields) == Some(f)
  {
    UuidTextRoundTrip(f.id);
    UuidTextRoundTrip(f.entryId);
  }

  /** `EntryRelatedTopic.as_dict()`: the two identifiers as text and the topic. */
  function RelatedTopicDict(t: RelatedTopic): (r: Json)
    ensures r.JObject? && r.fields.Keys == {Key.EntryId, Key.Id, Key.Topic}
    ensures r.fields[Key.EntryId] == JStr(UuidText(t.entryId)) && r.fields[Key.Id] == JStr(UuidText(t.id))
    ensures r.fields[Key.Topic] == JStr(t.topic)
  {
    JObject(map[Key.EntryId := JStr(UuidText(t.entryId)), Key.Id := JStr(UuidText(t.id)), Key.Topic := JStr(t.topic)])
  }

  /** Reading a related topic back; a missing or ill-typed field makes the reading fail. */
  function RelatedTopicFromFields(f: map<Key, Json>): Option<RelatedTopic>
  {
    var id := UuidField(f, Key.Id);
    var entryId := UuidField(f, Key.EntryId);
    var topic := TextField(f, Key.Topic);
    if id.Some? && entryId.Some? && topic.Some? then Some(RelatedTopic(id.value, entryId.value, topic.value)) else None
  }

  /** A related topic reads back from its serialisation. */
  lemma RelatedTopicDictRoundTrip(t: RelatedTopic)
    ensures RelatedTopicFromFields(RelatedTopicDict(t).fields) == Some(t)
  {
    UuidTextRoundTrip(t.id);
    UuidTextRoundTrip(t.entryId);
  }

  /** `EntryStat.as_dict()`: all seven keys, always, each with the stat's own value. */
  function StatDict(s: Stat): (r: Json)
    ensures r.JObject?
    ensures r.fields.Keys == {Key.EntryId, Key.Id, Key.Index, Key.NameHtml, Key.NameMarkdown, Key.ValueHtml, Key.ValueMarkdown}
    ensures r.fields[Key.EntryId] == JStr(UuidText(s.entryId)) && r.fields[Key.Id] == JStr(UuidText(s.id))
    ensures r.fields[Key.Index] == JInt(s.index)
    ensures r.fields[Key.NameHtml] == JStr(s.nameHtml) && r.fields[Key.NameMarkdown] == JStr(s.nameMd)
    ensures r.fields[Key.ValueHtml] == JStr(s.valueHtml) && r.fields[Key.ValueMarkdown] == JStr(s.valueMd)
  {
    JObject(map[Key.EntryId := JStr(UuidText(s.entryId)), Key.Id := JStr(UuidText(s.id)), Key.Index := JInt(s.index),
                Key.NameHtml := JStr(s.nameHtml), Key.NameMarkdown := JStr(s.nameMd),
                Key.ValueHtml := JStr(s.valueHtml), Key.ValueMarkdown := JStr(s.valueMd)])
  }

  /** Reading a stat back; a missing or ill-typed field makes the reading fail. */
  function StatFromFields(f: map<Key, Json>): Option<Stat>
  {
    var id := UuidField(f, Key.Id);
    var entryId := UuidField(f, Key.EntryId);
    var nameHtml := TextField(f, Key.NameHtml);
    var nameMd := TextField(f, Key.NameMarkdown);
    var valueHtml := TextField(f, Key.ValueHtml);
    var valueMd := TextField(f, Key.ValueMarkdown);
    if id.None? || entryId.None? || Key.Index !in f || !f[Key.Index].JInt? then None
    else if nameHtml.None? || nameMd.None? || valueHtml.None? || valueMd.None? then None
    else Some(Stat(id.value, entryId.value, f[Key.Index].i, nameHtml.value, nameMd.value, valueHtml.value, valueMd.value))
  }

  /** A stat reads back from its serialisation. */
  lemma StatDictRoundTrip(s: Stat)
    ensures StatFromFields(StatDict(s).fields) == Some(s)
  {
    UuidTextRoundTrip(s.id);
    UuidTextRoundTrip(s.entryId);
  }

  /** The list of the serialisations of some parts, in order. */
  function JsonList<T>(parts: seq<T>, serialise: T -> Json): (r: Json)
    ensures r.JList? && |r.items| == |parts|
    ensures forall i :: 0 <= i < |parts| ==> r.items[i] == serialise(parts[i])
  {
    JList(seq(|parts|, i requires 0 <= i < |parts| => serialise(parts[i])))
  }

  function TitleJson(t: Option<string>): Json
  {
    if t.Some? then JStr(t.value) else JNull
  }

  /** The keys `EntrySection.as_dict` writes for a row. */
  function RowKeys(h: SectionRow): set<Key>
  {
    {Key.EntryId, Key.Id, Key.Index, Key.Title}
      + KeyIf(h.contentHtml != "", Key.ContentHtml) + KeyIf(h.contentMd != "", Key.ContentMarkdown)
      + KeyIf(h.parentId.Some?, Key.ParentId)
  }

  /**
   * `EntrySection.as_dict` on a section without subsections: the four fixed
   * keys, then the contents and the parent only when present.
   */
  function RowDict(h: SectionRow): (r: map<Key, Json>)
    ensures r.Keys == RowKeys(h)
    ensures r[Key.EntryId] == JStr(UuidText(h.entryId)) && r[Key.Id] == JStr(UuidText(h.id))
    ensures r[Key.Index] == JInt(h.index) && r[Key.Title] == TitleJson(h.title)
    ensures h.contentHtml != "" ==> r[Key.ContentHtml] == JStr(h.contentHtml)
    ensures h.contentMd != "" ==> r[Key.ContentMarkdown] == JStr(h.contentMd)
    ensures h.parentId.Some? ==> r[Key.ParentId] == JStr(UuidText(h.parentId.value))
  {
    var fixed := map[Key.EntryId := JStr(UuidText(h.entryId)), Key.Id := JStr(UuidText(h.id)),
                     Key.Index := JInt(h.index), Key.Title := TitleJson(h.title)];
    var html := if h.contentHtml != "" then fixed[Key.ContentHtml := JStr(h.contentHtml)] else fixed;
    var md := if h.contentMd != "" then html[Key.ContentMarkdown := JStr(h.contentMd)] else html;
    if h.parentId.Some? then md[Key.ParentId := JStr(UuidText(h.parentId.value))] else md
  }

  /** A subsection's `as_dict()`: it has no subsections, so only its row. */
  function RowJson(h: SectionRow): Json
  {
    JObject(RowDict(h))
  }

  /**
   * `EntrySection.as_dict(include_subsections)` on a top-level section: its
   * row, and its subsections only when asked for and there are some.
   */
  function SectionDict(s: Section, includeSubsections: bool): (r: Json)
    ensures r.JObject?
    ensures r.fields.Keys == RowKeys(s.row) + KeyIf(includeSubsections && s.subsections != [], Key.Subsections)
    ensures includeSubsections && s.subsections != [] ==> r.fields[Key.Subsections] == JsonList(s.subsections, RowJson)
  {
    var row := RowDict(s.row);
    if includeSubsections && s.subsections != [] then JObject(row[Key.Subsections := JsonList(s.subsections, RowJson)])
    else JObject(row)
  }

  /** `uuid.UUID(text)` on the decimal text of an identifier. */
  function ParseUuid(t: string): (r: Option<Uuid>)
    ensures r.Some? ==> PyText.ParseInt(t) == Some(r.value as int)
  {
    match PyText.ParseInt(t)
    case Some(n) => if n >= 0 then Some(n as nat) else None
    case None => None
  }

  lemma UuidTextRoundTrip(u: Uuid)
    ensures ParseUuid(UuidText(u)) == Some(u)
  {
    assert PyText.IntText(u) == UuidText(u);
    PyText.ParseIntText(u);
  }

  function TextField(fields: map<Key, Json>, key: Key): Option<string>
  {
    if key in fields && fields[key].JStr? then Some(fields[key].s) else None
  }

  function UuidField(fields: map<Key, Json>, key: Key): Option<Uuid>
  {
    match TextField(fields, key)
    case Some(t) => ParseUuid(t)
    case None => None
  }

  /**
   * Reading a row back from its serialisation, the way `EntrySection(data)`
   * does: absent contents are empty, an absent parent is `None`; a missing or
   * ill-typed identifier, index or title makes the reading fail.
   */
  function RowFromFields(f: map<Key, Json>): (r: Option<SectionRow>)
  {
    var id := UuidField(f, Key.Id);
    var entryId := UuidField(f, Key.EntryId);
    if id.None? || entryId.None? || Key.Index !in f || !f[Key.Index].JInt? || Key.Title !in f then None
    else if !(f[Key.Title].JNull? || f[Key.Title].JStr?) then None
    else if Key.ParentId in f && UuidField(f, Key.ParentId).None? then None
    else
      var title := if f[Key.Title].JStr? then Some(f[Key.Title].s) else None;
      var parent := if Key.ParentId in f then UuidField(f, Key.ParentId) else None;
      Some(SectionRow(id.value, entryId.value, f[Key.Index].i, title,
                      TextField(f, Key.ContentHtml).GetOr(""), TextField(f, Key.ContentMarkdown).GetOr(""), parent))
  }

  /** Reading a list of serialised subsections back; one that does not read back spoils the list. */
  function RowsFromList(items: seq<Json>): (r: Option<seq<SectionRow>>)
    ensures r.Some? ==> |r.value| == |items|
  {
    if items == [] then Some([])
    else if !items[0].JObject? then None
    else
      match (RowFromFields(items[0].fields), RowsFromList(items[1..]))
      case (Some(h), Some(rest)) => Some([h] + rest)
      case _ => None
  }

  /** Reading a top-level section back from its serialisation; absent subsections are none. */
  function SectionFromDict(j: Json): (r: Option<Section>)
  {
    if !j.JObject? then None
    else
      var f := j.fields;
      var row := RowFromFields(f);
      var subs := if Key.Subsections !in f then Some([])
                  else if f[Key.Subsections].JList? then RowsFromList(f[Key.Subsections].items)
                  else None;
      if row.None? || subs.None? then None else Some(Section(row.value, subs.value))
  }

  /** What a field map must hold for `RowFromFields` to read back `h`. */
  lemma RowFromFieldsOf(f: map<Key, Json>, h: SectionRow)
    requires Key.Id in f && f[Key.Id] == JStr(UuidText(h.id))
    requires Key.EntryId in f && f[Key.EntryId] == JStr(UuidText(h.entryId))
    requires Key.Index in f && f[Key.Index] == JInt(h.index)
    requires Key.Title in f && f[Key.Title] == TitleJson(h.title)
    requires (Key.ParentId in f) == h.parentId.Some?
    requires h.parentId.Some? ==> f[Key.ParentId] == JStr(UuidText(h.parentId.value))
    requires (Key.ContentHtml in f) == (h.contentHtml != "")
    requires h.contentHtml != "" ==> f[Key.ContentHtml] == JStr(h.contentHtml)
    requires (Key.ContentMarkdown in f) == (h.contentMd != "")
    requires h.contentMd != "" ==> f[Key.ContentMarkdown] == JStr(h.contentMd)
    ensures RowFromFields(f) == Some(h)
  {
    assert UuidField(f, Key.Id) == Some(h.id) by {
      UuidTextRoundTrip(h.id);
    }
    assert UuidField(f, Key.EntryId) == Some(h.entryId) by {
      UuidTextRoundTrip(h.entryId);
    }
    if h.parentId.Some? {
      assert UuidField(f, Key.ParentId) == h.parentId by {
        UuidTextRoundTrip(h.parentId.value);
      }
    }
    assert TextField(f, Key.ContentHtml).GetOr("") == h.contentHtml;
    assert TextField(f, Key.ContentMarkdown).GetOr("") == h.contentMd;
  }

  /** A row reads back from its serialisation. */
  lemma RowDictRoundTrip(h: SectionRow)
    ensures RowFromFields(RowDict(h)) == Some(h)
  {
    RowFromFieldsOf(RowDict(h), h);
  }

  /** Reading a row looks past the subsections. */
  lemma RowFromFieldsSkipsSubsections(f: map<Key, Json>, v: Json)
    ensures RowFromFields(f[Key.Subsections := v]) == RowFromFields(f)
  {
    var g := f[Key.Subsections := v];
    assert TextField(g, Key.Id) == TextField(f, Key.Id);
    assert TextField(g, Key.EntryId) == TextField(f, Key.EntryId);
    assert TextField(g, Key.ParentId) == TextField(f, Key.ParentId);
    assert TextField(g, Key.ContentHtml) == TextField(f, Key.ContentHtml);
    assert TextField(g, Key.ContentMarkdown) == TextField(f, Key.ContentMarkdown);
    assert (Key.Index in g) == (Key.Index in f) && (Key.Index in f ==> g[Key.Index] == f[Key.Index]);
    assert (Key.Title in g) == (Key.Title in f) && (Key.Title in f ==> g[Key.Title] == f[Key.Title]);
    assert (Key.ParentId in g) == (Key.ParentId in f);
  }

  /** A list of subsections survives serialisation, in order. */
  lemma {:induction false} RowListRoundTrip(items: seq<Json>, rows: seq<SectionRow>)
    requires |items| == |rows|
    requires forall i :: 0 <= i < |rows| ==> items[i] == RowJson(rows[i])
    ensures RowsFromList(items) == Some(rows)
  {
    if rows != [] {
      RowDictRoundTrip(rows[0]);
      RowListRoundTrip(items[1..], rows[1..]);
      assert [rows[0]] + rows[1..] == rows;
    }
  }

  /** A section survives serialisation with its subsections: nothing is lost. */
  lemma SectionDictRoundTrip(s: Section)
    ensures SectionFromDict(SectionDict(s, true)) == Some(s)
  {
    var row := RowDict(s.row);
    assert RowFromFields(row) == Some(s.row) by {
      RowDictRoundTrip(s.row);
    }
    if s.subsections == [] {
      assert SectionDict(s, true) == JObject(row);
      assert Key.Subsections !in row.Keys;
    } else {
      var subs := JsonList(s.subsections, RowJson);
      var f := row[Key.Subsections := subs];
      assert SectionDict(s, true) == JObject(f);
      assert RowFromFields(f) == Some(s.row) by {
        RowFromFieldsSkipsSubsections(row, subs);
      }
      assert RowsFromList(subs.items) == Some(s.subsections) by {
        RowListRoundTrip(subs.items, s.subsections);
      }
      assert f[Key.Subsections] == subs;
    }
  }

  /** `EntrySection.as_dict()`: a top-level section serialised with its subsections. */
  function SectionTreeDict(s: Section): (r: Json)
    ensures SectionFromDict(r) == Some(s)
  {
    SectionDictRoundTrip(s);
    SectionDict(s, true)
  }

  /** Reading a list of serialised top-level sections back. */
  function SectionsFromList(items: seq<Json>): (r: Option<seq<Section>>)
    ensures r.Some? ==> |r.value| == |items|
  {
    if items == [] then Some([])
    else
      match (SectionFromDict(items[0]), SectionsFromList(items[1..]))
      case (Some(s), Some(rest)) => Some([s] + rest)
      case _ => None
  }

  /** Any list holding the serialisations of some sections, in order, reads back as those sections. */
  lemma {:induction false} SerialisedSectionsRoundTrip(items: seq<Json>, ss: seq<Section>)
    requires |items| == |ss|
    requires forall i :: 0 <= i < |ss| ==> items[i] == SectionTreeDict(ss[i])
    ensures SectionsFromList(items) == Some(ss)
  {
    if ss != [] {
      SerialisedSectionsRoundTrip(items[1..], ss[1..]);
      assert [ss[0]] + ss[1..] == ss;
    }
  }

  /** The keys `Entry.as_dict` may write, leaving out the creation timestamp. */
  const EntryFieldKeys: set<Key> :=
    {Key.Id, Key.Permalink, Key.Proficiency, Key.Topic, Key.CoverImage, Key.FunFacts, Key.RelatedTopics,
     Key.Sections, Key.Stats, Key.Summary, Key.User, Key.UserId}

  /** Whether `Entry.as_dict` writes a key: the four fixed ones always, the others when present and non-empty. */
  predicate EntryHas(e: Entry, k: Key)
  {
    match k
    case Id => true
    case Permalink => true
    case Proficiency => true
    case Topic => true
    case CoverImage => e.coverImage.Some?
    case FunFacts => e.funFacts != []
    case RelatedTopics => e.relatedTopics != []
    case Sections => e.sections != []
    case Stats => e.stats != []
    case Summary => e.summary != ""
    case User => e.user.Some?
    case UserId => e.userId.Some? && e.userId.value != 0
    case _ => false
  }

  function EntryKeys(e: Entry): set<Key>
  {
    set k | k in EntryFieldKeys && EntryHas(e, k)
  }

  /** The value `Entry.as_dict` writes under one of those keys. */
  function EntryValue(e: Entry, k: Key): Json
  {
    match k
    case Id => JStr(UuidText(e.id))
    case Permalink => JStr(e.permalink)
    case Proficiency => JInt(e.proficiency.Value())
    case Topic => JStr(e.topic)
    case CoverImage => CoverImageDict(e.coverImage.GetOr(CoverImage.CoverImage("", "", "")))
    case FunFacts => JsonList(e.funFacts, FunFactDict)
    case RelatedTopics => JsonList(e.relatedTopics, RelatedTopicDict)
    case Sections => JsonList(e.sections, SectionTreeDict)
    case Stats => JsonList(e.stats, StatDict)
    case Summary => JStr(e.summary)
    case User => e.user.GetOr(JNull)
    case UserId => JInt(e.userId.GetOr(0))
    case _ => JNull
  }

  /**
   * `Entry.as_dict()` without the creation timestamp: the four fixed keys and
   * every part that is present and non-empty, each serialised by its own
   * `as_dict`.
   */
  function EntryDict(e: Entry): (r: Json)
    ensures r.JObject? && r.fields.Keys == EntryKeys(e)
    ensures forall k :: k in r.fields ==> r.fields[k] == EntryValue(e, k)
  {
    JObject(map k | k in EntryKeys(e) :: EntryValue(e, k))
  }

  /** `Entry.as_dict` writes the sections exactly when there are some. */
  lemma EntryDictHasSections(e: Entry)
    ensures Key.Sections in EntryDict(e).fields <==> e.sections != []
  {
    assert Key.Sections in EntryFieldKeys;
  }

  /** What `Entry.as_dict` writes under "sections": each section serialised with its subsections. */
  lemma EntryDictSectionsField(e: Entry)
    requires e.sections != []
    ensures Key.Sections in EntryDict(e).fields
    ensures EntryDict(e).fields[Key.Sections] == JsonList(e.sections, SectionTreeDict)
  {
    EntryDictHasSections(e);
    assert EntryValue(e, Key.Sections) == JsonList(e.sections, SectionTreeDict);
  }

  /** Every section an entry serialises reads back, subsections and all, in order. */
  lemma EntryDictSections(e: Entry)
    requires e.sections != []
    ensures Key.Sections in EntryDict(e).fields
    ensures var v := EntryDict(e).fields[Key.Sections];
      v.JList? && SectionsFromList(v.items) == Some(e.sections)
  {
    EntryDictSectionsField(e);
    var v := JsonList(e.sections, SectionTreeDict);
    SerialisedSectionsRoundTrip(v.items, e.sections);
  }

  // ---------------------------------------------------------------------------
  // The generators of gpt.py and the Markdown renderer, as the entry module
  // sees them
  // ---------------------------------------------------------------------------

  /** One item of a table of contents: a title and the titles of its subsections. */
  datatype TocItem = TocItem(title: string, subsections: seq<string>)

  /** A stat as `get_entry_stats` returns it: a one-pair dict, as its items in insertion order. */
  type StatPairs = seq<(string, string)>

  /**
   * What each `get_entry_*` generator returns for its arguments, `None` where
   * it gives up (`Gpt.Generate` models how each value is obtained). Where the
   * callers test a list only for truthiness, `None` and the empty list act alike.
   */
  datatype Llm = Llm(
    topic: string -> Option<string>,                         // get_entry_topic(user_topic)
    summary: string -> Option<string>,                       // get_entry_summary(topic)
    funFacts: string -> Option<seq<string>>,                 // get_entry_fun_facts(topic)
    stats: string -> Option<seq<StatPairs>>,                 // get_entry_stats(topic)
    relatedTopics: (string, string) -> Option<seq<string>>,  // (proficiency, topic)
    tableOfContents: (string, string) -> Option<seq<TocItem>>,  // (proficiency, topic)
    section: (string, Option<string>, string) -> Option<string>)  // (proficiency, title, topic)

  /** A request to one of the generators, with its arguments. */
  datatype LlmCall =
    | TopicCall(userTopic: string)
    | SummaryCall(topic: string)
    | FunFactsCall(topic: string)
    | StatsCall(topic: string)
    | RelatedTopicsCall(proficiency: string, topic: string)
    | TableOfContentsCall(proficiency: string, topic: string)
    | SectionCall(proficiency: string, title: Option<string>, topic: string)
    | ChatCompletionCall(requests: nat)  // get_entry_chat_completion, with the requests it made

  /** The extension lists the module hands to `markdown.markdown`. */
  datatype Extensions = SuperFences | SuperFencesTables | FootnotesSuperFencesTables

  /** `markdown.markdown(text, extensions=...)`. */
  type Renderer = (Extensions, string) -> string

  /** Content generated for a section title: its Markdown and, when that is non-empty, its HTML. */
  function SectionContent(llm: Llm, render: Renderer, proficiency: string, title: Option<string>, topic: string)
    : (r: (string, string))
    ensures r.0 == llm.section(proficiency, title, topic).GetOr("")
    ensures r.1 == if r.0 == "" then "" else render(FootnotesSuperFencesTables, r.0)
  {
    var md := llm.section(proficiency, title, topic).GetOr("");
    (md, if md == "" then "" else render(FootnotesSuperFencesTables, md))
  }

  // ---------------------------------------------------------------------------
  // entry.make
  // ---------------------------------------------------------------------------

  const NoTopicMessage: string := "An entry must have a topic."
  const TopicTooLongMessage: string := "Topic exceeds maximum length allowed."
  const UnknownTopicMessage: string := "Unknown topic."
  const DisallowedTopicMessage: string :=
    "This topic contains or implies content that falls outside acceptable use guidelines."

  /** A stat row `make` creates. */
  datatype NewStat = NewStat(index: nat, nameHtml: string, nameMd: string, valueHtml: string, valueMd: string)

  /** The entry `make` creates, with the fun facts and stats created for it. */
  datatype NewEntry = NewEntry(id: Uuid, proficiency: Proficiency, topic: string, summary: Option<string>,
                               userId: Option<int>, funFacts: seq<string>, stats: seq<NewStat>)

  /** The `(response, status)` pair `make` returns, or the exception it raises. */
  datatype MakeResponse = Responded(body: Json, status: ResponseStatus) | Raised(error: string)

  /** The response, the generator requests in order, and what was created. */
  datatype MakeOutcome = MakeOutcome(response: MakeResponse, calls: seq<LlmCall>, created: Option<NewEntry>)

  /** The stat row made from the pair `popitem` returned. */
  function StatRow(index: nat, pair: (string, string), render: Renderer): NewStat
  {
    NewStat(index, render(SuperFences, pair.0), pair.0, render(SuperFences, pair.1), pair.1)
  }

  /**
   * The stats loop of `make`: stat i becomes the row with index i, its name
   * and value the pair `popitem` takes (the last one inserted). An empty dict
   * makes `popitem` raise KeyError, which ends the loop; the rows before it
   * stay created. Returns the rows and whether the loop ran to its end.
   */
  function StatRows(stats: seq<StatPairs>, render: Renderer): (r: (seq<NewStat>, bool))
    ensures |r.0| <= |stats|
    ensures r.1 <==> forall i :: 0 <= i < |stats| ==> stats[i] != []
    ensures r.1 ==> |r.0| == |stats|
    ensures !r.1 ==> |r.0| < |stats| && stats[|r.0|] == []
    ensures forall i :: 0 <= i < |r.0| ==> stats[i] != [] && r.0[i] == StatRow(i, stats[i][|stats[i]| - 1], render)
  {
    if stats == [] then ([], true)
    else
      var before := StatRows(stats[..|stats| - 1], render);
      var last := stats[|stats| - 1];
      if !before.1 then before
      else if last == [] then (before.0, false)
      else (before.0 + [StatRow(|stats| - 1, last[|last| - 1], render)], true)
  }

  /**
   * `entry.make`: the user's topic is stripped and checked, the language
   * model names the topic, and a named topic (unquoted) gets a summary, an
   * entry, fun facts and stats. `creatorId` is the id of the session's user;
   * `newId` is what `Entry.create` returns (`None` when the insert fails).
   */
  function Make(userTopic: Option<string>, proficiency: Proficiency, creatorId: Option<int>,
                llm: Llm, render: Renderer, newId: Option<Uuid>): (r: MakeOutcome)
    ensures var t := PyText.Strip(userTopic.GetOr(""));
      && (t == "" ==>
            r == MakeOutcome(Responded(ErrorBody(BadRequest.Value(), NoTopicMessage), BadRequest), [], None))
      && (|t| > TopicMaxLen ==>
            r == MakeOutcome(Responded(ErrorBody(ContentMaxLenExceeded.Value(), TopicTooLongMessage), BadRequest), [], None))
      && (0 < |t| <= TopicMaxLen ==> |r.calls| > 0 && r.calls[0] == TopicCall(t))
      && (0 < |t| <= TopicMaxLen && llm.topic(t) == Some("") ==>
            r == MakeOutcome(Responded(ErrorBody(NotFound.Value(), UnknownTopicMessage), NotFound), [TopicCall(t)], None))
      && (0 < |t| <= TopicMaxLen && llm.topic(t) == None ==>
            r == MakeOutcome(Responded(ErrorBody(NotAllowed.Value(), DisallowedTopicMessage), NotAllowed), [TopicCall(t)], None))
  {
    var t := PyText.Strip(userTopic.GetOr(""));
    if t == "" then
      MakeOutcome(Responded(ErrorBody(BadRequest.Value(), NoTopicMessage), BadRequest), [], None)
    else if |t| > TopicMaxLen then
      MakeOutcome(Responded(ErrorBody(ContentMaxLenExceeded.Value(), TopicTooLongMessage), BadRequest), [], None)
    else
      match llm.topic(t)
      case None =>
        MakeOutcome(Responded(ErrorBody(NotAllowed.Value(), DisallowedTopicMessage), NotAllowed), [TopicCall(t)], None)
      case Some(answer) =>
        if answer == "" then
          MakeOutcome(Responded(ErrorBody(NotFound.Value(), UnknownTopicMessage), NotFound), [TopicCall(t)], None)
        else
          var topic := Util.UnquoteText(answer);
          var summary := llm.summary(topic);
          match newId
          case None => MakeOutcome(Raised("UnboundLocalError"), [TopicCall(t), SummaryCall(topic)], None)
          case Some(id) =>
            var facts := llm.funFacts(topic).GetOr([]);
            var stats := StatRows(llm.stats(topic).GetOr([]), render);
            var entry := NewEntry(id, proficiency, topic, summary, creatorId, facts, stats.0);
            var calls := [TopicCall(t), SummaryCall(topic), FunFactsCall(topic), StatsCall(topic)];
            if stats.1 then MakeOutcome(Responded(JObject(map[Key.Id := JStr(UuidText(id))]), Created), calls, Some(entry))
            else MakeOutcome(Raised("KeyError"), calls, Some(entry))
  }

  /**
   * An entry is created exactly for a topic the model names, under the
   * unquoted name, with the summary, fun facts and stats the generators give
   * for that name; `make` answers CREATED exactly when, in addition, every
   * stat is a non-empty dict.
   */
  lemma MakeCreatesEntry(userTopic: Option<string>, proficiency: Proficiency, creatorId: Option<int>,
                         llm: Llm, render: Renderer, newId: Option<Uuid>)
    ensures var t := PyText.Strip(userTopic.GetOr(""));
      var r := Make(userTopic, proficiency, creatorId, llm, render, newId);
      && (r.created.Some? <==>
            0 < |t| <= TopicMaxLen && llm.topic(t).Some? && llm.topic(t).value != "" && newId.Some?)
      && (r.created.Some? ==>
            var u := Util.UnquoteText(llm.topic(t).value);
            var e := r.created.value;
            && e == NewEntry(newId.value, proficiency, u, llm.summary(u), creatorId,
                             llm.funFacts(u).GetOr([]), StatRows(llm.stats(u).GetOr([]), render).0)
            && r.calls == [TopicCall(t), SummaryCall(u), FunFactsCall(u), StatsCall(u)]
            && (r.response.Responded? <==> forall i :: 0 <= i < |llm.stats(u).GetOr([])| ==> llm.stats(u).GetOr([])[i] != [])
            && (r.response.Responded? ==> r.response == Responded(JObject(map[Key.Id := JStr(UuidText(e.id))]), Created)))
      && (r.response.Responded? && r.response.status == Created ==> r.created.Some?)
  {
    var t := PyText.Strip(userTopic.GetOr(""));
    if 0 < |t| <= TopicMaxLen && llm.topic(t).Some? && llm.topic(t).value != "" && newId.Some? {
      var u := Util.UnquoteText(llm.topic(t).value);
      var stats := StatRows(llm.stats(u).GetOr([]), render);
      var r := Make(userTopic, proficiency, creatorId, llm, render, newId);
      assert r.created == Some(NewEntry(newId.value, proficiency, u, llm.summary(u), creatorId,
                                        llm.funFacts(u).GetOr([]), stats.0));
      assert r.response.Responded? <==> stats.1;
    }
  }

  /** Stat i of a created entry has index i and is read from the i-th dict the stats generator returned. */
  lemma MakeStatsIndexed(userTopic: Option<string>, proficiency: Proficiency, creatorId: Option<int>,
                         llm: Llm, render: Renderer, newId: Option<Uuid>, i: nat)
    requires var r := Make(userTopic, proficiency, creatorId, llm, render, newId);
      r.created.Some? && i < |r.created.value.stats|
    ensures var r := Make(userTopic, proficiency, creatorId, llm, render, newId);
      var stats := llm.stats(r.created.value.topic).GetOr([]);
      var s := r.created.value.stats[i];
      && i < |stats| && stats[i] != []
      && s.index == i
      && (s.nameMd, s.valueMd) == stats[i][|stats[i]| - 1]
      && s.nameHtml == render(SuperFences, s.nameMd) && s.valueHtml == render(SuperFences, s.valueMd)
  {
    MakeCreatesEntry(userTopic, proficiency, creatorId, llm, render, newId);
  }
}
