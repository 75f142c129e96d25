/** The JSON-shaped values the server serialises into responses and stream events. */
module Protocol {
  import PyText
  import opened Wrappers

  /** Database identifiers; `str(id)` is their decimal text. */
  type Uuid = nat

  function UuidText(u: Uuid): string
  {
    PyText.NatText(u)
  }

  /** `str(x)` of an identifier that may be `None`. */
  function OptionalUuidText(u: Option<Uuid>): string
  {
    if u.Some? then UuidText(u.value) else "None"
  }

  /** The `ProtocolKey` names the serialisations use as dictionary keys. */
  datatype Key =
    | Caption | ChatId | ContentHtml | ContentMarkdown | CoverImage | EntryId | Error | ErrorCode
    | ErrorMessage | FunFacts | Id | Index | NameHtml | NameMarkdown | ParentId | Permalink
    | Proficiency | RelatedTopics | Sections | Sender | SenderId | SenderRole | Source | Stats
    | Subsections | Summary | Title | Topic | Url | User | UserId | ValueHtml | ValueMarkdown
  {
    /** The key as it appears on the wire. */
    function Name(): string
    {
      match this
      case Caption => "caption"
      case ChatId => "chat_id"
      case ContentHtml => "content_html"
      case ContentMarkdown => "content_md"
      case CoverImage => "cover_image"
      case EntryId => "entry_id"
      case Error => "error"
      case ErrorCode => "error_code"
      case ErrorMessage => "error_message"
      case FunFacts => "fun_facts"
      case Id => "id"
      case Index => "index"
      case NameHtml => "name_html"
      case NameMarkdown => "name_md"
      case ParentId => "parent_id"
      case Permalink => "permalink"
      case Proficiency => "proficiency"
      case RelatedTopics => "related_topics"
      case Sections => "sections"
      case Sender => "sender"
      case SenderId => "sender_id"
      case SenderRole => "sender_role"
      case Source => "source"
      case Stats => "stats"
      case Subsections => "subsections"
      case Summary => "summary"
      case Title => "title"
      case Topic => "topic"
      case Url => "url"
      case User => "user"
      case UserId => "user_id"
      case ValueHtml => "value_html"
      case ValueMarkdown => "value_md"
    }
  }

  datatype Json =
    | JNull
    | JBool(b: bool)
    | JInt(i: int)
    | JStr(s: string)
    | JList(items: seq<Json>)
    | JObject(fields: map<Key, Json>)

  /** The `{"error": {"error_code": code, "error_message": message}}` body every handler uses. */
  function ErrorBody(code: int, message: string): Json
  {
    JObject(map[Error := JObject(map[ErrorCode := JInt(code), ErrorMessage := JStr(message)])])
  }
}
