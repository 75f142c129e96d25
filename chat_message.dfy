/**
 * Chat messages: their prompt and transcript formats, their serialisation,
 * the argument checks `ChatMessage.create` makes before it touches the
 * database, and the query parsing of `get_chat`.
 */
module ChatMessages {
  import opened Wrappers
  import opened Config
  import opened Protocol
  import PyText

  /** A message as the OpenAI API takes it: the items of a Python dict, in insertion order. */
  type PromptMessage = seq<(string, string)>

  /** The value stored under the first occurrence of `key`. */
  function Lookup(m: PromptMessage, key: string): Option<string>
  {
    if m == [] then None else if m[0].0 == key then Some(m[0].1) else Lookup(m[1..], key)
  }

  datatype ChatMessage = ChatMessage(
    id: Option<Uuid>,
    chatId: Option<Uuid>,
    contentHtml: string,
    contentMd: string,
    senderId: Option<int>,
    senderRole: SenderRole,
    sender: Option<Json>)  // the sender's own serialisation, when it was loaded

  /** Python truthiness of an optional integer. */
  predicate Truthy(n: Option<int>)
  {
    n.Some? && n.value != 0
  }

  /** `prompt_format()`: the message as the OpenAI API wants it. */
  function PromptFormat(m: ChatMessage): (r: PromptMessage)
    ensures |r| == 2
    ensures Lookup(r, "content") == Some(m.contentMd)
    ensures Lookup(r, "role") == Some(m.senderRole.Value())
  {
    [("content", m.contentMd), ("role", m.senderRole.Value())]
  }

  /** The speaker label of `chat_format`: the assistant is shown as "you". */
  function ChatLabel(role: SenderRole): (r: string)
    ensures role == Assistant ==> r == "you"
    ensures role != Assistant ==> r == role.Value()
  {
    if role == Assistant then "you" else role.Value()
  }

  /** `chat_format()`: "<label>: <markdown>". */
  function ChatFormat(m: ChatMessage): (r: string)
    ensures |r| == |ChatLabel(m.senderRole)| + 2 + |m.contentMd|
    ensures r[..|r| - |m.contentMd|] == ChatLabel(m.senderRole) + ": "
    ensures r[|r| - |m.contentMd|..] == m.contentMd
  {
    ChatLabel(m.senderRole) + ": " + m.contentMd
  }

  /** Two transcript lines are equal only for the same role and the same text. */
  lemma ChatFormatInjective(a: ChatMessage, b: ChatMessage)
    requires ChatFormat(a) == ChatFormat(b)
    ensures a.senderRole == b.senderRole && a.contentMd == b.contentMd
  {
    var fa, fb := ChatFormat(a), ChatFormat(b);
    var la, lb := ChatLabel(a.senderRole), ChatLabel(b.senderRole);
    assert fa[..|la|] == la && fb[..|lb|] == lb;
    // The labels "you", "system" and "user" already differ in their second letter.
    assert fa[1] == la[1] && fb[1] == lb[1];
    assert la == lb;
    assert fa[|la| + 2..] == a.contentMd && fb[|lb| + 2..] == b.contentMd;
  }

  /** `as_dict()`. The creation date fields are not modelled. */
  function AsDict(m: ChatMessage): (r: Json)
    ensures r.JObject?
    ensures {Key.ChatId, Key.ContentHtml, Key.ContentMarkdown, Key.Id, Key.SenderRole} <= r.fields.Keys
    ensures r.fields.Keys <= {Key.ChatId, Key.ContentHtml, Key.ContentMarkdown, Key.Id, Key.SenderRole, Key.Sender, Key.SenderId}
    ensures r.fields[Key.ContentMarkdown] == JStr(m.contentMd) && r.fields[Key.ContentHtml] == JStr(m.contentHtml)
    ensures r.fields[Key.SenderRole] == JStr(m.senderRole.Value())
    ensures Key.SenderId in r.fields <==> Truthy(m.senderId)
    ensures Key.SenderId in r.fields ==> r.fields[Key.SenderId] == JInt(m.senderId.value)
    ensures r.fields[Key.ChatId] == JStr(OptionalUuidText(m.chatId)) && r.fields[Key.Id] == JStr(OptionalUuidText(m.id))
    ensures Key.Sender in r.fields <==> m.sender.Some?
    ensures Key.Sender in r.fields ==> r.fields[Key.Sender] == m.sender.value
  {
    var base := map[
      Key.ChatId := JStr(OptionalUuidText(m.chatId)),
      Key.ContentHtml := JStr(m.contentHtml),
      Key.ContentMarkdown := JStr(m.contentMd),
      Key.Id := JStr(OptionalUuidText(m.id)),
      Key.SenderRole := JStr(m.senderRole.Value())];
    var withSender := if m.sender.Some? then base[Key.Sender := m.sender.value] else base;
    var withId := if Truthy(m.senderId) then withSender[Key.SenderId := JInt(m.senderId.value)] else withSender;
    JObject(withId)
  }

  /** The exception `create` raises, naming the offending argument. */
  datatype CreateError = TypeError(arg: string) | ValueError(arg: string)

  datatype CreateCheck =
    | Accepted(chatId: Uuid, contentHtml: string, contentMd: string, senderId: Option<int>, senderRole: SenderRole)
    | Refused(error: CreateError)

  /**
   * The argument checks of `ChatMessage.create`, in their order. An argument
   * of the wrong Python type is `None` here.
   */
  function CheckCreate(chatId: Option<Uuid>, contentHtml: Option<string>, contentMd: Option<string>,
                       senderId: Option<int>, senderRole: Option<SenderRole>): (r: CreateCheck)
    ensures r.Accepted? <==>
      chatId.Some? && contentHtml.Some? && PyText.Strip(contentHtml.value) != []
      && contentMd.Some? && PyText.Strip(contentMd.value) != []
      && !(Truthy(senderId) && senderId.value < 0) && senderRole.Some?
    ensures r.Accepted? ==>
      r.contentHtml == PyText.Strip(contentHtml.value) && r.contentMd == PyText.Strip(contentMd.value)
      && r.chatId == chatId.value && r.senderRole == senderRole.value && r.senderId == senderId
    ensures chatId.None? ==> r == Refused(TypeError("chat_id"))
    ensures chatId.Some? && contentHtml.None? ==> r == Refused(TypeError("content_html"))
    ensures chatId.Some? && contentHtml.Some? && PyText.Strip(contentHtml.value) == [] ==>
      r == Refused(ValueError("content_html"))
    ensures chatId.Some? && contentHtml.Some? && PyText.Strip(contentHtml.value) != [] && contentMd.None? ==>
      r == Refused(TypeError("content_md"))
    ensures (chatId.Some? && contentHtml.Some? && PyText.Strip(contentHtml.value) != []
             && contentMd.Some? && PyText.Strip(contentMd.value) == []) ==>
      r == Refused(ValueError("content_md"))
    ensures (chatId.Some? && contentHtml.Some? && PyText.Strip(contentHtml.value) != []
             && contentMd.Some? && PyText.Strip(contentMd.value) != [] && Truthy(senderId) && senderId.value < 0) ==>
      r == Refused(ValueError("sender_id"))
    ensures (chatId.Some? && contentHtml.Some? && PyText.Strip(contentHtml.value) != []
             && contentMd.Some? && PyText.Strip(contentMd.value) != [] && !(Truthy(senderId) && senderId.value < 0)
             && senderRole.None?) ==>
      r == Refused(TypeError("sender_role"))
  {
    if chatId.None? then Refused(TypeError("chat_id"))
    else if contentHtml.None? then Refused(TypeError("content_html"))
    else
      var html := PyText.Strip(contentHtml.value);
      if html == [] then Refused(ValueError("content_html"))
      else if contentMd.None? then Refused(TypeError("content_md"))
      else
        var md := PyText.Strip(contentMd.value);
        if md == [] then Refused(ValueError("content_md"))
        else if Truthy(senderId) && senderId.value <= 0 then Refused(ValueError("sender_id"))
        else if senderRole.None? then Refused(TypeError("sender_role"))
        else Accepted(chatId.value, html, md, senderId, senderRole.value)
  }

  /**
   * What `get_chat` does with a request: refuse it, call
   * `ChatMessage.get_all_by_chat` for the chat the id names from `offset`,
   * or raise.
   */
  datatype GetChatPlan =
    | Rejected(status: ResponseStatus, body: Json)
    | Fetch(chatId: int, offset: int)
    | FetchRaised(error: string)

  /** `int(x)` under a bare `except`, which turns any failure into `fallback`. */
  function ParseOr(raw: string, fallback: int): int
  {
    var p := PyText.ParseInt(raw);
    if p.Some? then p.value else fallback
  }

  /**
   * `get_chat` as intended: a missing, unparsable or zero chat id is refused,
   * the offset defaults to 0, and with a session the messages of the chat the
   * id names are fetched. `get_all_by_chat` demands a `uuid.UUID`, so this
   * takes the parsed id through the conversion to the UUID it names.
   */
  function GetChat(chatIdRaw: Option<string>, offsetRaw: Option<string>, sessionId: Option<string>): (r: GetChatPlan)
    ensures !r.FetchRaised?
    ensures r.Fetch? <==> chatIdRaw.Some? && ParseOr(chatIdRaw.value, 0) != 0 && sessionId.Some? && sessionId.value != []
    ensures r.Fetch? ==> PyText.ParseInt(chatIdRaw.value) == Some(r.chatId)
    ensures r.Fetch? && (offsetRaw.None? || PyText.ParseInt(offsetRaw.value).None?) ==> r.offset == 0
    ensures r.Fetch? && offsetRaw.Some? && PyText.ParseInt(offsetRaw.value).Some? ==>
      r.offset == PyText.ParseInt(offsetRaw.value).value
    ensures (chatIdRaw.None? || ParseOr(chatIdRaw.value, 0) == 0) ==>
      r == Rejected(BadRequest, ErrorBody(BadRequest.Value(), "Missing chat ID."))
  {
    var chatId := if chatIdRaw.Some? && chatIdRaw.value != [] then ParseOr(chatIdRaw.value, 0) else 0;
    var offset := if offsetRaw.Some? && offsetRaw.value != [] then ParseOr(offsetRaw.value, 0) else 0;
    if chatId == 0 then
      Rejected(BadRequest, ErrorBody(BadRequest.Value(), "Missing chat ID."))
    else if sessionId.Some? && sessionId.value != [] then
      Fetch(chatId, offset)
    else
      Rejected(BadRequest, ErrorBody(BadRequest.Value(), "Missing session ID."))
  }

  /**
   * `get_chat` as written: it hands `int(chat_id)` to `get_all_by_chat`,
   * whose type check refuses anything but a `uuid.UUID`, so every request
   * that would fetch raises TypeError.
   */
  function GetChatAsWritten(chatIdRaw: Option<string>, offsetRaw: Option<string>, sessionId: Option<string>): GetChatPlan
  {
    match GetChat(chatIdRaw, offsetRaw, sessionId)
    case Fetch(_, _) => FetchRaised("TypeError")
    case refused => refused
  }

  /**
   * As written, no request fetches messages: the ones the intended `get_chat`
   * fetches for raise TypeError, and the refusals are the same.
   */
  lemma GetChatAsWrittenNeverFetches(chatIdRaw: Option<string>, offsetRaw: Option<string>, sessionId: Option<string>)
    ensures !GetChatAsWritten(chatIdRaw, offsetRaw, sessionId).Fetch?
    ensures GetChatAsWritten(chatIdRaw, offsetRaw, sessionId) == FetchRaised("TypeError")
      <==> GetChat(chatIdRaw, offsetRaw, sessionId).Fetch?
    ensures GetChat(chatIdRaw, offsetRaw, sessionId).Rejected? ==>
      GetChatAsWritten(chatIdRaw, offsetRaw, sessionId) == GetChat(chatIdRaw, offsetRaw, sessionId)
  {
  }

  /** A request carrying `str(id)` and `str(offset)` is answered from the chat `id` names, from that offset. */
  lemma GetChatTextRoundTrip(id: int, offset: int, session: string)
    requires id != 0 && session != []
    ensures GetChat(Some(PyText.IntText(id)), Some(PyText.IntText(offset)), Some(session)) == Fetch(id, offset)
  {
    PyText.ParseIntText(id);
    PyText.ParseIntText(offset);
  }
}
