/**
 * Chats: the Socket.IO namespace that keeps one reference-counted session
 * per browser session and runs message exchanges on it, and `make`, which
 * starts a chat, possibly forked from a selection in an earlier message.
 *
 * The database is a value (`ChatDb`) or a parameter, and Markdown rendering
 * is an `Entries.Renderer`. The `gpt` module defines neither `chat` nor
 * `get_topic`, which this module calls. The assistant and the topic are
 * therefore parameters (`Services.reply`, `MakeWorld.topicOf`) that give the
 * intended behaviour. `MakeAsWritten` and `AnswerAsWritten` are the code as
 * written, which raises AttributeError at those calls.
 */
module Chats {
  import opened Wrappers
  import opened Config
  import opened Protocol
  import opened ChatMessages
  import PyText
  import Entries

  // ---------------------------------------------------------------------
  // Chat rows and the topic `Chat.create` stores
  // ---------------------------------------------------------------------

  type Day = d: nat | 1 <= d <= 31 witness 1
  type Month = m: nat | 1 <= m <= 12 witness 1

  /** The creation date, as `datetime.now()` gives it. */
  datatype Date = Date(day: Day, month: Month, year: nat)

  function TwoDigits(n: nat): (r: string)
    requires n < 100
    ensures |r| == 2 && PyText.IsDigit(r[0]) && PyText.IsDigit(r[1])
  {
    ['0' + (n / 10) as char, '0' + (n % 10) as char]
  }

  /** `f"Chat on {now.strftime('%d/%m/%Y')}"`. */
  function DefaultTopic(date: Date): string
  {
    "Chat on " + TwoDigits(date.day) + "/" + TwoDigits(date.month) + "/" + PyText.NatText(date.year)
  }

  /** The topic `Chat.create` stores: the given one stripped, or the default when nothing is left. */
  function ChatTopic(topic: Option<string>, date: Date): string
  {
    var t := if topic.Some? then PyText.Strip(topic.value) else "";
    if t == "" then DefaultTopic(date) else t
  }

  /**
   * The stored topic is never blank and has no surrounding white space; a
   * topic with some text survives as its stripped self, anything else
   * becomes the dated default.
   */
  lemma ChatTopicStripped(topic: Option<string>, date: Date)
    ensures ChatTopic(topic, date) != ""
    ensures PyText.Strip(ChatTopic(topic, date)) == ChatTopic(topic, date)
    ensures topic.Some? && PyText.Strip(topic.value) != "" ==> ChatTopic(topic, date) == PyText.Strip(topic.value)
    ensures topic.None? || PyText.Strip(topic.value) == "" ==> ChatTopic(topic, date) == DefaultTopic(date)
  {
    var r := ChatTopic(topic, date);
    if topic.Some? && PyText.Strip(topic.value) != "" {
      PyText.StripIdempotent(topic.value);
    } else {
      var y := PyText.NatText(date.year);
      assert PyText.IsDigit(y[|y| - 1]);
      assert r[0] == 'C';
      assert r[|r| - 1] == y[|y| - 1];
      PyText.StripUnchanged(r);
    }
  }

  /** A chat row: its topic, its owner and the message it was forked from. */
  datatype ChatRecord = ChatRecord(topic: string, userId: Option<int>, forkMessageId: Option<Uuid>)

  datatype ChatCreation = ChatCreated(id: Uuid, record: ChatRecord) | NotCreated | CreateRefused(error: string)

  /**
   * `Chat.create`: the argument checks, the topic defaulting, and the row the
   * database hands back, whose id is `inserted` (`None` when the INSERT fails).
   */
  function CreateChat(forkMessageId: Option<Uuid>, topic: Option<string>, userId: Option<int>,
                      date: Date, inserted: Option<Uuid>): (r: ChatCreation)
    ensures r.CreateRefused? <==> Truthy(userId) && userId.value <= 0
    ensures r.ChatCreated? <==> inserted.Some? && !(Truthy(userId) && userId.value <= 0)
    ensures r.ChatCreated? ==>
      r.id == inserted.value && r.record.userId == userId && r.record.forkMessageId == forkMessageId
  {
    if Truthy(userId) && userId.value <= 0 then CreateRefused("ValueError")
    else if inserted.None? then NotCreated
    else ChatCreated(inserted.value, ChatRecord(ChatTopic(topic, date), userId, forkMessageId))
  }

  /** The columns the INSERT of `Chat.create` names, and the values it passes for them. */
  const ChatInsertColumns: nat := 2
  function ChatInsertValues(forkMessageId: Option<Uuid>, topic: string, userId: Option<int>): seq<Json>
  {
    [if forkMessageId.Some? then JInt(forkMessageId.value) else JNull, JStr(topic),
     if userId.Some? then JInt(userId.value) else JNull]
  }

  /**
   * `Chat.create` as written: the database driver refuses an INSERT whose
   * value count differs from its placeholder count, the exception is
   * swallowed, and `None` comes back.
   */
  function CreateChatAsWritten(forkMessageId: Option<Uuid>, topic: Option<string>, userId: Option<int>,
                               date: Date, inserted: Option<Uuid>): ChatCreation
  {
    if Truthy(userId) && userId.value <= 0 then CreateRefused("ValueError")
    else if |ChatInsertValues(forkMessageId, ChatTopic(topic, date), userId)| != ChatInsertColumns then NotCreated
    else CreateChat(forkMessageId, topic, userId, date, inserted)
  }

  /** As written, no chat is ever created, even when the database would insert the row. */
  lemma CreateChatAsWrittenNeverCreates(forkMessageId: Option<Uuid>, topic: Option<string>, userId: Option<int>,
                                        date: Date, inserted: Option<Uuid>)
    ensures !CreateChatAsWritten(forkMessageId, topic, userId, date, inserted).ChatCreated?
    ensures CreateChatAsWritten(forkMessageId, topic, userId, date, inserted) == CreateChat(forkMessageId, topic, userId, date, None)
  {
    if !(Truthy(userId) && userId.value <= 0) {
      InsertValuesCount(forkMessageId, ChatTopic(topic, date), userId);
      assert CreateChat(forkMessageId, topic, userId, date, None) == NotCreated;
    }
  }

  /** The INSERT passes three values whatever the chat. */
  lemma InsertValuesCount(forkMessageId: Option<Uuid>, topic: string, userId: Option<int>)
    ensures |ChatInsertValues(forkMessageId, topic, userId)| == 3 != ChatInsertColumns
  {
  }

  // ---------------------------------------------------------------------
  // Selections, the context prefix and the hyperlink splice of `make`
  // ---------------------------------------------------------------------

  /** The selected plain text, `plain[start:start + length]`. */
  function Selection(plain: string, start: nat, length: nat): string
  {
    PyText.Slice(plain, start, start + length)
  }

  /**
   * `_find_corresponding_markdown_indices`: where the plain-text selection
   * first occurs in the Markdown, and that index plus the selection length;
   * `None` stands for `(None, None)`.
   */
  function FindMarkdownIndices(plain: string, md: string, start: nat, length: nat): (r: Option<(nat, nat)>)
    ensures r.Some? ==> r.value.1 == r.value.0 + length
    ensures r.Some? ==> PyText.OccursAt(md, Selection(plain, start, length), r.value.0)
    ensures r.Some? ==> forall j: nat :: j < r.value.0 ==> !PyText.OccursAt(md, Selection(plain, start, length), j)
    ensures r.None? <==> forall j: nat :: !PyText.OccursAt(md, Selection(plain, start, length), j)
  {
    match PyText.Find(md, Selection(plain, start, length))
    case Some(i) => Some((i, i + length))
    case None => None
  }

  /** The user's Markdown with the quoted context in front: `###\n> {context}\n###\n{content}`. */
  function WithContext(context: string, content: string): string
  {
    "###\n> " + context + "\n###\n" + content
  }

  /** The context and the content can be read back from their fixed positions. */
  lemma WithContextParts(context: string, content: string)
    ensures var r := WithContext(context, content);
      |r| == |context| + |content| + 11
      && r[..6] == "###\n> " && r[6..6 + |context|] == context
      && r[6 + |context|..11 + |context|] == "\n###\n" && r[11 + |context|..] == content
  {
    var r := WithContext(context, content);
    assert r == "###\n> " + context + "\n###\n" + content;
  }

  /** Stripping a prefixed message that ends in text leaves it as it is. */
  lemma WithContextStripped(context: string, content: string)
    requires content != [] && !PyText.IsSpace(content[|content| - 1])
    ensures PyText.Strip(WithContext(context, content)) == WithContext(context, content)
  {
    var r := WithContext(context, content);
    assert r[0] == '#';
    assert r[|r| - 1] == content[|content| - 1];
    PyText.StripUnchanged(r);
  }

  /** The link target written after the selection: `](/c/<chat id>)`. */
  function LinkTail(chatId: Uuid): string
  {
    "](/c/" + UuidText(chatId) + ")"
  }

  /**
   * The new Markdown of the quoted message: `md[:s] + "[" + md[s:e] +
   * "](/c/<id>)" + md[e:]`. Without indices every slice is `md[None:None]`,
   * the whole text.
   */
  function Splice(md: string, indices: Option<(nat, nat)>, chatId: Uuid): (r: string)
    ensures indices.Some? && indices.value.0 <= indices.value.1 && indices.value.0 <= |md| ==>
      |r| == |md| + 1 + |LinkTail(chatId)|
    ensures indices.None? ==> |r| == 3 * |md| + 1 + |LinkTail(chatId)|
  {
    match indices
    case Some((s, e)) =>
      PyText.Slice(md, 0, s) + "[" + PyText.Slice(md, s, e) + LinkTail(chatId) + PyText.Slice(md, e, |md|)
    case None => md + "[" + md + LinkTail(chatId) + md
  }

  /** Deletes the `[` at `s` and the link tail after the `n` linked characters. */
  function Unsplice(r: string, s: nat, n: nat, chatId: Uuid): string
    requires s + 1 + n + |LinkTail(chatId)| <= |r|
  {
    r[..s] + r[s + 1..s + 1 + n] + r[s + 1 + n + |LinkTail(chatId)|..]
  }

  /**
   * The splice inserts exactly `[` before the linked text and the link tail
   * after it: deleting the two pieces gives back the original Markdown.
   */
  lemma SpliceRoundTrip(md: string, s: nat, e: nat, chatId: Uuid)
    requires s <= e && s <= |md|
    ensures var r := Splice(md, Some((s, e)), chatId);
      var n := |PyText.Slice(md, s, e)|;
      s + 1 + n + |LinkTail(chatId)| <= |r|
      && r[s] == '[' && r[s + 1 + n..s + 1 + n + |LinkTail(chatId)|] == LinkTail(chatId)
      && Unsplice(r, s, n, chatId) == md
  {
    var pre, mid, post := PyText.Slice(md, 0, s), PyText.Slice(md, s, e), PyText.Slice(md, e, |md|);
    var t := LinkTail(chatId);
    var r := Splice(md, Some((s, e)), chatId);
    assert |pre| == s;
    assert r == pre + ['['] + mid + t + post;
    SlicesJoin(md, s, e);
    SplicedParts(pre, '[', mid, t, post);
    assert Unsplice(r, s, |mid|, chatId) == pre + mid + post;
  }

  /** `md[:s] + md[s:e] + md[e:]` is `md` again. */
  lemma SlicesJoin(md: string, s: nat, e: nat)
    requires s <= e && s <= |md|
    ensures PyText.Slice(md, 0, s) + PyText.Slice(md, s, e) + PyText.Slice(md, e, |md|) == md
  {
    if e <= |md| {
      assert md == md[..s] + md[s..e] + md[e..];
    } else {
      assert md == md[..s] + md[s..];
    }
  }

  /** The pieces of `pre + [c] + mid + t + post` sit at fixed offsets. */
  lemma SplicedParts(pre: string, c: char, mid: string, t: string, post: string)
    ensures var r := pre + [c] + mid + t + post;
      var s, n := |pre|, |mid|;
      s + 1 + n + |t| <= |r| && r[s] == c && r[s + 1 + n..s + 1 + n + |t|] == t
      && r[..s] + r[s + 1..s + 1 + n] + r[s + 1 + n + |t|..] == pre + mid + post
  {
    var r := pre + [c] + mid + t + post;
    var s, n := |pre|, |mid|;
    assert r[..s] == pre;
    assert r[s + 1..s + 1 + n] == mid;
    assert r[s + 1 + n..s + 1 + n + |t|] == t;
    assert r[s + 1 + n + |t|..] == post;
  }

  // ---------------------------------------------------------------------
  // One exchange: the user's message, then the assistant's reply
  // ---------------------------------------------------------------------

  /** What the message handlers rely on: the assistant, Markdown rendering and the ids of the new rows. */
  datatype Services = Services(
    reply: seq<ChatMessage> -> string,
    render: Entries.Renderer,
    userMessageId: Uuid,
    replyMessageId: Uuid)

  datatype ExchangeResult =
    | Exchanged(user: ChatMessage, assistant: ChatMessage)
    | UserRefused(error: CreateError)
    | ReplyRefused(user: ChatMessage, error: CreateError)

  /** The name of the exception `ChatMessage.create` raises. */
  function ErrorName(e: CreateError): string
  {
    match e
    case TypeError(_) => "TypeError"
    case ValueError(_) => "ValueError"
  }

  /** The message `ChatMessage.create` stores for accepted arguments. */
  function Stored(c: CreateCheck, id: Uuid): ChatMessage
    requires c.Accepted?
  {
    ChatMessage(Some(id), Some(c.chatId), c.contentHtml, c.contentMd, c.senderId, c.senderRole, None)
  }

  /** `ChatMessage.create` for the user's message: its rendered HTML, its Markdown and its sender. */
  function UserCreation(chatId: Uuid, md: string, senderId: Option<int>, sv: Services): CreateCheck
  {
    CheckCreate(Some(chatId), Some(sv.render(Entries.SuperFences, md)), Some(md), senderId, Some(SenderRole.User))
  }

  /**
   * The user's message is created and appended, the assistant is asked with
   * the history that now ends in it, and its reply is created as an
   * assistant message without sender.
   */
  function Exchange(chatId: Uuid, history: seq<ChatMessage>, md: string, senderId: Option<int>, sv: Services): (r: ExchangeResult)
    ensures r.Exchanged? ==>
      r.user.senderRole == SenderRole.User && r.user.contentMd == PyText.Strip(md) && r.user.senderId == senderId
      && r.user.chatId == Some(chatId) && r.user.id == Some(sv.userMessageId)
    ensures r.Exchanged? ==>
      r.assistant.senderRole == SenderRole.Assistant && r.assistant.senderId == None
      && r.assistant.contentMd == PyText.Strip(sv.reply(history + [r.user]))
      && r.assistant.chatId == Some(chatId) && r.assistant.id == Some(sv.replyMessageId)
    ensures r.UserRefused? <==>
      PyText.Strip(sv.render(Entries.SuperFences, md)) == [] || PyText.Strip(md) == []
      || (Truthy(senderId) && senderId.value < 0)
  {
    match UserCreation(chatId, md, senderId, sv)
    case Refused(e) => UserRefused(e)
    case user =>
      var u := Stored(user, sv.userMessageId);
      var answer := sv.reply(history + [u]);
      match CheckCreate(Some(chatId), Some(sv.render(Entries.SuperFences, answer)), Some(answer), None, Some(SenderRole.Assistant))
      case Refused(e) => ReplyRefused(u, e)
      case assistant => Exchanged(u, Stored(assistant, sv.replyMessageId))
  }

  // ---------------------------------------------------------------------
  // make: starting a chat
  // ---------------------------------------------------------------------

  const NoContentError := "A chat message must have content."
  const TooLongError := "Message exceeds maximum length allowed."
  const RangeError := "The provided context range is invalid."
  const InternalError := "An internal server error occurred."

  /** What `make` reads from the database and the services it calls. */
  datatype MakeWorld = MakeWorld(
    creatorId: Option<int>,              // the id of the session's user, if any
    message: Option<ChatMessage>,        // the quoted message, looked up by its id
    prior: seq<ChatMessage>,             // that message's chat up to and including it
    plainText: string -> string,         // the text of an HTML fragment
    topicOf: string -> Option<string>,   // the topic the LLM gives a message
    date: Date,
    inserted: Option<Uuid>,              // the id of the inserted chat row
    services: Services)

  datatype MakeResult =
    | ErrorResponse(status: ResponseStatus, code: nat, message: string)
    | ChatMade(id: Uuid, record: ChatRecord, messages: seq<ChatMessage>, edited: Option<ChatMessage>)
    | MakeRaised(error: string)

  /** The range is checked, and used, only when length, start and message id are all truthy. */
  predicate RangeGiven(length: Option<int>, start: Option<int>, messageId: Option<Uuid>)
  {
    Truthy(length) && Truthy(start) && messageId.Some?
  }

  /** The range check against the length of the quoted message's Markdown. */
  predicate RangeInvalid(start: int, length: int, mdLength: nat)
  {
    start < 0 || start >= mdLength || length < 0 || start + length > mdLength
  }

  /** The message `make` quotes: looked up only when a message id is given. */
  function Quoted(messageId: Option<Uuid>, w: MakeWorld): Option<ChatMessage>
  {
    if messageId.Some? then w.message else None
  }

  /**
   * The checks `make` runs before it creates anything, and the answer of the
   * first that fails. The content is stripped; the length error is replaced
   * by the range error when both apply. The range check is a short-circuit
   * `or`: a negative start is invalid before the quoted message is read, and
   * reading a message id that names no message raises AttributeError.
   * `stored` is the row the message id names, if any.
   */
  function MakeRefusal(contentMd: Option<string>, length: Option<int>, start: Option<int>, messageId: Option<Uuid>,
                       stored: Option<ChatMessage>): (r: Option<MakeResult>)
    ensures r.None? <==>
      && contentMd.Some? && PyText.Strip(contentMd.value) != "" && |PyText.Strip(contentMd.value)| <= ChatMessageMaxLen
      && (RangeGiven(length, start, messageId) ==>
            stored.Some? && !RangeInvalid(start.value, length.value, |stored.value.contentMd|))
    ensures r.Some? ==> r.value == MakeRaised("AttributeError") || (r.value.ErrorResponse? && r.value.status == BadRequest)
    ensures (contentMd.None? || PyText.Strip(contentMd.value) == "") ==>
      r == Some(ErrorResponse(BadRequest, BadRequest.Value(), NoContentError))
    ensures r == Some(MakeRaised("AttributeError")) <==>
      && contentMd.Some? && PyText.Strip(contentMd.value) != ""
      && RangeGiven(length, start, messageId) && start.value >= 0 && stored.None?
    ensures (contentMd.Some? && PyText.Strip(contentMd.value) != "" && RangeGiven(length, start, messageId)
             && (start.value < 0 || (stored.Some? && RangeInvalid(start.value, length.value, |stored.value.contentMd|)))) ==>
      r == Some(ErrorResponse(BadRequest, MessageContextInvalid.Value(), RangeError))
    ensures (contentMd.Some? && ChatMessageMaxLen < |PyText.Strip(contentMd.value)|
             && (RangeGiven(length, start, messageId) ==>
                   stored.Some? && !RangeInvalid(start.value, length.value, |stored.value.contentMd|))) ==>
      r == Some(ErrorResponse(BadRequest, ContentMaxLenExceeded.Value(), TooLongError))
  {
    var content := if contentMd.Some? && contentMd.value != "" then PyText.Strip(contentMd.value) else "";
    if content == "" then Some(ErrorResponse(BadRequest, BadRequest.Value(), NoContentError))
    else
      var message := if messageId.Some? then stored else None;
      var ranged := RangeGiven(length, start, messageId);
      if ranged && start.value < 0 then Some(ErrorResponse(BadRequest, MessageContextInvalid.Value(), RangeError))
      else if ranged && message.None? then Some(MakeRaised("AttributeError"))
      else if ranged && RangeInvalid(start.value, length.value, |message.value.contentMd|) then
        Some(ErrorResponse(BadRequest, MessageContextInvalid.Value(), RangeError))
      else if |content| > ChatMessageMaxLen then
        Some(ErrorResponse(BadRequest, ContentMaxLenExceeded.Value(), TooLongError))
      else None
  }

  /** `chat.make`: the checks, then `Fork` on the stripped content. */
  function Make(contentMd: Option<string>, length: Option<int>, start: Option<int>, messageId: Option<Uuid>,
                w: MakeWorld): MakeResult
  {
    match MakeRefusal(contentMd, length, start, messageId, w.message)
    case Some(refusal) => refusal
    case None => Fork(PyText.Strip(contentMd.value), length, start, messageId, Quoted(messageId, w), w)
  }

  /** The quoted message with its selection linked to the new chat and re-rendered. */
  function Linked(message: ChatMessage, plain: string, start: nat, length: nat, chatId: Uuid,
                  render: Entries.Renderer): ChatMessage
  {
    var md := Splice(message.contentMd, FindMarkdownIndices(plain, message.contentMd, start, length), chatId);
    message.(contentMd := md, contentHtml := render(Entries.SuperFences, md))
  }

  /** The part of `make` after the checks: create the chat, link the selection, run the first exchange. */
  function Fork(content: string, length: Option<int>, start: Option<int>, messageId: Option<Uuid>,
                message: Option<ChatMessage>, w: MakeWorld): (r: MakeResult)
    requires RangeGiven(length, start, messageId) ==>
      message.Some? && !RangeInvalid(start.value, length.value, |message.value.contentMd|)
    ensures r.ErrorResponse? ==> r.status == InternalServerError
    ensures r.ChatMade? ==> w.inserted.Some? && !(Truthy(w.creatorId) && w.creatorId.value <= 0)
    ensures w.inserted.None? && !(Truthy(w.creatorId) && w.creatorId.value <= 0) ==>
      r == ErrorResponse(InternalServerError, InternalServerError.Value(), InternalError)
  {
    var ranged := RangeGiven(length, start, messageId);
    var plain := if ranged then w.plainText(message.value.contentHtml) else "";
    var md := if ranged then WithContext(Selection(plain, start.value, length.value), content) else content;
    match CreateChat(messageId, w.topicOf(md), w.creatorId, w.date, w.inserted)
    case CreateRefused(e) => MakeRaised(e)
    case NotCreated => ErrorResponse(InternalServerError, InternalServerError.Value(), InternalError)
    case ChatCreated(id, record) =>
      var edited := if ranged then Some(Linked(message.value, plain, start.value, length.value, id, w.services.render)) else None;
      var history := if message.Some? then w.prior else [];
      Opened(id, record, history, md, w.creatorId, edited, w.services)
  }

  /**
   * The first exchange of a new chat: its messages are the quoted history,
   * the user's message and the reply, and a refused message raises.
   */
  function Opened(id: Uuid, record: ChatRecord, history: seq<ChatMessage>, md: string, senderId: Option<int>,
                  edited: Option<ChatMessage>, sv: Services): (r: MakeResult)
    ensures !r.ErrorResponse?
    ensures r.ChatMade? ==>
      && r.id == id && r.record == record && r.edited == edited
      && |r.messages| == |history| + 2 && r.messages[..|history|] == history
      && r.messages[|history|].senderRole == SenderRole.User
      && r.messages[|history|].contentMd == PyText.Strip(md)
      && r.messages[|history|].senderId == senderId
      && r.messages[|history| + 1].senderRole == SenderRole.Assistant
      && r.messages[|history| + 1].contentMd == PyText.Strip(sv.reply(history + [r.messages[|history|]]))
  {
    match Exchange(id, history, md, senderId, sv)
    case UserRefused(e) => MakeRaised(ErrorName(e))
    case ReplyRefused(_, e) => MakeRaised(ErrorName(e))
    case Exchanged(u, a) =>
      var ms := history + [u, a];
      assert ms[..|history|] == history && ms[|history|] == u && ms[|history| + 1] == a;
      ChatMade(id, record, ms, edited)
  }

  /**
   * `make` as written. The `gpt` module defines no `get_topic`, so every
   * request that passes the checks raises AttributeError where the topic is
   * asked for, before the chat is created.
   */
  function MakeAsWritten(contentMd: Option<string>, length: Option<int>, start: Option<int>, messageId: Option<Uuid>,
                         w: MakeWorld): MakeResult
  {
    match MakeRefusal(contentMd, length, start, messageId, w.message)
    case Some(refusal) => refusal
    case None => MakeRaised("AttributeError")
  }

  /**
   * As written, `make` never makes a chat: it answers as the intended `make`
   * does when a check fails, and raises AttributeError wherever the intended
   * `make` makes one.
   */
  lemma MakeAsWrittenNeverMakes(contentMd: Option<string>, length: Option<int>, start: Option<int>,
                                messageId: Option<Uuid>, w: MakeWorld)
    ensures !MakeAsWritten(contentMd, length, start, messageId, w).ChatMade?
    ensures MakeRefusal(contentMd, length, start, messageId, w.message).Some? ==>
      MakeAsWritten(contentMd, length, start, messageId, w) == Make(contentMd, length, start, messageId, w)
    ensures Make(contentMd, length, start, messageId, w).ChatMade? ==>
      MakeAsWritten(contentMd, length, start, messageId, w) == MakeRaised("AttributeError")
  {
  }

  /**
   * With a topic to store, `Chat.create` as written would still make no
   * chat: wherever `make` makes one, it answers an internal server error.
   */
  lemma MakeOverCreateAsWritten(contentMd: Option<string>, length: Option<int>, start: Option<int>,
                                messageId: Option<Uuid>, w: MakeWorld)
    ensures !Make(contentMd, length, start, messageId, w.(inserted := None)).ChatMade?
    ensures Make(contentMd, length, start, messageId, w).ChatMade? ==>
      Make(contentMd, length, start, messageId, w.(inserted := None))
        == ErrorResponse(InternalServerError, InternalServerError.Value(), InternalError)
  {
    var w2 := w.(inserted := None);
    assert Quoted(messageId, w2) == Quoted(messageId, w);
    if MakeRefusal(contentMd, length, start, messageId, w.message).None? {
      var content, message := PyText.Strip(contentMd.value), Quoted(messageId, w);
      assert !Fork(content, length, start, messageId, message, w2).ChatMade?;
    }
  }

  /** Missing or blank content is refused before anything else is looked at. */
  lemma MakeNeedsContent(contentMd: Option<string>, length: Option<int>, start: Option<int>,
                         messageId: Option<Uuid>, w: MakeWorld)
    ensures (contentMd.None? || PyText.Strip(contentMd.value) == "") <==>
      Make(contentMd, length, start, messageId, w) == ErrorResponse(BadRequest, BadRequest.Value(), NoContentError)
  {
    if contentMd.None? || PyText.Strip(contentMd.value) == "" {
      MakeWithoutContent(contentMd, length, start, messageId, w);
    } else {
      MakeWithContent(contentMd, length, start, messageId, w);
    }
  }

  /** Missing or blank content gets the no-content error. */
  lemma MakeWithoutContent(contentMd: Option<string>, length: Option<int>, start: Option<int>,
                           messageId: Option<Uuid>, w: MakeWorld)
    requires contentMd.None? || PyText.Strip(contentMd.value) == ""
    ensures Make(contentMd, length, start, messageId, w) == ErrorResponse(BadRequest, BadRequest.Value(), NoContentError)
  {
    if contentMd.Some? && contentMd.value == "" {
      assert PyText.Strip(contentMd.value) == "";
    }
  }

  /** Content that is not blank never gets the no-content error. */
  lemma MakeWithContent(contentMd: Option<string>, length: Option<int>, start: Option<int>,
                        messageId: Option<Uuid>, w: MakeWorld)
    requires contentMd.Some? && PyText.Strip(contentMd.value) != ""
    ensures Make(contentMd, length, start, messageId, w) != ErrorResponse(BadRequest, BadRequest.Value(), NoContentError)
  {
    assert contentMd.value != "";
    var refusal := MakeRefusal(contentMd, length, start, messageId, w.message);
    if refusal.None? {
      var r := Fork(PyText.Strip(contentMd.value), length, start, messageId, Quoted(messageId, w), w);
      assert Make(contentMd, length, start, messageId, w) == r;
    } else {
      assert refusal.value != ErrorResponse(BadRequest, BadRequest.Value(), NoContentError);
    }
  }

  /**
   * With content, a range and a message to quote, the answer is the range
   * error exactly when the range does not fit the message's Markdown.
   */
  lemma MakeChecksRange(contentMd: Option<string>, length: Option<int>, start: Option<int>,
                        messageId: Option<Uuid>, w: MakeWorld)
    requires contentMd.Some? && PyText.Strip(contentMd.value) != ""
    requires RangeGiven(length, start, messageId) && w.message.Some?
    ensures Make(contentMd, length, start, messageId, w) == ErrorResponse(BadRequest, MessageContextInvalid.Value(), RangeError)
      <==> RangeInvalid(start.value, length.value, |w.message.value.contentMd|)
  {
  }

  /**
   * A negative start is refused as an invalid range even when the message id
   * names no message: the check never reaches the message's length.
   */
  lemma MakeNegativeStartSkipsMessage(contentMd: Option<string>, length: Option<int>, start: Option<int>,
                                      messageId: Option<Uuid>, w: MakeWorld)
    requires contentMd.Some? && PyText.Strip(contentMd.value) != ""
    requires RangeGiven(length, start, messageId) && start.value < 0
    ensures Make(contentMd, length, start, messageId, w) == ErrorResponse(BadRequest, MessageContextInvalid.Value(), RangeError)
    ensures MakeAsWritten(contentMd, length, start, messageId, w) == Make(contentMd, length, start, messageId, w)
  {
  }

  /** A range starting at 0 is not truthy: the request is handled as if it had no range. */
  lemma MakeIgnoresRangeAtZero(contentMd: Option<string>, length: Option<int>, messageId: Option<Uuid>, w: MakeWorld)
    ensures Make(contentMd, length, Some(0), messageId, w) == Make(contentMd, None, None, messageId, w)
  {
    assert !RangeGiven(length, Some(0), messageId) && !RangeGiven(None, None, messageId);
    var content := if contentMd.Some? && contentMd.value != "" then PyText.Strip(contentMd.value) else "";
    var message := if messageId.Some? then w.message else None;
    if content != "" && |content| <= ChatMessageMaxLen {
      assert Make(contentMd, length, Some(0), messageId, w) == Fork(content, length, Some(0), messageId, message, w);
      assert Make(contentMd, None, None, messageId, w) == Fork(content, None, None, messageId, message, w);
      ForkWithoutRange(content, length, Some(0), messageId, message, w);
    }
  }

  /** Without a range, `Fork` does not look at the length and start it is given. */
  lemma ForkWithoutRange(content: string, length: Option<int>, start: Option<int>, messageId: Option<Uuid>,
                         message: Option<ChatMessage>, w: MakeWorld)
    requires !RangeGiven(length, start, messageId)
    ensures Fork(content, length, start, messageId, message, w) == Fork(content, None, None, messageId, message, w)
  {
  }

  /**
   * What `Fork` creates: a chat forked from the message id, whose messages
   * are the quoted message's history, the user's (stripped) message and the
   * reply; the quoted message is edited exactly when a range was given.
   */
  lemma ForkMade(content: string, length: Option<int>, start: Option<int>, messageId: Option<Uuid>,
                 message: Option<ChatMessage>, w: MakeWorld)
    requires RangeGiven(length, start, messageId) ==>
      message.Some? && !RangeInvalid(start.value, length.value, |message.value.contentMd|)
    requires Fork(content, length, start, messageId, message, w).ChatMade?
    ensures var r := Fork(content, length, start, messageId, message, w);
      var history := if message.Some? then w.prior else [];
      var ranged := RangeGiven(length, start, messageId);
      var plain := if ranged then w.plainText(message.value.contentHtml) else "";
      var md := if ranged then WithContext(Selection(plain, start.value, length.value), content) else content;
      && |r.messages| == |history| + 2 && r.messages[..|history|] == history
      && r.record.forkMessageId == messageId && r.record.userId == w.creatorId
      && r.messages[|history|].senderRole == SenderRole.User
      && r.messages[|history|].contentMd == PyText.Strip(md)
      && r.messages[|history| + 1].senderRole == SenderRole.Assistant
      && r.edited == (if ranged then Some(Linked(message.value, plain, start.value, length.value, r.id, w.services.render)) else None)
  {
    var history := if message.Some? then w.prior else [];
    var ranged := RangeGiven(length, start, messageId);
    var plain := if ranged then w.plainText(message.value.contentHtml) else "";
    var md := if ranged then WithContext(Selection(plain, start.value, length.value), content) else content;
    var c := CreateChat(messageId, w.topicOf(md), w.creatorId, w.date, w.inserted);
    assert c.ChatCreated?;
  }

  /** A made chat comes from `Fork` on the stripped content, with the range checks passed. */
  lemma MakeIsFork(contentMd: Option<string>, length: Option<int>, start: Option<int>,
                   messageId: Option<Uuid>, w: MakeWorld)
    requires Make(contentMd, length, start, messageId, w).ChatMade?
    ensures contentMd.Some? && PyText.Strip(contentMd.value) != ""
    ensures var message := if messageId.Some? then w.message else None;
      && (RangeGiven(length, start, messageId) ==>
            message.Some? && !RangeInvalid(start.value, length.value, |message.value.contentMd|))
      && Make(contentMd, length, start, messageId, w) == Fork(PyText.Strip(contentMd.value), length, start, messageId, message, w)
  {
    assert contentMd.value != "";
  }

  /** The context prefix keeps stripped content stripped. */
  lemma ContextKeepsStripped(context: string, s: string)
    requires PyText.Strip(s) != ""
    ensures PyText.Strip(WithContext(context, PyText.Strip(s))) == WithContext(context, PyText.Strip(s))
  {
    var t := PyText.Strip(s);
    assert PyText.Strip(WithContext(context, t)) == WithContext(context, t) by {
      assert !PyText.IsSpace(t[|t| - 1]);
      WithContextStripped(context, t);
    }
  }

  /**
   * A made chat is forked from the quoted message and holds that message's
   * history (none without one) followed by the user's message and the reply.
   */
  lemma MakeForks(contentMd: Option<string>, length: Option<int>, start: Option<int>,
                  messageId: Option<Uuid>, w: MakeWorld)
    requires Make(contentMd, length, start, messageId, w).ChatMade?
    ensures var r := Make(contentMd, length, start, messageId, w);
      var history := if messageId.Some? && w.message.Some? then w.prior else [];
      && |r.messages| == |history| + 2 && r.messages[..|history|] == history
      && r.record.forkMessageId == messageId && r.record.userId == w.creatorId
      && r.messages[|history|].senderRole == SenderRole.User
      && r.messages[|history| + 1].senderRole == SenderRole.Assistant
  {
    var message := if messageId.Some? then w.message else None;
    MakeIsFork(contentMd, length, start, messageId, w);
    ForkMade(PyText.Strip(contentMd.value), length, start, messageId, message, w);
  }

  /** Without a range, the user's message is the stripped content and no message is edited. */
  lemma MakeWithoutRange(contentMd: Option<string>, length: Option<int>, start: Option<int>,
                         messageId: Option<Uuid>, w: MakeWorld)
    requires Make(contentMd, length, start, messageId, w).ChatMade?
    requires !RangeGiven(length, start, messageId)
    ensures var r := Make(contentMd, length, start, messageId, w);
      var history := if messageId.Some? && w.message.Some? then w.prior else [];
      |r.messages| == |history| + 2
      && r.messages[|history|].contentMd == PyText.Strip(contentMd.value) && r.edited.None?
  {
    var message := if messageId.Some? then w.message else None;
    MakeIsFork(contentMd, length, start, messageId, w);
    ForkMade(PyText.Strip(contentMd.value), length, start, messageId, message, w);
    PyText.StripIdempotent(contentMd.value);
  }

  /**
   * With a range, the user's message is the quoted selection followed by the
   * stripped content, and the quoted message links the selection to the new
   * chat.
   */
  lemma MakeWithRange(contentMd: Option<string>, length: Option<int>, start: Option<int>,
                      messageId: Option<Uuid>, w: MakeWorld)
    requires Make(contentMd, length, start, messageId, w).ChatMade?
    requires RangeGiven(length, start, messageId)
    ensures w.message.Some?
    ensures var r := Make(contentMd, length, start, messageId, w);
      var plain := w.plainText(w.message.value.contentHtml);
      |r.messages| == |w.prior| + 2
      && r.messages[|w.prior|].contentMd == WithContext(Selection(plain, start.value, length.value), PyText.Strip(contentMd.value))
      && r.edited == Some(Linked(w.message.value, plain, start.value, length.value, r.id, w.services.render))
  {
    MakeIsFork(contentMd, length, start, messageId, w);
    ForkMade(PyText.Strip(contentMd.value), length, start, messageId, w.message, w);
    var plain := w.plainText(w.message.value.contentHtml);
    ContextKeepsStripped(Selection(plain, start.value, length.value), contentMd.value);
  }

  // ---------------------------------------------------------------------
  // The namespace's sessions
  // ---------------------------------------------------------------------

  /** A loaded chat: its id, its row and the messages loaded so far. */
  datatype ChatState = ChatState(id: Uuid, record: ChatRecord, messages: seq<ChatMessage>)

  /** `ChatSession`: the open chat, the number of connected sockets and the session's user. */
  datatype ChatSession = ChatSession(chat: Option<ChatState>, refCount: int, userId: Option<int>)

  /** What the namespace sends to a client, or the kick that disconnects it. */
  datatype Sent =
    | SessionNotice(sessionId: Option<string>)   // {"session_id": ...}
    | ErrorNotice(message: string)              // {"error": ...}
    | MessageNotice(reply: ChatMessage)         // {"message": message.as_dict()}
    | Kicked

  /** Every registered session has a non-empty key and at least one socket. */
  ghost predicate ValidSessions(m: map<string, ChatSession>)
  {
    forall k :: k in m ==> k != "" && m[k].refCount >= 1
  }

  /** The registry after `on_connect` for the session id and the session's user. */
  function Connected(m: map<string, ChatSession>, sessionId: Option<string>, userId: Option<int>): (r: map<string, ChatSession>)
    ensures ValidSessions(m) ==> ValidSessions(r)
    ensures forall k :: k in m ==> k in r
    ensures forall k :: k in r && (sessionId.None? || k != sessionId.value) ==> k in m && r[k] == m[k]
  {
    if sessionId.Some? && sessionId.value in m then
      m[sessionId.value := m[sessionId.value].(refCount := m[sessionId.value].refCount + 1)]
    else if sessionId.Some? && sessionId.value != "" then
      m[sessionId.value := ChatSession(None, 1, userId)]
    else m
  }

  /** The registry after `on_disconnect` for the session id. */
  function Disconnected(m: map<string, ChatSession>, sessionId: Option<string>): (r: map<string, ChatSession>)
    ensures ValidSessions(m) ==> ValidSessions(r)
    ensures forall k :: k in r ==> k in m
    ensures forall k :: k in m && (sessionId.None? || k != sessionId.value) ==> k in r && r[k] == m[k]
  {
    if sessionId.Some? && sessionId.value != "" && sessionId.value in m then
      var s := m[sessionId.value];
      if s.refCount - 1 < 1 then m - {sessionId.value}
      else m[sessionId.value := s.(refCount := s.refCount - 1)]
    else m
  }

  /** A disconnect undoes a connect of the same session id. */
  lemma DisconnectUndoesConnect(m: map<string, ChatSession>, sessionId: Option<string>, userId: Option<int>)
    requires ValidSessions(m)
    ensures Disconnected(Connected(m, sessionId, userId), sessionId) == m
  {
    if sessionId.Some? && sessionId.value != "" {
      var k := sessionId.value;
      var c := Connected(m, sessionId, userId);
      var d := Disconnected(c, sessionId);
      if k in m {
        assert c[k].refCount == m[k].refCount + 1 >= 2;
        assert d == c[k := m[k]];
      } else {
        assert c[k].refCount == 1;
        assert d == c - {k};
      }
      assert d.Keys == m.Keys;
    }
  }

  /** Two connects and two disconnects of a new session id leave the registry as it was, the key absent. */
  lemma ConnectTwiceDisconnectTwice(m: map<string, ChatSession>, sessionId: Option<string>, userId: Option<int>)
    requires ValidSessions(m)
    ensures var twice := Connected(Connected(m, sessionId, userId), sessionId, userId);
      Disconnected(Disconnected(twice, sessionId), sessionId) == m
    ensures sessionId.Some? && sessionId.value !in m ==>
      sessionId.value !in Disconnected(Disconnected(Connected(Connected(m, sessionId, userId), sessionId, userId), sessionId), sessionId)
  {
    var once := Connected(m, sessionId, userId);
    DisconnectUndoesConnect(once, sessionId, userId);
    DisconnectUndoesConnect(m, sessionId, userId);
  }

  // ---------------------------------------------------------------------
  // on_message
  // ---------------------------------------------------------------------

  /** The chats, the messages of each chat, and the messages up to each message, as the database holds them. */
  datatype ChatDb = ChatDb(
    chats: map<Uuid, ChatRecord>,
    byChat: map<Uuid, seq<ChatMessage>>,
    prior: map<Uuid, seq<ChatMessage>>)

  /** `ChatMessage.get_all_by_chat`: empty for a chat without messages. */
  function ByChat(db: ChatDb, chatId: Uuid): seq<ChatMessage>
  {
    if chatId in db.byChat then db.byChat[chatId] else []
  }

  /** `Chat.get_by_id`, loaded with no messages. */
  function LoadChat(chatId: Uuid, db: ChatDb): (r: Option<ChatState>)
    ensures r.Some? <==> chatId in db.chats
    ensures r.Some? ==> r.value.id == chatId && r.value.messages == []
  {
    if chatId in db.chats then Some(ChatState(chatId, db.chats[chatId], [])) else None
  }

  /** The session's chat is reloaded unless it is the chat the message is for. */
  function Reloaded(current: Option<ChatState>, chatId: Uuid, db: ChatDb): Option<ChatState>
  {
    if current.Some? && current.value.id == chatId then current else LoadChat(chatId, db)
  }

  /**
   * The history a message is answered with. Loaded messages are kept;
   * otherwise the messages up to the fork message come first and the chat's
   * own follow. A fork message that no longer exists raises AttributeError,
   * `None` here.
   */
  function Hydrated(c: ChatState, db: ChatDb): (r: Option<seq<ChatMessage>>)
    ensures c.messages != [] ==> r == Some(c.messages)
    ensures c.messages == [] && c.record.forkMessageId.None? ==> r == Some(ByChat(db, c.id))
    ensures c.messages == [] && c.record.forkMessageId.Some? ==>
      (r.Some? <==> c.record.forkMessageId.value in db.prior)
    ensures c.messages == [] && r.Some? ==>
      var own := ByChat(db, c.id);
      |r.value| >= |own| && r.value[|r.value| - |own|..] == own
      && (c.record.forkMessageId.Some? ==> r.value[..|r.value| - |own|] == db.prior[c.record.forkMessageId.value])
  {
    if c.messages != [] then Some(c.messages)
    else if c.record.forkMessageId.Some? then
      if c.record.forkMessageId.value in db.prior then Some(db.prior[c.record.forkMessageId.value] + ByChat(db, c.id))
      else None
    else Some(ByChat(db, c.id))
  }

  /**
   * Hydration as written: a loaded chat never has the fork attribute it
   * reads, so an empty history raises AttributeError.
   */
  function HydratedAsWritten(c: ChatState, db: ChatDb): Option<seq<ChatMessage>>
  {
    if c.messages != [] then Some(c.messages) else None
  }

  /**
   * Messages start empty on every loaded chat and nothing is appended before
   * hydration, so as written no message of a chat loaded in the session is
   * ever answered, where the intended hydration gives the chat's messages.
   */
  lemma HydrationAsWrittenRaises(chatId: Uuid, db: ChatDb)
    requires chatId in db.chats && db.chats[chatId].forkMessageId.None?
    ensures HydratedAsWritten(LoadChat(chatId, db).value, db).None?
    ensures Hydrated(LoadChat(chatId, db).value, db) == Some(ByChat(db, chatId))
  {
  }

  datatype Ending = Returned | Raised(error: string)

  /** The session, what was sent and how the handler ended, after the chat checks. */
  datatype Turn = Turn(session: ChatSession, notices: seq<Sent>, ending: Ending)

  const OwnerMismatchError := "Current user ID does not match current chat creator ID."

  /**
   * The part of `on_message` that works on the session's chat: reload,
   * owner and length checks, then the answer. Every change to the chat is
   * kept, including those made before an exception.
   */
  function Conversed(s: ChatSession, text: string, chatId: Uuid, db: ChatDb, sv: Services): Turn
  {
    var chat := Reloaded(s.chat, chatId, db);
    var loaded := s.(chat := chat);
    if chat.None? then Turn(loaded, [], Raised("AttributeError"))
    else if chat.value.record.userId != s.userId then Turn(loaded, [ErrorNotice(OwnerMismatchError)], Returned)
    else if |PyText.Strip(text)| > ChatMessageMaxLen then Turn(loaded, [ErrorNotice(TooLongError)], Returned)
    else
      var a := Answer(chat.value, PyText.Strip(text), db, sv);
      Turn(s.(chat := Some(a.chat)), a.notices, a.ending)
  }

  /** The chat after an answer, what was sent, and how the handler ended. */
  datatype Answered = Answered(chat: ChatState, notices: seq<Sent>, ending: Ending)

  /** Hydration of the loaded chat `c`, then the exchange on its history. */
  function Answer(c: ChatState, md: string, db: ChatDb, sv: Services): Answered
  {
    match Hydrated(c, db)
    case None => Answered(c, [], Raised("AttributeError"))
    case Some(h) =>
      match Exchange(c.id, h, md, c.record.userId, sv)
      case UserRefused(e) => Answered(c.(messages := h), [], Raised(ErrorName(e)))
      case ReplyRefused(u, e) => Answered(c.(messages := h + [u]), [], Raised(ErrorName(e)))
      case Exchanged(u, a) => Answered(c.(messages := h + [u, a]), [MessageNotice(a)], Returned)
  }

  /**
   * The answer as written. The `gpt` module defines no `chat`, so once the
   * user's message is created and appended the handler raises
   * AttributeError, and no reply is created or sent. (Hydration is the
   * intended one here; as written it raises earlier still.)
   */
  function AnswerAsWritten(c: ChatState, md: string, db: ChatDb, sv: Services): Answered
  {
    match Hydrated(c, db)
    case None => Answered(c, [], Raised("AttributeError"))
    case Some(h) =>
      match UserCreation(c.id, md, c.record.userId, sv)
      case Refused(e) => Answered(c.(messages := h), [], Raised(ErrorName(e)))
      case user => Answered(c.(messages := h + [Stored(user, sv.userMessageId)]), [], Raised("AttributeError"))
  }

  /** As written no message is ever answered: nothing is sent and the handler raises. */
  lemma AnswerAsWrittenSilent(c: ChatState, md: string, db: ChatDb, sv: Services)
    ensures AnswerAsWritten(c, md, db, sv).notices == [] && AnswerAsWritten(c, md, db, sv).ending.Raised?
  {
  }

  /** A completed exchange began with a user's message that `ChatMessage.create` accepted. */
  lemma ExchangedAccepted(chatId: Uuid, history: seq<ChatMessage>, md: string, senderId: Option<int>, sv: Services)
    requires Exchange(chatId, history, md, senderId, sv).Exchanged?
    ensures UserCreation(chatId, md, senderId, sv).Accepted?
  {
  }

  /** A completed exchange stored the user's message as `ChatMessage.create` accepted it. */
  lemma ExchangedUser(chatId: Uuid, history: seq<ChatMessage>, md: string, senderId: Option<int>, sv: Services)
    requires Exchange(chatId, history, md, senderId, sv).Exchanged?
    ensures UserCreation(chatId, md, senderId, sv).Accepted?
    ensures Exchange(chatId, history, md, senderId, sv).user == Stored(UserCreation(chatId, md, senderId, sv), sv.userMessageId)
  {
    ExchangedAccepted(chatId, history, md, senderId, sv);
  }

  /** A message that is answered was hydrated and exchanged, and the chat keeps both new messages. */
  lemma AnsweredExchange(c: ChatState, md: string, db: ChatDb, sv: Services)
    requires Answer(c, md, db, sv).notices != []
    ensures Hydrated(c, db).Some?
    ensures var h := Hydrated(c, db).value;
      var ex := Exchange(c.id, h, md, c.record.userId, sv);
      ex.Exchanged? && Answer(c, md, db, sv).chat.messages == h + [ex.user, ex.assistant]
  {
  }

  /** As written, an accepted user's message is appended and then the handler raises. */
  lemma AnswerAsWrittenAccepted(c: ChatState, md: string, db: ChatDb, sv: Services)
    requires Hydrated(c, db).Some? && UserCreation(c.id, md, c.record.userId, sv).Accepted?
    ensures AnswerAsWritten(c, md, db, sv)
      == Answered(c.(messages := Hydrated(c, db).value + [Stored(UserCreation(c.id, md, c.record.userId, sv), sv.userMessageId)]),
                  [], Raised("AttributeError"))
  {
  }

  /** As written, where the intended exchange completes, the user's message it stores is appended and the handler raises. */
  lemma AnswerAsWrittenExchanged(c: ChatState, md: string, db: ChatDb, sv: Services)
    requires Hydrated(c, db).Some?
    requires Exchange(c.id, Hydrated(c, db).value, md, c.record.userId, sv).Exchanged?
    ensures var h := Hydrated(c, db).value;
      AnswerAsWritten(c, md, db, sv)
        == Answered(c.(messages := h + [Exchange(c.id, h, md, c.record.userId, sv).user]), [], Raised("AttributeError"))
  {
    ExchangedUser(c.id, Hydrated(c, db).value, md, c.record.userId, sv);
    AnswerAsWrittenAccepted(c, md, db, sv);
  }

  /**
   * Wherever the intended answer replies, the history as written keeps the
   * user's message but not the reply, and the handler raises AttributeError.
   */
  lemma AnswerAsWrittenNeverReplies(c: ChatState, md: string, db: ChatDb, sv: Services)
    requires Answer(c, md, db, sv).notices != []
    ensures var ms := Answer(c, md, db, sv).chat.messages;
      |ms| > 0 && AnswerAsWritten(c, md, db, sv) == Answered(c.(messages := ms[..|ms| - 1]), [], Raised("AttributeError"))
  {
    AnsweredExchange(c, md, db, sv);
    var h := Hydrated(c, db).value;
    var ex := Exchange(c.id, h, md, c.record.userId, sv);
    AnswerAsWrittenExchanged(c, md, db, sv);
    var ms := Answer(c, md, db, sv).chat.messages;
    assert ms == h + [ex.user, ex.assistant];
    DropReply(h, ex.user, ex.assistant);
    assert ms[..|ms| - 1] == h + [ex.user];
  }

  /** Dropping the reply from an exchanged history leaves the history with the user's message. */
  lemma DropReply(h: seq<ChatMessage>, user: ChatMessage, reply: ChatMessage)
    ensures (h + [user, reply])[..|h| + 1] == h + [user]
  {
  }


  /** A message that passes the chat checks is answered on the reloaded chat. */
  lemma ConversedAnswers(s: ChatSession, text: string, chatId: Uuid, c: ChatState, db: ChatDb, sv: Services)
    requires Reloaded(s.chat, chatId, db) == Some(c) && c.record.userId == s.userId
    requires |PyText.Strip(text)| <= ChatMessageMaxLen
    ensures var a := Answer(c, PyText.Strip(text), db, sv);
      Conversed(s, text, chatId, db, sv) == Turn(s.(chat := Some(a.chat)), a.notices, a.ending)
  {
  }

  /**
   * A missing chat, an owner mismatch or an over-long message is refused
   * before any message is created: the chat is only (re)loaded, nothing is
   * appended and no reply is sent.
   */
  lemma ConversedRejects(s: ChatSession, text: string, chatId: Uuid, db: ChatDb, sv: Services)
    requires var chat := Reloaded(s.chat, chatId, db);
      chat.None? || chat.value.record.userId != s.userId || |PyText.Strip(text)| > ChatMessageMaxLen
    ensures var t := Conversed(s, text, chatId, db, sv);
      t.session == s.(chat := Reloaded(s.chat, chatId, db))
      && forall i :: 0 <= i < |t.notices| ==> !t.notices[i].MessageNotice?
  {
  }

  /**
   * An answered message leaves the chat's history as it was hydrated,
   * followed by the user's message and the reply in that order, and sends
   * the reply; the assistant saw the history ending in the user's message.
   */
  lemma AnswerAppendsExchange(c: ChatState, md: string, db: ChatDb, sv: Services)
    requires Answer(c, md, db, sv).notices != [] && Answer(c, md, db, sv).notices[0].MessageNotice?
    ensures Hydrated(c, db).Some?
    ensures var t := Answer(c, md, db, sv);
      var h := Hydrated(c, db).value;
      var reply := t.notices[0].reply;
      var ms := t.chat.messages;
      && t.ending == Returned && t.chat == c.(messages := ms)
      && |ms| == |h| + 2 && ms[..|h|] == h && ms[|h| + 1] == reply
      && ms[|h|].senderRole == SenderRole.User && ms[|h|].contentMd == PyText.Strip(md)
      && ms[|h|].senderId == c.record.userId
      && reply.senderRole == SenderRole.Assistant && reply.contentMd == PyText.Strip(sv.reply(h + [ms[|h|]]))
  {
    var h := Hydrated(c, db).value;
    var ex := Exchange(c.id, h, md, c.record.userId, sv);
    assert ex.Exchanged?;
    var ms := h + [ex.user, ex.assistant];
    assert ms[..|h|] == h && ms[|h|] == ex.user;
  }

  /**
   * On a message that is answered, the session holds the chat it was for,
   * owned by the session's user, and its history grows by the user's
   * stripped message and the reply.
   */
  lemma ConversedAppendsExchange(s: ChatSession, text: string, chatId: Uuid, db: ChatDb, sv: Services)
    requires Conversed(s, text, chatId, db, sv).notices != []
    requires Conversed(s, text, chatId, db, sv).notices[0].MessageNotice?
    ensures var chat := Reloaded(s.chat, chatId, db);
      && chat.Some? && chat.value.id == chatId && chat.value.record.userId == s.userId
      && |PyText.Strip(text)| <= ChatMessageMaxLen
      && Hydrated(chat.value, db).Some?
      && var h := Hydrated(chat.value, db).value;
      && var ms := Conversed(s, text, chatId, db, sv).session.chat.value.messages;
      && |ms| == |h| + 2 && ms[..|h|] == h && ms[|h|].contentMd == PyText.Strip(text)
      && ms[|h|].senderRole == SenderRole.User && ms[|h| + 1].senderRole == SenderRole.Assistant
  {
    var chat := Reloaded(s.chat, chatId, db);
    assert chat.Some? && chat.value.record.userId == s.userId && |PyText.Strip(text)| <= ChatMessageMaxLen;
    AnswerAppendsExchange(chat.value, PyText.Strip(text), db, sv);
    PyText.StripIdempotent(text);
  }

  /** What `on_message` gets from the client's data before touching the session's chat. */
  datatype Parsed =
    | Dropped(notices: seq<Sent>, ending: Ending)
    | Received(notices: seq<Sent>, text: string, chatId: Uuid)

  const InvalidSessionError := "Invalid session."
  const EmptyContentError := "Empty message content."
  const InvalidContentError := "Invalid message content."
  const MissingChatIdError := "Missing chat ID."

  /** Python truthiness of an optional JSON value. */
  predicate JsonTruthy(j: Option<Json>)
  {
    match j
    case None => false
    case Some(JNull) => false
    case Some(JBool(b)) => b
    case Some(JInt(i)) => i != 0
    case Some(JStr(s)) => s != ""
    case Some(JList(items)) => items != []
    case Some(JObject(fields)) => fields != map[]
  }

  /**
   * The content and chat id checks of `on_message`. Empty content is
   * reported and then goes on; non-text content, a missing chat id and a
   * chat id that is not a UUID end the handler.
   */
  function ParseMessage(content: Option<Json>, chatId: Option<Json>): (r: Parsed)
    ensures r.Received? <==>
      content.Some? && content.value.JStr? && JsonTruthy(chatId) && chatId.value.JStr?
      && Entries.ParseUuid(chatId.value.s).Some?
    ensures r.Received? ==> content == Some(JStr(r.text)) && Entries.ParseUuid(chatId.value.s) == Some(r.chatId)
    ensures r.Received? ==> r.notices == (if r.text == "" then [ErrorNotice(EmptyContentError)] else [])
    ensures content.Some? && content.value.JStr? && !JsonTruthy(chatId) ==>
      r == Dropped((if content.value.s == "" then [ErrorNotice(EmptyContentError)] else [])
                   + [ErrorNotice(MissingChatIdError)], Returned)
  {
    var empty := if JsonTruthy(content) then [] else [ErrorNotice(EmptyContentError)];
    if !(content.Some? && content.value.JStr?) then Dropped(empty + [ErrorNotice(InvalidContentError)], Returned)
    else if !JsonTruthy(chatId) then Dropped(empty + [ErrorNotice(MissingChatIdError)], Returned)
    else if !chatId.value.JStr? then Dropped(empty, Raised("AttributeError"))
    else match Entries.ParseUuid(chatId.value.s)
      case None => Dropped(empty, Raised("ValueError"))
      case Some(id) => Received(empty, content.value.s, id)
  }

  /** The notices for a session id that names no session; a falsy id is reported twice. */
  function InvalidSessionNotices(sessionId: Option<string>): seq<Sent>
  {
    var once := [ErrorNotice(InvalidSessionError), Kicked];
    if sessionId.Some? && sessionId.value != "" then once else once + once
  }

  lemma UpdateTwice<K, V>(m: map<K, V>, k: K, x: V, y: V)
    ensures m[k := x][k := y] == m[k := y]
  {
  }

  /** `ChatNamespace`: the registry of chat sessions, keyed by session id, and what it has sent. */
  class ChatNamespace {
    var sessions: map<string, ChatSession>
    var sent: seq<Sent>

    ghost predicate Valid()
      reads this
    {
      ValidSessions(sessions)
    }

    constructor ()
      ensures Valid() && sessions == map[] && sent == []
    {
      sessions := map[];
      sent := [];
    }

    /**
     * `on_connect`: one more socket for a known session, a new session for a
     * new truthy id; the session id is sent back either way.
     */
    method OnConnect(sessionId: Option<string>, userId: Option<int>)
      requires Valid()
      modifies this
      ensures Valid()
      ensures sessions == Connected(old(sessions), sessionId, userId)
      ensures sent == old(sent) + [SessionNotice(sessionId)]
    {
      if sessionId.Some? && sessionId.value in sessions {
        var s := sessions[sessionId.value];
        sessions := sessions[sessionId.value := s.(refCount := s.refCount + 1)];
      } else if sessionId.Some? && sessionId.value != "" {
        sessions := sessions[sessionId.value := ChatSession(None, 1, userId)];
      }
      sent := sent + [SessionNotice(sessionId)];
    }

    /** `on_disconnect`: one socket fewer; the session goes when none is left. */
    method OnDisconnect(sessionId: Option<string>)
      requires Valid()
      modifies this
      ensures Valid()
      ensures sessions == Disconnected(old(sessions), sessionId)
      ensures sent == old(sent)
    {
      if sessionId.Some? && sessionId.value != "" && sessionId.value in sessions {
        var s := sessions[sessionId.value];
        s := s.(refCount := s.refCount - 1);
        if s.refCount < 1 {
          sessions := sessions - {sessionId.value};
        } else {
          sessions := sessions[sessionId.value := s];
        }
      }
    }

    /**
     * `on_message`: a session id that names no session is reported (and the
     * client kicked) before the handler fails on the missing session;
     * otherwise the data is checked and the session's chat answers it.
     */
    method OnMessage(sessionId: Option<string>, content: Option<Json>, chatId: Option<Json>, db: ChatDb, sv: Services)
      returns (ending: Ending)
      requires Valid()
      modifies this
      ensures Valid()
      ensures !(sessionId.Some? && sessionId.value in old(sessions)) ==>
        sessions == old(sessions) && sent == old(sent) + InvalidSessionNotices(sessionId)
        && ending == Raised("AttributeError")
      ensures sessionId.Some? && sessionId.value in old(sessions) ==>
        var p := ParseMessage(content, chatId);
        && (p.Dropped? ==> sessions == old(sessions) && sent == old(sent) + p.notices && ending == p.ending)
        && (p.Received? ==>
              var t := Conversed(old(sessions)[sessionId.value], p.text, p.chatId, db, sv);
              sessions == old(sessions)[sessionId.value := t.session]
              && sent == old(sent) + p.notices + t.notices && ending == t.ending)
    {
      if !(sessionId.Some? && sessionId.value != "") {
        sent := sent + [ErrorNotice(InvalidSessionError), Kicked];
      }
      if !(sessionId.Some? && sessionId.value in sessions) {
        sent := sent + [ErrorNotice(InvalidSessionError), Kicked];
        return Raised("AttributeError");
      }
      var p := ParseMessage(content, chatId);
      sent := sent + p.notices;
      if p.Dropped? {
        return p.ending;
      }
      ending := Converse(sessionId.value, p.text, p.chatId, db, sv);
    }

    /** The steps of `on_message` on the session's chat, each stored as it happens. */
    method Converse(key: string, text: string, chatId: Uuid, db: ChatDb, sv: Services) returns (ending: Ending)
      requires Valid() && key in sessions
      modifies this
      ensures Valid()
      ensures var t := Conversed(old(sessions)[key], text, chatId, db, sv);
        sessions == old(sessions)[key := t.session] && sent == old(sent) + t.notices && ending == t.ending
    {
      var s := sessions[key];
      if s.chat.None? || s.chat.value.id != chatId {
        s := s.(chat := LoadChat(chatId, db));
        sessions := sessions[key := s];
      }
      assert sessions == old(sessions)[key := s];
      if s.chat.None? {
        return Raised("AttributeError");
      }
      var c := s.chat.value;
      if c.record.userId != s.userId {
        sent := sent + [ErrorNotice(OwnerMismatchError)];
        return Returned;
      }
      var md := PyText.Strip(text);
      if |md| > ChatMessageMaxLen {
        sent := sent + [ErrorNotice(TooLongError)];
        return Returned;
      }
      ghost var t := Conversed(old(sessions)[key], text, chatId, db, sv);
      ending := Reply(key, old(sessions)[key], text, chatId, c, md, db, sv);
      UpdateTwice(old(sessions), key, s, t.session);
    }

    /**
     * Hydration and the exchange on the session's loaded chat `c`; `s` is
     * the session as the handler found it.
     */
    method Reply(key: string, ghost s: ChatSession, ghost text: string, ghost chatId: Uuid,
                 c: ChatState, md: string, db: ChatDb, sv: Services) returns (ending: Ending)
      requires Valid() && key in sessions && sessions[key] == s.(chat := Some(c))
      requires Reloaded(s.chat, chatId, db) == Some(c) && c.record.userId == s.userId
      requires md == PyText.Strip(text) && |md| <= ChatMessageMaxLen
      modifies this
      ensures Valid()
      ensures var t := Conversed(s, text, chatId, db, sv);
        sessions == old(sessions)[key := t.session] && sent == old(sent) + t.notices && ending == t.ending
    {
      var a := Answer(c, md, db, sv);
      ConversedAnswers(s, text, chatId, c, db, sv);
      sessions := sessions[key := sessions[key].(chat := Some(a.chat))];
      sent := sent + a.notices;
      ending := a.ending;
    }
  }
}
