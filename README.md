# Mycyclopedia core, modelled in Dafny

Mycyclopedia is an AI-written encyclopedia. A reader types a topic, and the
server does the following:

- It asks an OpenAI model for a proper title, a summary, fun facts and stats.
- It stores the entry.
- It streams the table of contents, the sections and the related topics to
  the page as server-sent events.
- It opens a chat beside any section.
- Readers can start standalone chats over Socket.IO, optionally forked from
  a selection in an earlier message.

The model covers:

- **Configuration.** The constants and enumerations in `app/config.py`:
  message roles, response statuses, proficiencies and the two model token
  tables. Modelled in `config.dfy`.
- **Python's `str` behaviour** that the server relies on: `strip`, filtering
  comprehensions, `find`, slicing, `int()` and `str()`. Modelled in
  `pytext.dfy`.
- **Utilities.** `util.unquote` and `util.double_escape`. Modelled in
  `util.dfy`.
- **Accounts.** The address check, the printable filter, and the decision
  logic of `join`, `log_in` and `get_account`. Modelled in `user.dfy`.
- **Adapters.** The status tables of the two adapters, the error-page
  handlers, and the argument parsing of `make_entry` and
  `make_chat_completion`. Modelled in `web_adapter.dfy` and
  `json_adapter.dfy`.
- **Chat messages.** Their formats, serialisation and creation checks, and
  `get_chat`'s argument handling. Modelled in `chat_message.dfy`.
- **The OpenAI layer** (`gpt.dfy`):
  - the token accounting of `num_tokens_from_messages`;
  - the context-window trimming loop of `get_entry_chat_completion`, and its
    timeout retries;
  - the repair applied to JSON answers;
  - the shared retry and temperature policy of the `get_entry_*` generators.
- **Entries as values** (`entry.dfy`): the record serialisations (`as_dict`)
  and their read-back, and the decision logic of `entry.make`.
- **The entry streams** (`entry_streams.dfy`): `get_related_topics`,
  `make_sections`, `make_section` and `make_chat_completion`. They are
  methods of a store class (`EntryStore`) that holds the rows, the
  module-level chat histories, the next free id, the events streamed and
  the generator requests made.
- **Chats** (`chat.dfy`):
  - `Chat.create`;
  - the Markdown index search and hyperlink splice of `chat.make`, and
    `make` itself;
  - the Socket.IO namespace. Its session registry is a `map` field of the
    `ChatNamespace` class, updated by `OnConnect`, `OnDisconnect` and
    `OnMessage`.
- **The page script** (`entry_js.dfy`): `calculateGlobalOffset` as a
  recursive walk proved equal to a document-order count;
  `presentSelectionPopup`'s state changes; and `getSections`' attachment of
  streamed subsections.

Some external services become parameters, not code:

- the database is a map or a lookup function;
- the language model is a scripted backend from request to outcome;
- the tokenizer, SHA-256 and the Markdown renderer are functions.

Where the source has a bug, the model keeps both versions:

- a member that models the code as written, with a lemma that exhibits the
  bug;
- the corrected member, which the rest of the model uses.

These pairs are listed under "## Findings".

## Model

| member | source | states |
|---|---|---|
| Config.SenderRoleOf | app/config.py:11-14 | a role read from a string has that string as its value |
| Config.SenderRoleValuesDistinct | app/config.py:11-14 | the three role strings are pairwise distinct and each reads back as its role |
| Config.StatusOf | app/config.py:125-149 | exactly the integers 0..21 name a status, and the status found has that integer as its value |
| Config.StatusValueRoundTrip | app/config.py:125-149 | every status's integer is at most 21 and reads back as the same status |
| Config.StatusValuesDistinct | app/config.py:125-149 | two statuses share an integer only if they are the same status |
| Config.ProficiencyOf | app/config.py:152-155 | exactly 1, 2 and 3 name a proficiency, each the level with that value |
| Config.ProficiencyPromptsDistinct | app/config.py:157-165 | the three prompt descriptions are non-empty and pairwise distinct, and so are the values 1..3 |
| Config.Proficiency.PromptFormat | app/config.py:157-165 | the reader description for a proficiency; ProficiencyPromptsDistinct and PromptInitial state that the three are non-empty, pairwise distinct, and each starts with its level's initial |
| Config.PromptInitial | app/config.py:157-165 | each description starts with the initial of its level's name |
| Config.TokenLimit | app/config.py:175-180 | a model's output limit never exceeds its context window |
| Config.ModelTablesAgree | app/config.py:168-180 | both tables list the same four models, and every output limit fits in its model's context window |
| PyText.StripLeft | app/modules/chat.py:118 | the result is a suffix of the input that does not start with whitespace; the part removed is all whitespace |
| PyText.StripRight | app/modules/chat.py:118 | the result is a prefix of the input that does not end with whitespace; the part removed is all whitespace |
| PyText.LeadingSpaces | app/modules/chat.py:118 | the count of leading spaces is within the text |
| PyText.Strip | app/modules/chat.py:118 | the result is a contiguous slice of the input with no whitespace at either end |
| PyText.StripEmpty | app/modules/entry.py:1491-1496 | stripping leaves nothing exactly when the text is all whitespace (the "no topic" test) |
| PyText.StripUnchanged | app/modules/chat.py:118 | a text with no surrounding whitespace is left as it is |
| PyText.StripIdempotent | app/modules/chat.py:118 | stripping twice is stripping once |
| PyText.Filter | app/modules/user.py:353 | the filtered text keeps only characters that pass, loses none that pass, and is never longer |
| PyText.FilterIsSubsequence | app/modules/user.py:353 | the filtered text is the input with characters deleted, in order |
| PyText.FilterIdempotent | app/modules/user.py:353 | filtering twice is filtering once |
| PyText.FindFrom | app/modules/chat.py:518 | the index found is the first occurrence at or after the start; none means there is no occurrence there |
| PyText.Find | app/modules/chat.py:518 | `find` gives the first occurrence, and -1 (None) exactly when there is none |
| PyText.FindChar | app/modules/user.py:143 | the index found holds the character, which does not occur before it; none exactly when it is absent |
| PyText.Slice | app/modules/chat.py:516 | slicing clamps to the text's length, and within bounds it is the ordinary subsequence |
| PyText.NatText | app/modules/chat.py:668 | `str(n)` is never empty |
| PyText.IntText | app/modules/chat.py:668 | `str(n)` is never empty |
| PyText.ParseInt | app/modules/chat.py:565-579 | `int()` succeeds only on text that is not blank |
| PyText.NatTextValue | app/modules/chat.py:668 | `str(n)` is all decimal digits and its digits read back as n |
| PyText.NatTextInjective | app/modules/chat.py:668 | different numbers have different decimal texts |
| PyText.ParseIntText | app/modules/chat.py:565-579 | `int(str(n)) == n` for every integer |
| Util.UnquoteText | app/modules/util.py:136-140 | an unquoted string is unchanged; a quoted one loses exactly its first and last character |
| Util.Unquote | app/modules/util.py:136-140 | a non-string argument comes back unchanged, and a string is unquoted |
| Util.ReplaceCharAppend | app/modules/util.py:55-57 | `replace` of a single character distributes over concatenation |
| Util.DoubleEscapeOnePass | app/modules/util.py:50-58 | the three chained replacements equal one pass that puts a backslash before every backslash and quote, so no inserted backslash is escaped again |
| Util.DoubleEscapeLength | app/modules/util.py:50-58 | the escaped text is one character longer per backslash or quote |
| Util.EscapeEachLength | app/modules/util.py:50-58 | the one-pass escape adds exactly one character per escaped character |
| Util.UnescapeEscapeEach | app/modules/util.py:50-58 | reading the one-pass escape back gives the original |
| Util.DoubleEscapeRoundTrip | app/modules/util.py:50-58 | `double_escape` is invertible: decoding its output gives back its input |
| Util.DoubleEscape | app/modules/util.py:50-58 | backslashes, then double quotes, then single quotes are backslash-escaped; DoubleEscapeOnePass, DoubleEscapeLength and DoubleEscapeRoundTrip state it as one escaping pass, its length and its inverse |
| Users.PrintableOnly | app/modules/user.py:353 | the filtered address holds only characters of `string.printable` |
| Users.PrintableOnlyFilter | app/modules/user.py:421 | the filter only deletes characters, and applying it again changes nothing |
| Users.EmailValidMatchesPattern | app/modules/user.py:141-145 | the address check holds exactly when the address fully matches `[^@]+@[^@]+\.[^@]+`; the empty address fails |
| Users.EmailValid | app/modules/user.py:141-145 | the address check; EmailValidMatchesPattern, EmailValidHasPattern and PatternIsEmailValid prove it equal to a full match of the address pattern |
| Users.EmailValidHasPattern | app/modules/user.py:141-145 | an accepted address matches the pattern |
| Users.PatternIsEmailValid | app/modules/user.py:141-145 | an address built as local part, '@', domain with an inner '.', is accepted |
| Users.Join | app/modules/user.py:346-415 | an account is created exactly for a present, valid, unused address and a present password, with the salted double hash stored; an empty address, or one in use, gets its own error; every refusal is a bad request; with a present address, a missing password is refused as a missing parameter without the 422 flag, and an invalid address as EMAIL_FORMAT_INVALID |
| Users.LogIn | app/modules/user.py:418-478 | logging in succeeds exactly when the account exists and its stored hash matches the salted hash of the password; every refusal is a bad request; with a present address, a missing password is refused as a missing parameter without the 422 flag, and every other refusal is CREDENTIALS_INVALID |
| Users.JoinThenLogIn | app/modules/user.py:383-449 | after `join` stores its row, logging in with the same address and password succeeds |
| Users.AccountIdArg | app/modules/user.py:259-270 | the parsed id is the integer the text holds, and it is present exactly when that integer is positive |
| Users.GetAccount | app/modules/user.py:259-313 | with neither key the request is a bad request; a positive id is looked up by id, and a missing account is NOT_FOUND; an invalid address is refused; with no usable id and a valid address, the account found by address is returned, and a missing one is NOT_FOUND / USER_NOT_FOUND; any account found came from one of the two lookups |
| WebAdapter.MapStatus | app/adapters/web.py:74-108 | every status maps to a known HTTP code; 500 exactly for INTERNAL_SERVER_ERROR and the specific statuses; 2xx exactly for OK, CREATED and NO_CONTENT |
| WebAdapter.MapStatusGenericInjective | app/adapters/web.py:74-108 | the twelve generic statuses get twelve different HTTP codes |
| WebAdapter.MapCode | app/adapters/web.py:74-108 | a plain integer maps like the status with that value, and to 500 outside 0..11 |
| WebAdapter.HandleAsWritten | app/adapters/web.py:176-189 | as written, a handler given a text description always serves 500; a dictionary description is served with its code mapped |
| WebAdapter.HandlerLosesLiteral | app/adapters/web.py:176-269 | every handler except the 500 one serves a text description with a status other than its own code |
| WebAdapter.Handle | app/adapters/web.py:176-269 | corrected: a text description is served with the handler's own HTTP code; dictionary descriptions are handled as written |
| WebAdapter.ParseReset | app/adapters/web.py:475-478 | the history is kept exactly when `reset` is the text "0"; an absent argument resets |
| WebAdapter.ParseProficiency | app/adapters/web.py:446-452 | a value that parses to 1..3 selects that level; anything else falls back to INTERMEDIATE |
| WebAdapter.ParseProficiencyRoundTrip | app/adapters/web.py:446-452 | every level written as its number parses back to itself |
| JsonAdapter.MapStatus | app/adapters/json.py:61-89 | every status maps to a known code; 500 also for CREATED, NO_CONTENT and NOT_ALLOWED, which have no branch |
| JsonAdapter.AgreesWithWeb | app/adapters/json.py:61-89 | the JSON table equals the HTML table except on those three statuses, where it gives 500 and the HTML table does not |
| ChatMessages.PromptFormat | app/modules/chat_message.py:315-320 | the OpenAI message has exactly a role and a content, holding the sender's role value and the Markdown |
| ChatMessages.ChatLabel | app/modules/chat_message.py:91-94 | the assistant is labelled "you"; every other role by its own value |
| ChatMessages.ChatFormat | app/modules/chat_message.py:91-96 | the transcript line is the role's label, ": ", then the whole Markdown |
| ChatMessages.ChatFormatInjective | app/modules/chat_message.py:91-96 | two equal transcript lines come from the same role and the same text |
| ChatMessages.AsDict | app/modules/chat_message.py:70-89 | the five fixed keys are present with the message's values, the chat id and id as UUID text or null; the sender id appears exactly when truthy, and the sender exactly when present, with its own value |
| ChatMessages.CheckCreate | app/modules/chat_message.py:108-133 | the arguments are accepted exactly when all are present with the right types, both texts have content once stripped and the sender id is not negative; accepted texts come back stripped; in the order of the checks, a missing chat id or HTML is a TypeError naming it, blank HTML a ValueError naming `content_html`, missing Markdown a TypeError and blank Markdown a ValueError naming `content_md`, a negative sender id a ValueError naming `sender_id`, and a missing role a TypeError naming `sender_role` |
| ChatMessages.GetChat | app/modules/chat_message.py:352-394 | the intended `get_chat`: the messages of the chat the id names are fetched exactly for a chat id that parses to a non-zero integer and a non-empty session id, and the id is what was parsed; the offset is the parsed value, defaulting to 0; a missing or zero id is "Missing chat ID."; it never raises |
| ChatMessages.GetChatTextRoundTrip | app/modules/chat_message.py:352-394 | under the intended `get_chat`, a request carrying `str(id)` and `str(offset)` is answered from the chat `id` names, from that offset |
| ChatMessages.GetChatAsWritten | app/modules/chat_message.py:352-394 | `get_chat` as written: the refusals, then TypeError from `get_all_by_chat` (chat_message.py:190-191), which is handed `int(chat_id)` |
| ChatMessages.GetChatAsWrittenNeverFetches | app/modules/chat_message.py:356-380 | as written no request fetches messages: the written handler raises TypeError exactly where the intended one fetches, and it refuses the same requests with the same answer |
| Chats.ChatTopicStripped | app/modules/chat.py:307-311 | the stored topic is never blank and is already stripped: the stripped given topic if it has text, else the dated default |
| Chats.CreateChat | app/modules/chat.py:291-347 | corrected: a non-positive truthy user id is refused; otherwise a chat is created exactly when the row is inserted, with the stripped or default topic, the owner and the fork message |
| Chats.CreateChatAsWrittenNeverCreates | app/modules/chat.py:326-336 | as written the INSERT passes three values for two columns, so no chat is ever created, whatever the database would insert |
| Chats.CreateChatAsWritten | app/modules/chat.py:326-336 | `Chat.create` as written; CreateChatAsWrittenNeverCreates proves it never creates a chat |
| Chats.FindMarkdownIndices | app/modules/chat.py:511-524 | the start is the first occurrence of the selected plain text in the Markdown and the end is start plus length; none exactly when it does not occur |
| Chats.WithContextParts | app/modules/chat.py:647 | the context and the content can be read back from fixed positions of the prefixed message |
| Chats.WithContextStripped | app/modules/chat.py:647 | a prefixed message whose content ends in text is already stripped |
| Chats.Splice | app/modules/chat.py:667-668 | with ordered indices the result is the Markdown with one `[` and the link tail added; without indices every slice is the whole text, so the Markdown appears three times |
| Chats.SpliceRoundTrip | app/modules/chat.py:667-668 | the splice only inserts "[" before the selection and the link after it: deleting them gives back the original Markdown |
| Chats.Exchange | app/modules/chat.py:149-173 | the user's message is stored stripped, with its sender, in the chat; the reply is the assistant's stripped answer to the history ending in the user's message; the user's message is refused exactly when its rendered HTML or its Markdown is blank or the sender id is negative |
| Chats.Fork | app/modules/chat.py:629-720 | a failure is an internal server error; a chat is made only when the row is inserted; when the insert fails, the answer is that error |
| Chats.Opened | app/modules/chat.py:684-712 | a new chat never ends in an error response, and when made holds the quoted history, the user's message and the reply |
| Chats.MakeRefusal | app/modules/chat.py:561-629 | nothing is refused exactly when the stripped content is non-blank and within the length limit and a full range has a quoted message it fits. Each refusal is stated. Missing or blank content is the no-content error. A range with a negative start is the range error before the message is read. AttributeError is raised exactly for a non-negative start whose message id names no message. A range that does not fit a stored message is the range error. Over-long content with no range error is the length error |
| Chats.MakeNegativeStartSkipsMessage | app/modules/chat.py:616-627 | a negative start is the range error even when the message id names no message, both in the intended `make` and as written |
| Chats.MakeAsWrittenNeverMakes | app/modules/chat.py:629-651 | as written `make` never makes a chat: a failed check answers as the intended `make` does, and wherever the intended `make` makes a chat, the undefined `gpt.get_topic` raises AttributeError |
| Chats.MakeOverCreateAsWritten | app/modules/chat.py:326-336 | were the topic available, `Chat.create` as written would still make no chat: wherever `make` makes one it answers an internal server error |
| Chats.Make | app/modules/chat.py:555-722 | the intended `make` route: MakeRefusal's checks, then `Fork`; MakeChecksRange, MakeIgnoresRangeAtZero, MakeIsFork, MakeForks, MakeWithoutRange and MakeWithRange state its checks and what it inserts |
| Chats.MakeAsWritten | app/modules/chat.py:555-722 | `make` as written: the same checks, then AttributeError at `gpt.get_topic`, which the `gpt` module does not define; MakeAsWrittenNeverMakes proves it never makes a chat |
| Chats.MakeNeedsContent | app/modules/chat.py:560-589 | missing or blank content is refused as a bad request exactly, before anything else |
| Chats.MakeChecksRange | app/modules/chat.py:616-627 | with content, a range and a quoted message, the answer is the range error exactly when the range does not fit the message's Markdown |
| Chats.MakeIgnoresRangeAtZero | app/modules/chat.py:616 | a range starting at 0 is falsy, so the request is handled as if there were no range |
| Chats.ForkWithoutRange | app/modules/chat.py:637-659 | without a full range, the length and start are never looked at |
| Chats.ForkMade | app/modules/chat.py:637-712 | a made chat is forked from the message id and holds the quoted history, the user's message and the reply; the quoted message is edited exactly when a range was given |
| Chats.MakeIsFork | app/modules/chat.py:555-722 | a made chat had non-blank content and passed the range checks, and came from the fork step on the stripped content |
| Chats.ContextKeepsStripped | app/modules/chat.py:647 | prefixing the context keeps stripped content stripped |
| Chats.MakeForks | app/modules/chat.py:637-712 | a made chat is forked from the quoted message and holds its history (none without one), then the user's message and the reply |
| Chats.MakeWithoutRange | app/modules/chat.py:637-712 | without a range, the user's message is the stripped content and no message is edited |
| Chats.MakeWithRange | app/modules/chat.py:640-676 | with a range, the user's message is the quoted selection followed by the stripped content, and the quoted message links the selection to the new chat |
| Chats.Connected | app/modules/chat.py:36-58 | a connect keeps every registered session valid and changes only the entry of its own session id |
| Chats.Disconnected | app/modules/chat.py:60-74 | a disconnect keeps the registry valid, removes nothing but its own session, and changes no other entry |
| Chats.DisconnectUndoesConnect | app/modules/chat.py:36-74 | a disconnect undoes a connect of the same session |
| Chats.ConnectTwiceDisconnectTwice | app/modules/chat.py:36-74 | two connects count two sockets, and two disconnects of a new session leave the registry as it was |
| Chats.LoadChat | app/modules/chat.py:424-452 | a chat loads exactly when its row exists, under its id and with no messages |
| Chats.Hydrated | app/modules/chat.py:137-147 | corrected hydration: loaded messages are kept; otherwise the messages up to the fork message come first, then the chat's own; a missing fork message fails |
| Chats.HydrationAsWrittenRaises | app/modules/chat.py:137-147 | as written the loaded chat lacks the fork attribute, so hydrating a freshly loaded chat raises where the corrected hydration gives its messages |
| Chats.HydratedAsWritten | app/modules/chat.py:137-147 | hydration as written; HydrationAsWrittenRaises proves it fails on every freshly loaded chat |
| Chats.ConversedRejects | app/modules/chat.py:110-121 | a missing chat, an owner mismatch or an over-long message is refused before any message is created: nothing is appended and no reply is sent |
| Chats.AnswerAppendsExchange | app/modules/chat.py:137-173 | an answered message leaves the hydrated history followed by the user's message and the reply, and sends the reply |
| Chats.ConversedAppendsExchange | app/modules/chat.py:110-173 | an answered message is for the session's chat, owned by the session's user, and that chat's history grows by the stripped message and the reply |
| Chats.Answer | app/modules/chat.py:137-173 | one answered message on a loaded chat, with the intended `gpt.chat`; AnswerAppendsExchange states the history it leaves and the reply it sends |
| Chats.AnswerAsWritten | app/modules/chat.py:137-173 | the answer as written, which raises AttributeError at the undefined `gpt.chat`; AnswerAsWrittenSilent and AnswerAsWrittenNeverReplies state what it leaves |
| Chats.AnswerAsWrittenSilent | app/modules/chat.py:149-160 | as written no reply is ever sent, and the handler raises |
| Chats.AnswerAsWrittenNeverReplies | app/modules/chat.py:149-160 | wherever the intended answer replies, the history as written keeps the user's message but not the reply, nothing is sent, and AttributeError is raised |
| Chats.ConversedAnswers | app/modules/chat.py:110-173 | a message that passes the chat, owner and length checks ends as the answer on the reloaded chat |
| Chats.Conversed | app/modules/chat.py:110-173 | one `on_message` turn of the socket session; ConversedRejects and ConversedAppendsExchange state its refusals and the exchange it appends |
| Chats.ParseMessage | app/modules/chat.py:95-108 | a message goes on exactly with text content and a UUID chat id; empty content is reported and then goes on |
| Chats.ChatNamespace.constructor | app/modules/chat.py:30-34 | the namespace starts with no sessions and nothing sent |
| Chats.ChatNamespace.OnConnect | app/modules/chat.py:36-58 | the registry becomes its connected form, and the session id is sent back |
| Chats.ChatNamespace.OnDisconnect | app/modules/chat.py:60-74 | the registry becomes its disconnected form, and nothing is sent |
| Chats.ChatNamespace.OnMessage | app/modules/chat.py:76-173 | an unknown session id is reported, the client kicked and the handler raises, the registry unchanged; a message the checks drop only sends their notices; a received one leaves the session and notices of its `Conversed` turn |
| Chats.ChatNamespace.Converse | app/modules/chat.py:110-173 | the session and what was sent end as the `Conversed` turn describes |
| Chats.ChatNamespace.Reply | app/modules/chat.py:137-173 | hydration and the exchange leave the session and notices of the `Conversed` turn |
| Entries.CoverImageDict | app/modules/entry.py:409-421 | exactly the non-empty caption, source and URL are written, each as its own text |
| Entries.CoverImageDictRoundTrip | app/modules/entry.py:409-421 | reading the caption, source and URL back from the written fields (an absent key read as empty) gives back the cover image |
| Entries.FunFactDict | app/modules/entry.py:541-548 | a fun fact is written under exactly its three keys: its entry id and id as UUID text, and its Markdown |
| Entries.FunFactDictRoundTrip | app/modules/entry.py:541-548 | reading the written fields back gives the same fun fact |
| Entries.RelatedTopicDict | app/modules/entry.py:688-695 | a related topic is written under exactly its three keys: its entry id and id as UUID text, and its topic |
| Entries.RelatedTopicDictRoundTrip | app/modules/entry.py:688-695 | reading the written fields back gives the same related topic |
| Entries.StatDict | app/modules/entry.py:1224-1235 | a stat is written under all seven keys, each with the stat's own value: ids as UUID text, the index as an integer, and the four texts |
| Entries.StatDictRoundTrip | app/modules/entry.py:1224-1235 | reading the written fields back gives the same stat |
| Entries.JsonList | app/modules/entry.py:161-164 | the list holds one serialisation per part, in order |
| Entries.RowDict | app/modules/entry.py:866-882 | a row gets its four fixed keys with its own values, and its contents and parent exactly when present |
| Entries.SectionDict | app/modules/entry.py:866-890 | subsections are written exactly when asked for and there are some, each as its own row |
| Entries.ParseUuid | app/modules/entry.py:824 | a parsed identifier is the integer the text holds |
| Entries.UuidTextRoundTrip | app/modules/entry.py:824 | every identifier reads back from its text |
| Entries.RowsFromList | app/modules/entry.py:841-844 | reading back a list keeps its length |
| Entries.RowFromFieldsOf | app/modules/entry.py:802-847 | a field map holding a row's values reads back as that row |
| Entries.RowDictRoundTrip | app/modules/entry.py:802-882 | a section row survives `as_dict` and `EntrySection(data)` unchanged |
| Entries.RowFromFieldsSkipsSubsections | app/modules/entry.py:802-847 | reading a row ignores the subsections key |
| Entries.RowListRoundTrip | app/modules/entry.py:841-844 | a list of serialised subsections reads back as those rows, in order |
| Entries.SectionDictRoundTrip | app/modules/entry.py:802-890 | a section survives serialisation with all its subsections |
| Entries.SectionTreeDict | app/modules/entry.py:866-890 | the default serialisation of a section reads back as that section |
| Entries.SectionsFromList | app/modules/entry.py:172-176 | reading back a list of sections keeps its length |
| Entries.SerialisedSectionsRoundTrip | app/modules/entry.py:172-176 | any list of serialised sections reads back as those sections, in order |
| Entries.EntryDict | app/modules/entry.py:145-193 | an entry is written under exactly its fixed keys and its present, non-empty parts, each serialised by its own `as_dict` |
| Entries.EntryDictHasSections | app/modules/entry.py:172-176 | the sections key is written exactly when the entry has sections |
| Entries.EntryDictSectionsField | app/modules/entry.py:172-176 | the sections key holds each section serialised with its subsections |
| Entries.EntryDictSections | app/modules/entry.py:172-176 | every section an entry writes reads back, subsections and all, in order |
| Entries.SectionContent | app/modules/entry.py:1729-1741 | a title's content is the generated Markdown (none on failure), rendered to HTML only when non-empty |
| Entries.StatRows | app/modules/entry.py:1559-1580 | stat i becomes the row with index i from the last pair of dict i; the loop completes exactly when no dict is empty, and otherwise stops at the first empty one |
| Entries.Make | app/modules/entry.py:1488-1603 | a blank or over-long topic gets its own error before any generator request; a checked topic is first sent to the topic generator, and an unknown or disallowed one gets its own error after that one request |
| Entries.MakeCreatesEntry | app/modules/entry.py:1534-1582 | an entry is created exactly for a checked topic the model names when the insert returns an id, under the unquoted name, with that name's summary, fun facts and stats; CREATED comes back exactly when, in addition, every stat dict is non-empty |
| Entries.MakeStatsIndexed | app/modules/entry.py:1559-1580 | stat i of a created entry has index i and comes from the i-th returned dict, with its name and value rendered |
| EntryScript.TextBeforeAppend | app/static/scripts/entry.js:97-101 | counting over a concatenation counts the first part, and the second only if the container was not reached |
| EntryScript.WalkIsPreorder | app/static/scripts/entry.js:87-103 | the recursive walk counts exactly the text before the container in document order |
| EntryScript.Walk | app/static/scripts/entry.js:87-103 | the recursive node walk; WalkIsPreorder proves it counts the text before the container in document order |
| EntryScript.WalkAllIsPreorder | app/static/scripts/entry.js:97-101 | the children loop counts the text before the container in the children's document order |
| EntryScript.TextBeforeFound | app/static/scripts/entry.js:91-93 | the walk stops exactly when the container is in the tree; otherwise it counts all the text |
| EntryScript.ContainerContributesNothing | app/static/scripts/entry.js:91-93 | the container and everything after it in document order contribute nothing |
| EntryScript.PrefixWithoutContainer | app/static/scripts/entry.js:94-96 | nodes without the container pass all their text on |
| EntryScript.GlobalOffsetCases | app/static/scripts/entry.js:85-108 | a null root gives just the start offset; a root without the container adds all its text; the result is never below the start offset |
| EntryScript.GlobalOffset | app/static/scripts/entry.js:85-108 | the global offset of a selection; GlobalOffsetCases states its cases and lower bound |
| EntryScript.WalkAllAppend | app/static/scripts/entry.js:97-101 | walking two child lists in turn equals walking their concatenation |
| EntryScript.IterateNodes | app/static/scripts/entry.js:87-103 | the total grows by the text the walk counts, and the walk goes on exactly when the container was not reached |
| EntryScript.CalculateGlobalOffset | app/static/scripts/entry.js:85-108 | the offset is the text before the start container in document order plus the start offset |
| EntryScript.Shown | app/static/scripts/entry.js:864-866 | a selection of at most 340 characters is shown whole; a longer one is shown as its first 340 characters and an ellipsis |
| EntryScript.ShownIdempotent | app/static/scripts/entry.js:864-866 | cutting a cut selection again changes nothing |
| EntryScript.SelectionState.constructor | app/static/scripts/entry.js:5-27 | the page starts with the given selection and no chat context or section |
| EntryScript.SelectionState.PresentSelectionPopup | app/static/scripts/entry.js:860-884 | with a non-empty selection, the chat context keeps the whole selection, the shown text is cut, and the section is remembered when there is an action; otherwise nothing changes |
| EntryScript.WithSubsection | app/static/scripts/entry.js:461-465 | a subsection is appended to the section's list, which is created when absent, and nothing else changes |
| EntryScript.FirstWithId | app/static/scripts/entry.js:459-469 | the index found is the first section with the id; none exactly when no section has it |
| EntryScript.SubsectionCountUpdate | app/static/scripts/entry.js:459-469 | replacing one section changes the total subsection count by the difference at that section |
| EntryScript.SubsectionAttachedOnce | app/static/scripts/entry.js:459-469 | a subsection joins only the first section with its parent's id; the order and the other sections are kept, and the count grows by one exactly when a parent exists |
| EntryScript.SectionAppended | app/static/scripts/entry.js:448-457 | a top-level section is appended after those collected so far |
| EntryScript.Collected | app/static/scripts/entry.js:444-469 | the section list after collecting one section; SectionAppended and SubsectionAttachedOnce state where a top-level section and a subsection go |
| EntryScript.SectionList.constructor | app/static/scripts/entry.js:392 | collection starts with no sections |
| EntryScript.SectionList.Collect | app/static/scripts/entry.js:444-469 | the list becomes the collected form after the object arrives |
| EntryStreams.RowEventsSnoc | app/modules/entry.py:1872-1906 | one more row adds exactly its own event at the end |
| EntryStreams.RowEventsAppend | app/modules/entry.py:1872-1906 | the events of two row lists are the events of each, in order |
| EntryStreams.RowEventsThenClose | app/modules/entry.py:1872-1917 | row events followed by a close end with their only close |
| EntryStreams.TopicEventsThenClose | app/modules/entry.py:1458-1475 | topic events followed by a close end with their only close |
| EntryStreams.PlannedUpTo | app/modules/entry.py:1842-1906 | planning the first i items gives i sections |
| EntryStreams.SubsectionCallsSnoc | app/modules/entry.py:1876-1884 | one more subsection title adds one section request for it at the end |
| EntryStreams.PlannedIndex | app/modules/entry.py:1842-1906 | item k becomes section k, its row numbered after the rows of the items before it |
| EntryStreams.PlannedPrefix | app/modules/entry.py:1842-1906 | planning fewer items gives a prefix of a longer plan |
| EntryStreams.FlattenLength | app/modules/entry.py:1864-1904 | the plan creates one row per item and one per subsection title |
| EntryStreams.AppendConsecutive | app/modules/entry.py:1864-1904 | appending a section whose rows take the next ids keeps the ids consecutive |
| EntryStreams.PlannedSectionIds | app/modules/entry.py:1864-1904 | a section's subsections take the ids just after its own |
| EntryStreams.FlattenIds | app/modules/entry.py:1864-1904 | sections numbered on from the rows before them give consecutive row ids |
| EntryStreams.PlannedIds | app/modules/entry.py:1864-1904 | every created row gets a fresh id, consecutive from the first free one, so no id is used twice |
| EntryStreams.PlannedNumbering | app/modules/entry.py:1842-1906 | section i has index i, item i's title and no parent; its subsection j has index j, its title and the section as parent; only section 0 and its subsections get content |
| EntryStreams.FirstItemCalls | app/modules/entry.py:1846-1853 | only the first item makes generator requests |
| EntryStreams.AppendSection | app/modules/entry.py:1864-1906 | storing one more section stores it under its id and streams its rows after the earlier ones |
| EntryStreams.BuildSection | app/modules/entry.py:1842-1906 | one loop turn builds the planned section, streams its row and then its subsections' rows, and makes requests only for item 0 |
| EntryStreams.FilledSubsectionsOwnHtml | app/modules/entry.py:1746-1766 | corrected: each filled subsection keeps its id, index, title and parent, and its HTML is rendered from its own Markdown (none when that is empty) |
| EntryStreams.FilledSubsectionsAsWritten | app/modules/entry.py:1746-1766 | as written the loop keeps one row per subsection |
| EntryStreams.SubsectionKeepsStaleHtml | app/modules/entry.py:1755-1763 | a subsection whose generation fails is stored, as written, with no Markdown but the previous row's HTML; the corrected loop stores no HTML |
| EntryStreams.FillRows | app/modules/entry.py:1746-1766 | the loop yields the filled subsections, one event each, after one request per title |
| EntryStreams.IdsBelowReplace | app/modules/entry.py:1740-1766 | updating a section in place keeps every stored id below the next free one |
| EntryStreams.BaseHistory | app/modules/entry.py:1640-1643 | the history used is the stored one or empty, and always empty on reset |
| EntryStreams.ChatSubject | app/modules/entry.py:1628-1671 | there is a subject exactly when the id names a section or a fun fact; a section is preferred, and a section without Markdown gives the text `None`, as the prompt's f-string renders it |
| EntryStreams.ExchangeAppendsTwo | app/modules/entry.py:1659-1685 | a completed exchange adds exactly the user's message and the assistant's; the user's carries the context only when it opens the conversation |
| EntryStreams.EntryStore.constructor | app/modules/entry.py:1328 | the store starts empty, with no chat histories, events or requests |
| EntryStreams.EntryStore.Emit | app/modules/entry.py:1447-1448 | a whole ending stream is appended and nothing else changes |
| EntryStreams.EntryStore.GetRelatedTopics | app/modules/entry.py:1438-1485 | the stream always ends with its one close; missing, unknown and already-filled entries get their errors; otherwise the generated topics are stored and streamed |
| EntryStreams.EntryStore.AddRelatedTopics | app/modules/entry.py:1458-1464 | one row and one event per topic, with ids consecutive from the next free one |
| EntryStreams.EntryStore.MakeSections | app/modules/entry.py:1809-1937 | the stream always ends with its one close; missing, unknown and already-built entries get their errors; otherwise the planned sections are stored and streamed |
| EntryStreams.EntryStore.AddPlannedSections | app/modules/entry.py:1841-1906 | the loop stores exactly the planned sections, streams their rows in creation order, uses one id per row and makes only the first item's requests |
| EntryStreams.EntryStore.AddPlannedItem | app/modules/entry.py:1842-1906 | one loop turn extends the plan of the first i items to i + 1 |
| EntryStreams.EntryStore.AddPlannedSection | app/modules/entry.py:1842-1906 | item i is stored under its id and streamed with its subsections; requests are made only for item 0 |
| EntryStreams.EntryStore.MakeSection | app/modules/entry.py:1703-1806 | the stream always ends with its one close; a missing, unknown or already-filled section gets its error and nothing changes; a fillable one is filled |
| EntryStreams.EntryStore.GenerateSection | app/modules/entry.py:1729-1775 | a section whose content fails gets NO_CONTENT; otherwise it and its subsections are filled and streamed |
| EntryStreams.EntryStore.MakeChatCompletion | app/modules/entry.py:1606-1700 | a missing or unknown entry gets its error; a missing query raises; a blank query only closes; otherwise the query is answered |
| EntryStreams.EntryStore.Answer | app/modules/entry.py:1627-1688 | the user's message joins the section's history; without a subject the stream raises, otherwise the reply is made |
| EntryStreams.EntryStore.Reply | app/modules/entry.py:1667-1688 | the history with the context injected is stored, one completion request is made, and its answer joins the history and the stream |
| EntryStreams.EntryStore.Record | app/modules/entry.py:1674-1688 | one completion request is recorded; a failed completion ends the stream with an exception, an answer is streamed and closed |
| Gpt.MessageCost | app/llm/gpt.py:566-571 | every message costs at least its 3 fixed tokens |
| Gpt.NumTokens | app/llm/gpt.py:553-574 | the loop's count is the specified token count of the list |
| Gpt.MessagesCostConcat | app/llm/gpt.py:566-571 | the cost of two message lists together is the sum of their costs |
| Gpt.TokenCountLowerBound | app/llm/gpt.py:563-574 | an empty list costs 3 tokens, and each message at least 3 more |
| Gpt.TokenCount | app/llm/gpt.py:553-574 | the prompt's token count; TokenCountLowerBound and TokenCountInsert give its lower bounds and its growth when a message is inserted |
| Gpt.PyInsert | app/llm/gpt.py:67 | `list.insert` adds exactly one element |
| Gpt.TokenCountInsert | app/llm/gpt.py:64-67 | inserting a message raises the count by exactly its cost, so by at least 3 |
| Gpt.PromptHead | app/llm/gpt.py:60-63 | every chat prompt starts with two messages |
| Gpt.Arranged | app/llm/gpt.py:59-67 | after k insertions the history part holds k messages |
| Gpt.ArrangedContents | app/llm/gpt.py:59-67 | those k messages are exactly the newest k of the history |
| Gpt.ArrangedStep | app/llm/gpt.py:64-67 | one more pass of the loop inserts the next newest message at index 3 |
| Gpt.ArrangedStepMiddle | app/llm/gpt.py:64-67 | the same step once the list already reaches index 3 |
| Gpt.Included | app/llm/gpt.py:64-67 | the number of included messages is within the history |
| Gpt.IncludedFirstOverflow | app/llm/gpt.py:64-67 | every smaller prompt fitted, and the next message is left out only once the prompt reaches the context length |
| Gpt.ArrangedCountGrows | app/llm/gpt.py:64-67 | each included message makes the prompt strictly dearer, so once the limit is reached no later message fits |
| Gpt.PromptFormats | app/modules/chat_message.py:315-320 | one OpenAI message per history message, in order |
| Gpt.TrimStep | app/llm/gpt.py:64-67 | one loop pass keeps the loop invariant |
| Gpt.TrimHistory | app/llm/gpt.py:59-67 | the loop includes exactly the messages that fit and arranges them newest first, the rest oldest to newest |
| Gpt.BuildChatPrompt | app/llm/gpt.py:57-69 | the prompt is the head, the trimmed history and the priming message, with no more history than given |
| Gpt.InjectContext | app/llm/gpt.py:52-55 | a one-message history gets the quoted context in front of its text, changing nothing else; longer ones are unchanged |
| Gpt.ChatRun | app/llm/gpt.py:72-91 | the run makes between one and six requests; it completes exactly when the last request was answered, with that answer |
| Gpt.ChatRunRetriesTimeouts | app/llm/gpt.py:80-91 | only timeouts are retried, and an always-timing-out service gets six requests and no answer |
| Gpt.EntryChatCompletion | app/llm/gpt.py:19-94 | corrected: the context is injected once, and the answer and request count are those of the run on the trimmed prompt |
| Gpt.ChatRunAsWritten | app/llm/gpt.py:19-94 | as written the run makes one to six requests and keeps the history's length |
| Gpt.RetryRepeatsContext | app/llm/gpt.py:52-91 | after one timeout on the first turn, the as-written retry stores the context twice in front of the user's text, where the corrected one stores it once |
| Gpt.KeepPrintable | app/llm/gpt.py:126 | the first repair step keeps only printable ASCII and drops none of it |
| Gpt.KeepPrintableFilter | app/llm/gpt.py:126 | the first step only deletes characters, and applying it twice changes nothing |
| Gpt.SpacesThenBrace | app/llm/gpt.py:127 | a match of `\s*\}` is whitespace followed by one closing brace |
| Gpt.DropDanglingCommasDeletes | app/llm/gpt.py:127 | the second step only deletes characters, and without a comma changes nothing |
| Gpt.DropDanglingCommas | app/llm/gpt.py:127 | the dangling-comma removal; DropDanglingCommasDeletes states that it only deletes characters, and DropDanglingCommasSinglePass that one pass is not a fixpoint |
| Gpt.DropDanglingCommasSinglePass | app/llm/gpt.py:127 | one pass is not a fixpoint: removing a match can create another |
| Gpt.RepairDeletes | app/llm/gpt.py:126-127 | the repaired text is printable ASCII, no longer than the answer, and taken from it in order |
| Gpt.Repair | app/llm/gpt.py:126-127 | the two-step repair of an answer; RepairDeletes states that it only deletes and leaves printable ASCII |
| Gpt.Escalate | app/llm/gpt.py:136 | `max(t + 0.1, 1)` is at least 1.0 and always hotter than t |
| Gpt.RunFrom | app/llm/gpt.py:97-158 | a run from attempt a makes between one and six-minus-a requests, starting with attempt a at the given temperature |
| Gpt.RunShape | app/llm/gpt.py:97-158 | attempts are consecutive; every request but the last was retryable; retries run at the next temperature |
| Gpt.RunValue | app/llm/gpt.py:123-138 | the value is present only if the last answer finished with "stop", and then it is what the policy reads from it |
| Gpt.RetriesRunHot | app/llm/gpt.py:136-154 | with escalation, every retry runs at 1.0 or hotter |
| Gpt.RunExhausted | app/llm/gpt.py:132-154 | a service whose outcomes are always retryable gets six requests and no value |
| Gpt.RunStopsOnUnfinished | app/llm/gpt.py:148-156 | a finish reason other than "stop", or any other failure, ends the run at once with no value |
| Gpt.Generate | app/llm/gpt.py:97-158 | the loop makes exactly the requests of the run and returns its value |
| Gpt.StructuredPolicy | app/llm/gpt.py:123-147 | structured generators start at 0.8, escalate, retry an empty answer, and read the rest after repair |
| Gpt.FreeTextPolicy | app/llm/gpt.py:269-288 | the section and summary generators start at 0.8, never escalate, and retry exactly the empty answer |
| Gpt.TopicAnswer | app/llm/gpt.py:536-539 | the title is empty exactly for an empty or sentinel answer, and otherwise the answer itself |
| Gpt.TopicPolicy | app/llm/gpt.py:527-539 | topic requests run at temperature 0 and accept every finished answer |
| Gpt.TopicRun | app/llm/gpt.py:507-550 | topic resolution retries only timeouts and returns a title only if the last answer finished with "stop" |
| Gpt.TopicTemperature | app/llm/gpt.py:532-546 | every topic request runs at temperature 0 |

## Left out

- The database, the purge jobs and analytics are not modelled. Stored rows are maps, sequences or lookup functions, and creating a row hands out the next free id.
- Concurrency is left out. This covers the thread pool of `entry.make` and concurrent Socket.IO handlers.
- `time.sleep` between retries is left out.
- Creation timestamps and dates are left out. `Chat.create`'s date is a parameter, and `Entry.as_dict` omits the creation fields.
- The SerpAPI cover-image fetch (`get_cover_image`) is left out.
- `insertFunFacts` is left out, because it depends on `Math.random`.
- tiktoken, SHA-256, BeautifulSoup's `get_text`, Markdown rendering and the language model are function parameters, because they are foreign code. `gpt.chat` and `gpt.get_topic`, which chat.py calls but app/llm/gpt.py does not define, are parameters too; the Chats lines below say what that leaves out.
- UUIDs are natural numbers, and their text is decimal.
- Temperatures are integer tenths, because floating point is left out.
- Generators are modelled by the events they append, not as lazy Python generators. A consumer that stops reading early is not modelled.
- `ChatSession` is a value in the namespace's map, not a shared object. Aliasing between a session and the chat object of another session is not modelled.
- `on_disconnect`'s log lines are left out, and so is the disconnect of a kicked client, which the server does not observe.
- `get_chat_by_id`, `edit_chat_topic`, `get_chats`, `entry.remove`, `get_entry` and `get_entries` are left out. They are database reads and deletes with no logic beyond the checks modelled elsewhere.
- JSON arguments of `on_message` other than strings are only tested for truthiness and type. The sender object in `ChatMessage.as_dict` is not expanded.
- Chats.Make: a made chat rests on `gpt.get_topic` and `gpt.chat`, which app/llm/gpt.py does not define. They are the parameters `MakeWorld.topicOf` and `Services.reply`, which give the intended behaviour. As written, `make` is `Chats.MakeAsWritten`.
- Chats.Fork: the topic comes from `MakeWorld.topicOf`, standing for `gpt.get_topic`, which app/llm/gpt.py does not define. As written the call raises AttributeError before the chat is created (`Chats.MakeAsWrittenNeverMakes`).
- Chats.Opened: the reply comes from `Services.reply`, standing for `gpt.chat`, which app/llm/gpt.py does not define. As written, `make` never gets this far (`Chats.MakeAsWrittenNeverMakes`).
- Chats.Exchange: the reply comes from `Services.reply`, standing for `gpt.chat`, which app/llm/gpt.py does not define. As written the call raises AttributeError once the user's message is stored (`Chats.AnswerAsWritten`).
- Chats.ForkMade: states the chat the intended `make` makes. As written no chat is made (`Chats.MakeAsWrittenNeverMakes`).
- Chats.MakeForks: states the chat the intended `make` makes. As written no chat is made (`Chats.MakeAsWrittenNeverMakes`).
- Chats.MakeWithoutRange: states the chat the intended `make` makes. As written no chat is made (`Chats.MakeAsWrittenNeverMakes`).
- Chats.MakeWithRange: states the chat the intended `make` makes. As written no chat is made (`Chats.MakeAsWrittenNeverMakes`).
- Chats.Answer: the reply is the intended `gpt.chat`'s. As written the handler raises AttributeError after storing the user's message, and sends nothing (`Chats.AnswerAsWrittenNeverReplies`).
- Chats.AnswerAppendsExchange: states the reply of the intended `gpt.chat`. As written no reply is made (`Chats.AnswerAsWrittenNeverReplies`).
- Chats.Conversed: an answered turn rests on the intended `gpt.chat`. As written it ends in AttributeError with the user's message stored (`Chats.AnswerAsWrittenNeverReplies`).
- Chats.ConversedAppendsExchange: states the reply of the intended `gpt.chat`. As written no reply is made (`Chats.AnswerAsWrittenNeverReplies`).
- Chats.ChatNamespace.OnMessage: a received message is answered with the intended `gpt.chat` (`Chats.Conversed`). As written the handler raises instead (`Chats.AnswerAsWrittenNeverReplies`).
- Chats.ChatNamespace.Converse: ends as the `Chats.Conversed` turn, which rests on the intended `gpt.chat`.
- Chats.ChatNamespace.Reply: ends as the `Chats.Conversed` turn, which rests on the intended `gpt.chat`.
- EntryStreams.PlannedSection: every table-of-contents item is taken to carry a title and a list of subsection titles. The source reads them with `section_raw.get("title")` from unvalidated `json.loads` output. A malformed item's TypeError or AttributeError is not modelled: for item 0 it comes from `section_title.strip()` in gpt.py:254, and for every item from `EntrySection.create`.
- EntryStreams.PlannedNumbering: numbers the items of a table of contents whose items all carry a title and subsections. The error of a malformed item is not modelled (see EntryStreams.PlannedSection).
- EntryStreams.EntryStore.MakeSections: its table of contents is a sequence of well-formed items. The TypeError or AttributeError of an item that lacks a title or subsections is not modelled (see EntryStreams.PlannedSection).
- ChatMessages.GetChat: the chat id's text is decimal, as every UUID's is here. The source's real UUID text, with hex digits and dashes, fails `int()` and gets "Missing chat ID."; as written no request fetches either way (`ChatMessages.GetChatAsWrittenNeverFetches`).
- Chats.Make: the range arguments arrive as integers or nothing. The `int()` of their text is `PyText.ParseInt`, modelled separately.
- Chats.Make: the quoted message's `update()` is modelled as the edited message value that the result carries.
- EntryScript.SelectionState.PresentSelectionPopup: pixel positioning and button visibility are not modelled.
- EntryScript: DOM node identity is modelled as distinct node ids within a tree.
- EntryScript: JavaScript string length (UTF-16 code units) is modelled as a character count.
- EntryScript.SectionList.Collect: `getSections`' DOM work (pages, anchors, table of contents) is left out.
- PyText.ParseInt: Python's `int()` accepts underscores between digits and non-ASCII digits; only ASCII digits with an optional sign and surrounding whitespace are modelled.
- PyText.IsSpace: whitespace is CPython's `str.isspace` set, listed code point by code point rather than taken from the Unicode database.

## Findings

| source | as written | input that shows it | evidently intended | confidence | as-written member | corrected member |
|---|---|---|---|---|---|---|
| app/llm/gpt.py:52-91 | the context injection is inside the retried block and mutates the caller's message, so each timeout retry prepends the context again | a one-message history whose first request times out and whose second is answered | the context is prepended once | not executed | Gpt.ChatRunAsWritten / Gpt.RetryRepeatsContext | Gpt.EntryChatCompletion |
| app/adapters/web.py:176-269 | each handler passes its literal HTTP code (400, 403, …) to `_map_response_status`, which compares with the service statuses 0..21 and so answers 500 | `abort(404, description="…")` reaching `error_not_found` | the page is served with the handler's own code | not executed | WebAdapter.HandleAsWritten / WebAdapter.HandlerLosesLiteral | WebAdapter.Handle |
| app/modules/entry.py:1755-1763 | `content_html` is assigned only when new Markdown was generated, so a subsection whose generation fails is stored with the previous row's HTML | a section whose content generates followed by a subsection whose generation returns `None` | a failed subsection gets no HTML | not executed | EntryStreams.FilledSubsectionsAsWritten / EntryStreams.SubsectionKeepsStaleHtml | EntryStreams.FilledSubsectionsOwnHtml |
| app/modules/chat.py:137-147 | `Chat(data)` never sets `fork_message_id`, so hydrating a freshly loaded chat raises AttributeError | any message to a chat not yet loaded in the session | forked chats load the prior messages; others load their own | not executed | Chats.HydrationAsWrittenRaises | Chats.Hydrated |
| app/modules/chat.py:326-336 | the INSERT names two columns but passes three values, the driver's error is swallowed, and `None` comes back | any `Chat.create` call (`chat.make` reaches it only once `gpt.get_topic` exists) | the row is inserted with its fork message, topic and owner | not executed | Chats.CreateChatAsWrittenNeverCreates / Chats.MakeOverCreateAsWritten | Chats.CreateChat |
| app/modules/chat_message.py:380 | `get_chat` hands `int(chat_id)` to `ChatMessage.get_all_by_chat`, whose check at chat_message.py:190-191 raises TypeError for anything but a `uuid.UUID` | any request with a parsable non-zero chat id and a session id | the id is converted to the UUID it names, and that chat's messages are fetched from the offset | not executed | ChatMessages.GetChatAsWritten / ChatMessages.GetChatAsWrittenNeverFetches | ChatMessages.GetChat / ChatMessages.GetChatTextRoundTrip |
| app/modules/chat.py:651 | `make` calls `gpt.get_topic`, and the exchanges call `gpt.chat` (chat.py:160 and 697); app/llm/gpt.py defines neither, so each call raises AttributeError | any `chat.make` that passes its checks; any socket message that reaches the exchange | the language model names the topic and answers the history | not executed | Chats.MakeAsWrittenNeverMakes / Chats.AnswerAsWrittenNeverReplies | Chats.MakeForks / Chats.AnswerAppendsExchange |
