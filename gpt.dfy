/**
 * The OpenAI layer: token accounting, the context-window trimming of the
 * entry chat prompt, the repair applied to structured answers, and the retry
 * policy shared by the `get_entry_*` generators.
 *
 * The OpenAI service is a scripted backend: a function from the request
 * (attempt number, temperature, prompt) to its outcome. Temperatures are
 * integer tenths. The tokenizer is a function from a text to its token count.
 */
module Gpt {
  import opened Wrappers
  import opened Config
  import opened ChatMessages
  import PyText

  /** `len(encoding.encode(text))` for the model's tokenizer. */
  type Encoder = string -> nat

  // ---------------------------------------------------------------------------
  // Token accounting (num_tokens_from_messages)
  // ---------------------------------------------------------------------------

  const TokensPerMessage: nat := 3
  const TokensPerName: nat := 1
  const ReplyPriming: nat := 3

  /** The tokens of one key/value pair: the encoded value, plus one for a "name" key. */
  function ItemCost(item: (string, string), enc: Encoder): nat
  {
    enc(item.1) + if item.0 == "name" then TokensPerName else 0
  }

  function ItemsCost(items: PromptMessage, enc: Encoder): nat
  {
    if items == [] then 0 else ItemsCost(items[..|items| - 1], enc) + ItemCost(items[|items| - 1], enc)
  }

  /** The tokens one message costs. */
  function MessageCost(m: PromptMessage, enc: Encoder): (n: nat)
    ensures n >= TokensPerMessage
  {
    TokensPerMessage + ItemsCost(m, enc)
  }

  function MessagesCost(ms: seq<PromptMessage>, enc: Encoder): nat
  {
    if ms == [] then 0 else MessagesCost(ms[..|ms| - 1], enc) + MessageCost(ms[|ms| - 1], enc)
  }

  /** The count `num_tokens_from_messages` promises for a message list. */
  function TokenCount(ms: seq<PromptMessage>, enc: Encoder): nat
  {
    MessagesCost(ms, enc) + ReplyPriming
  }

  /** `num_tokens_from_messages(messages)`. */
  method NumTokens(ms: seq<PromptMessage>, enc: Encoder) returns (n: nat)
    ensures n == TokenCount(ms, enc)
  {
    n := 0;
    var i := 0;
    while i < |ms|
      invariant 0 <= i <= |ms|
      invariant n == MessagesCost(ms[..i], enc)
    {
      var items := ms[i];
      n := n + TokensPerMessage;
      var j := 0;
      while j < |items|
        invariant 0 <= j <= |items|
        invariant n == MessagesCost(ms[..i], enc) + TokensPerMessage + ItemsCost(items[..j], enc)
      {
        n := n + enc(items[j].1);
        if items[j].0 == "name" {
          n := n + TokensPerName;
        }
        assert items[..j + 1][..j] == items[..j];
        j := j + 1;
      }
      assert items[..j] == items;
      assert ms[..i + 1][..i] == ms[..i];
      i := i + 1;
    }
    assert ms[..i] == ms;
    n := n + ReplyPriming;
  }

  lemma {:induction false} MessagesCostConcat(a: seq<PromptMessage>, b: seq<PromptMessage>, enc: Encoder)
    ensures MessagesCost(a + b, enc) == MessagesCost(a, enc) + MessagesCost(b, enc)
    decreases |b|
  {
    if b == [] {
      assert a + b == a;
    } else {
      var b' := b[..|b| - 1];
      assert (a + b)[..|a + b| - 1] == a + b';
      MessagesCostConcat(a, b', enc);
    }
  }

  /** An empty list costs 3 tokens and each message at least 3 more. */
  lemma {:induction false} TokenCountLowerBound(ms: seq<PromptMessage>, enc: Encoder)
    ensures TokenCount(ms, enc) >= ReplyPriming + TokensPerMessage * |ms|
    ensures ms == [] ==> TokenCount(ms, enc) == 3
    decreases |ms|
  {
    if ms != [] {
      TokenCountLowerBound(ms[..|ms| - 1], enc);
    }
  }

  /** Python's `list.insert(i, x)`: past the end it appends. */
  function PyInsert<T>(s: seq<T>, i: nat, x: T): (r: seq<T>)
    ensures |r| == |s| + 1
  {
    if i >= |s| then s + [x] else s[..i] + [x] + s[i..]
  }

  /** Inserting a message anywhere raises the count by exactly its cost, so by at least 3. */
  lemma TokenCountInsert(ms: seq<PromptMessage>, i: nat, m: PromptMessage, enc: Encoder)
    ensures TokenCount(PyInsert(ms, i, m), enc) == TokenCount(ms, enc) + MessageCost(m, enc)
    ensures TokenCount(PyInsert(ms, i, m), enc) >= TokenCount(ms, enc) + TokensPerMessage
  {
    if i >= |ms| {
      MessagesCostConcat(ms, [m], enc);
    } else {
      MessagesCostConcat(ms[..i], [m], enc);
      MessagesCostConcat(ms[..i] + [m], ms[i..], enc);
      MessagesCostConcat(ms[..i], ms[i..], enc);
      assert ms[..i] + ms[i..] == ms;
    }
    assert MessagesCost([m], enc) == MessageCost(m, enc) by {
      assert [m][..0] == [];
    }
  }

  // ---------------------------------------------------------------------------
  // The entry chat prompt (get_entry_chat_completion)
  // ---------------------------------------------------------------------------

  const ChatModel := Gpt35For16k

  const SystemInstruction: string :=
    "You are the Assistant, an AI chatbot designed to assist with the entries of Mycyclopedia, "
    + "which is an AI-powered encyclopedia. Be comprehensive in your responses and format them as Markdown. "
    + "Use headings, tables and lists when applicable"

  function ContextPrompt(topic: string, proficiency: string, sectionMd: string): string
  {
    "Entry Topic: \"" + topic + "\"\nReader Proficiency: " + proficiency
    + "\nEntry text for context: ```" + sectionMd + "```"
  }

  /** The two messages every chat prompt starts with. */
  function PromptHead(topic: string, proficiency: string, sectionMd: string): (r: seq<PromptMessage>)
    ensures |r| == 2
  {
    [ [("role", System.Value()), ("content", SystemInstruction)],
      [("role", Assistant.Value()), ("content", ContextPrompt(topic, proficiency, sectionMd))] ]
  }

  /** The message every chat prompt ends with. */
  const Priming: PromptMessage := [("role", Assistant.Value()), ("content", "You: ")]

  /**
   * The history messages after the newest `k` of `ps` went in at index 3:
   * the newest first, then the other `k - 1` oldest to newest.
   */
  function Arranged<T>(ps: seq<T>, k: nat): (r: seq<T>)
    requires k <= |ps|
    ensures |r| == k
  {
    if k == 0 then [] else [ps[|ps| - 1]] + ps[|ps| - k..|ps| - 1]
  }

  lemma RotatedMultiset<T>(x: T, s: seq<T>)
    ensures multiset([x] + s) == multiset(s + [x])
  {
  }

  /** `Arranged` holds exactly the newest `k` messages. */
  lemma ArrangedContents<T>(ps: seq<T>, k: nat)
    requires k <= |ps|
    ensures multiset(Arranged(ps, k)) == multiset(ps[|ps| - k..])
  {
    if k > 0 {
      var n := |ps|;
      var newest := ps[n - 1];
      var rest := ps[n - k..n - 1];
      var newestFirst, oldestFirst := Arranged(ps, k), ps[n - k..];
      assert oldestFirst == rest + [newest];
      assert newestFirst == [newest] + rest;
      RotatedMultiset(newest, rest);
      assert multiset(newestFirst) == multiset(oldestFirst);
    } else {
      assert Arranged(ps, k) == [] && ps[|ps| - k..] == [];
    }
  }

  /** One more pass of the loop inserts the next newest message at index 3. */
  lemma ArrangedStep<T>(head: seq<T>, ps: seq<T>, k: nat)
    requires |head| == 2 && k < |ps|
    ensures PyInsert(head + Arranged(ps, k), 3, ps[|ps| - 1 - k]) == head + Arranged(ps, k + 1)
  {
    var n := |ps|;
    var x := ps[n - 1 - k];
    if k < 2 {
      // The list is still shorter than four, so `insert(3, x)` appends.
      assert Arranged(ps, k + 1) == Arranged(ps, k) + [x];
    } else {
      ArrangedStepMiddle(head, ps, k);
    }
  }

  lemma ArrangedStepMiddle<T>(head: seq<T>, ps: seq<T>, k: nat)
    requires |head| == 2 && 2 <= k < |ps|
    ensures PyInsert(head + Arranged(ps, k), 3, ps[|ps| - 1 - k]) == head + Arranged(ps, k + 1)
  {
    var n := |ps|;
    var x, newest := ps[n - 1 - k], ps[n - 1];
    var rest := ps[n - k..n - 1];
    var grown := ps[n - 1 - k..n - 1];
    assert grown == [x] + rest;
    assert Arranged(ps, k + 1) == [newest] + grown;
    assert Arranged(ps, k) == [newest] + rest;
    var l := head + ([newest] + rest);
    assert l[..3] == head + [newest];
    assert l[3..] == rest;
    assert PyInsert(l, 3, x) == (head + [newest]) + [x] + rest;
  }

  /** The number of history messages that fit: insertion stops at the first `cost` that reaches `ctx`. */
  function Included<T>(head: seq<T>, ps: seq<T>, j: nat, cost: seq<T> -> nat, ctx: nat): (k: nat)
    requires j <= |ps|
    ensures j <= k <= |ps|
    decreases |ps| - j
  {
    if j == |ps| then j
    else if cost(head + Arranged(ps, j)) < ctx then Included(head, ps, j + 1, cost, ctx)
    else j
  }

  /** `Included` is the first `k` whose prompt reaches the context length, if any. */
  lemma {:induction false} IncludedFirstOverflow<T>(head: seq<T>, ps: seq<T>, j: nat, cost: seq<T> -> nat, ctx: nat)
    requires j <= |ps|
    ensures forall i :: j <= i < Included(head, ps, j, cost, ctx) ==> cost(head + Arranged(ps, i)) < ctx
    ensures Included(head, ps, j, cost, ctx) < |ps| ==> cost(head + Arranged(ps, Included(head, ps, j, cost, ctx))) >= ctx
    decreases |ps| - j
  {
    if j < |ps| && cost(head + Arranged(ps, j)) < ctx {
      IncludedFirstOverflow(head, ps, j + 1, cost, ctx);
    }
  }

  /** Each included message makes the prompt strictly dearer, so the count only grows. */
  lemma ArrangedCountGrows(head: seq<PromptMessage>, ps: seq<PromptMessage>, k: nat, enc: Encoder)
    requires |head| == 2 && k < |ps|
    ensures TokenCount(head + Arranged(ps, k + 1), enc) >= TokenCount(head + Arranged(ps, k), enc) + TokensPerMessage
  {
    ArrangedStep(head, ps, k);
    TokenCountInsert(head + Arranged(ps, k), 3, ps[|ps| - 1 - k], enc);
  }

  /** `TokenCount` with the tokenizer fixed. */
  function Cost(enc: Encoder): seq<PromptMessage> -> nat
  {
    ms => TokenCount(ms, enc)
  }

  function PromptFormats(history: seq<ChatMessage>): (r: seq<PromptMessage>)
    ensures |r| == |history|
    ensures forall i :: 0 <= i < |history| ==> r[i] == PromptFormat(history[i])
  {
    seq(|history|, i requires 0 <= i < |history| => PromptFormat(history[i]))
  }

  /** The prompt `get_entry_chat_completion` sends for a history. */
  function ChatPrompt(topic: string, proficiency: string, sectionMd: string, history: seq<ChatMessage>,
                      enc: Encoder, ctx: nat): seq<PromptMessage>
  {
    var head := PromptHead(topic, proficiency, sectionMd);
    var ps := PromptFormats(history);
    head + Arranged(ps, Included(head, ps, 0, Cost(enc), ctx)) + [Priming]
  }

  /** What the trimming loop knows after looking at the newest `i` messages. */
  ghost predicate TrimmedSoFar(head: seq<PromptMessage>, ps: seq<PromptMessage>, i: nat, included: nat,
                               final: seq<PromptMessage>, enc: Encoder, ctx: nat)
  {
    && included <= i <= |ps|
    && final == head + Arranged(ps, included)
    && (included == Included(head, ps, 0, Cost(enc), ctx) || included == i)
    && (included == i ==> Included(head, ps, 0, Cost(enc), ctx) == Included(head, ps, i, Cost(enc), ctx))
    && (included < i ==> TokenCount(final, enc) >= ctx)
  }

  lemma TrimStep(head: seq<PromptMessage>, ps: seq<PromptMessage>, i: nat, included: nat,
                 final: seq<PromptMessage>, enc: Encoder, ctx: nat)
    requires |head| == 2 && i < |ps|
    requires TrimmedSoFar(head, ps, i, included, final, enc, ctx)
    ensures TokenCount(final, enc) < ctx ==>
      included == i && TrimmedSoFar(head, ps, i + 1, i + 1, PyInsert(final, 3, ps[|ps| - 1 - i]), enc, ctx)
    ensures TokenCount(final, enc) >= ctx ==> TrimmedSoFar(head, ps, i + 1, included, final, enc, ctx)
  {
    if TokenCount(final, enc) < ctx {
      ArrangedStep(head, ps, i);
      assert Cost(enc)(head + Arranged(ps, i)) < ctx;
    } else if included == i {
      assert Cost(enc)(head + Arranged(ps, i)) >= ctx;
    }
  }

  /**
   * The trimming loop: walk the formatted history newest first, inserting each
   * message at index 3 while the prompt's count is below `ctx`.
   */
  method TrimHistory(head: seq<PromptMessage>, ps: seq<PromptMessage>, enc: Encoder, ctx: nat)
    returns (final: seq<PromptMessage>, included: nat)
    requires |head| == 2
    ensures included == Included(head, ps, 0, Cost(enc), ctx)
    ensures final == head + Arranged(ps, included)
  {
    var n := |ps|;
    final := head;
    included := 0;
    var i := 0;
    assert final == head + Arranged(ps, 0);
    while i < n
      invariant i <= n
      invariant TrimmedSoFar(head, ps, i, included, final, enc, ctx)
    {
      var count := NumTokens(final, enc);
      TrimStep(head, ps, i, included, final, enc, ctx);
      if count < ctx {
        final := PyInsert(final, 3, ps[n - 1 - i]);
        included := included + 1;
        assert TrimmedSoFar(head, ps, i + 1, included, final, enc, ctx);
      } else {
        assert TrimmedSoFar(head, ps, i + 1, included, final, enc, ctx);
      }
      i := i + 1;
    }
    assert Included(head, ps, n, Cost(enc), ctx) == n;
  }

  /** Builds the prompt `get_entry_chat_completion` sends: head, trimmed history, priming. */
  method BuildChatPrompt(topic: string, proficiency: string, sectionMd: string, history: seq<ChatMessage>,
                         enc: Encoder, ctx: nat)
    returns (prompt: seq<PromptMessage>, included: nat)
    ensures included <= |history|
    ensures prompt == PromptHead(topic, proficiency, sectionMd) + Arranged(PromptFormats(history), included) + [Priming]
    ensures prompt == ChatPrompt(topic, proficiency, sectionMd, history, enc, ctx)
  {
    var head := PromptHead(topic, proficiency, sectionMd);
    var final;
    final, included := TrimHistory(head, PromptFormats(history), enc, ctx);
    prompt := final + [Priming];
  }

  // ---------------------------------------------------------------------------
  // The entry chat completion and its retries
  // ---------------------------------------------------------------------------

  /** What one chat completion request ended with. */
  datatype ChatOutcome =
    | ChatTimedOut                  // openai.APITimeoutError
    | ChatFailed                    // any other exception
    | ChatAnswered(content: string)

  /** The OpenAI service as the chat sees it: attempt number and prompt to outcome. */
  type ChatBackend = (nat, seq<PromptMessage>) -> ChatOutcome

  /** The function's result; `Raised` is the UnboundLocalError on `response_str`. */
  datatype Completion = Completed(text: string) | Raised

  /** The text put in front of the first user message. */
  function ContextPrefix(context: string): string
  {
    "\"" + context + "\"\n"
  }

  /** A one-message history gets the quoted context in front of its text; others are left alone. */
  function InjectContext(history: seq<ChatMessage>, context: string): (r: seq<ChatMessage>)
    ensures |r| == |history|
    ensures |history| != 1 ==> r == history
    ensures |history| == 1 ==> r[0].contentMd == ContextPrefix(context) + history[0].contentMd
    ensures |history| == 1 ==> r[0] == history[0].(contentMd := r[0].contentMd)
  {
    if |history| == 1 then [history[0].(contentMd := ContextPrefix(context) + history[0].contentMd)] else history
  }

  /** The attempts from `attempt` on with a fixed prompt: the answer, and how many requests were made in all. */
  function ChatRun(backend: ChatBackend, prompt: seq<PromptMessage>, attempt: nat): (r: (Completion, nat))
    requires attempt <= OpenAIRetryMaxAttempts
    ensures attempt < r.1 <= OpenAIRetryMaxAttempts + 1
    ensures r.0.Completed? <==> backend(r.1 - 1, prompt).ChatAnswered?
    ensures r.0.Completed? ==> r.0.text == backend(r.1 - 1, prompt).content
    decreases OpenAIRetryMaxAttempts - attempt
  {
    match backend(attempt, prompt)
    case ChatTimedOut =>
      if attempt < OpenAIRetryMaxAttempts then ChatRun(backend, prompt, attempt + 1) else (Raised, attempt + 1)
    case ChatFailed => (Raised, attempt + 1)
    case ChatAnswered(text) => (Completed(text), attempt + 1)
  }

  /** Only timeouts are retried: every request before the last one timed out. */
  lemma {:induction false} ChatRunRetriesTimeouts(backend: ChatBackend, prompt: seq<PromptMessage>, attempt: nat)
    requires attempt <= OpenAIRetryMaxAttempts
    ensures forall a :: attempt <= a < ChatRun(backend, prompt, attempt).1 - 1 ==> backend(a, prompt).ChatTimedOut?
    ensures (forall a :: backend(a, prompt).ChatTimedOut?) ==> ChatRun(backend, prompt, attempt) == (Raised, OpenAIRetryMaxAttempts + 1)
    decreases OpenAIRetryMaxAttempts - attempt
  {
    if attempt < OpenAIRetryMaxAttempts && backend(attempt, prompt).ChatTimedOut? {
      ChatRunRetriesTimeouts(backend, prompt, attempt + 1);
    }
  }

  /**
   * `get_entry_chat_completion`: the first user message gets the context once,
   * the trimmed prompt is built, and the request is retried on timeouts.
   * Returns the answer, the history as the caller's list now holds it, and
   * the number of requests made.
   */
  method EntryChatCompletion(context: string, proficiency: string, sectionMd: string, topic: string,
                             history: seq<ChatMessage>, backend: ChatBackend, enc: Encoder)
    returns (reply: Completion, newHistory: seq<ChatMessage>, calls: nat)
    ensures newHistory == InjectContext(history, context)
    ensures (reply, calls) == ChatRun(backend, ChatPrompt(topic, proficiency, sectionMd, newHistory, enc, ContextLen(ChatModel)), 0)
  {
    newHistory := InjectContext(history, context);
    var prompt, _ := BuildChatPrompt(topic, proficiency, sectionMd, newHistory, enc, ContextLen(ChatModel));
    var attempt := 0;
    while true
      invariant attempt <= OpenAIRetryMaxAttempts
      invariant ChatRun(backend, prompt, 0) == ChatRun(backend, prompt, attempt)
      decreases OpenAIRetryMaxAttempts - attempt
    {
      match backend(attempt, prompt)
      case ChatTimedOut =>
        if attempt < OpenAIRetryMaxAttempts {
          attempt := attempt + 1;
        } else {
          reply, calls := Raised, attempt + 1;
          return;
        }
      case ChatFailed =>
        reply, calls := Raised, attempt + 1;
        return;
      case ChatAnswered(text) =>
        reply, calls := Completed(text), attempt + 1;
        return;
    }
  }

  /**
   * The recursion as written: the context injection sits inside the retried
   * block, so each retry of a one-message history injects it again into the
   * same message object. Returns the answer, the history and the request count.
   */
  function ChatRunAsWritten(context: string, proficiency: string, sectionMd: string, topic: string,
                            history: seq<ChatMessage>, backend: ChatBackend, enc: Encoder, attempt: nat)
    : (r: (Completion, seq<ChatMessage>, nat))
    requires attempt <= OpenAIRetryMaxAttempts
    ensures attempt < r.2 <= OpenAIRetryMaxAttempts + 1
    ensures |r.1| == |history|
    decreases OpenAIRetryMaxAttempts - attempt
  {
    var injected := InjectContext(history, context);
    var prompt := ChatPrompt(topic, proficiency, sectionMd, injected, enc, ContextLen(ChatModel));
    match backend(attempt, prompt)
    case ChatTimedOut =>
      if attempt < OpenAIRetryMaxAttempts then
        ChatRunAsWritten(context, proficiency, sectionMd, topic, injected, backend, enc, attempt + 1)
      else (Raised, injected, attempt + 1)
    case ChatFailed => (Raised, injected, attempt + 1)
    case ChatAnswered(text) => (Completed(text), injected, attempt + 1)
  }

  /**
   * One timeout on the first turn is enough: the as-written retry stores the
   * context twice in front of the user's text, where the corrected
   * `EntryChatCompletion` stores it once.
   */
  lemma RetryRepeatsContext(context: string, proficiency: string, sectionMd: string, topic: string,
                            first: ChatMessage, enc: Encoder)
    ensures var backend: ChatBackend := (a: nat, p: seq<PromptMessage>) => if a == 0 then ChatTimedOut else ChatAnswered("ok");
      var r := ChatRunAsWritten(context, proficiency, sectionMd, topic, [first], backend, enc, 0);
      && r.0 == Completed("ok") && r.2 == 2
      && r.1[0].contentMd == ContextPrefix(context) + ContextPrefix(context) + first.contentMd
      && r.1[0].contentMd != InjectContext([first], context)[0].contentMd
  {
    var backend: ChatBackend := (a: nat, p: seq<PromptMessage>) => if a == 0 then ChatTimedOut else ChatAnswered("ok");
    var once := InjectContext([first], context);
    var twice := InjectContext(once, context);
    assert twice[0].contentMd == ContextPrefix(context) + (ContextPrefix(context) + first.contentMd);
    assert ChatRunAsWritten(context, proficiency, sectionMd, topic, [first], backend, enc, 0)
      == ChatRunAsWritten(context, proficiency, sectionMd, topic, once, backend, enc, 1);
    assert |twice[0].contentMd| > |once[0].contentMd|;
  }

  // ---------------------------------------------------------------------------
  // Repair of structured answers
  // ---------------------------------------------------------------------------

  predicate IsPrintableAscii(c: char)
  {
    ' ' <= c <= '~'
  }

  /** Step 1 of the repair: delete newlines and every character outside 0x20..0x7e. */
  function KeepPrintable(s: string): (r: string)
    ensures forall c :: c in r ==> IsPrintableAscii(c)
    ensures forall i :: 0 <= i < |s| && IsPrintableAscii(s[i]) ==> s[i] in r
  {
    PyText.Filter(s, IsPrintableAscii)
  }

  /** Step 1 only deletes characters, and a second application changes nothing. */
  lemma KeepPrintableFilter(s: string)
    ensures PyText.IsSubsequence(KeepPrintable(s), s)
    ensures KeepPrintable(KeepPrintable(s)) == KeepPrintable(s)
  {
    PyText.FilterIsSubsequence(s, IsPrintableAscii);
    PyText.FilterIdempotent(s, IsPrintableAscii);
  }

  /** The length of a match of `\s*\}` at the start of `t`, if there is one. */
  function SpacesThenBrace(t: string): (r: Option<nat>)
    ensures r.Some? ==> 0 < r.value <= |t| && t[r.value - 1] == '}'
    ensures r.Some? ==> forall i :: 0 <= i < r.value - 1 ==> PyText.IsSpace(t[i])
  {
    if t == [] then None
    else if t[0] == '}' then Some(1)
    else if PyText.IsSpace(t[0]) then
      match SpacesThenBrace(t[1..])
      case Some(n) => Some(n + 1)
      case None => None
    else None
  }

  /**
   * Step 2 of the repair: delete, scanning left to right, each comma that is
   * followed by whitespace and a closing brace, together with that whitespace
   * and brace (the leftmost non-overlapping matches of the pattern).
   */
  function DropDanglingCommas(s: string): (r: string)
    decreases |s|
  {
    if s == [] then []
    else if s[0] == ',' && SpacesThenBrace(s[1..]).Some? then
      DropDanglingCommas(s[1 + SpacesThenBrace(s[1..]).value..])
    else [s[0]] + DropDanglingCommas(s[1..])
  }

  /** Step 2 only deletes characters, so it never lengthens its input; without a comma it changes nothing. */
  lemma {:induction false} DropDanglingCommasDeletes(s: string)
    ensures PyText.IsSubsequence(DropDanglingCommas(s), s)
    ensures |DropDanglingCommas(s)| <= |s|
    ensures ',' !in s ==> DropDanglingCommas(s) == s
    decreases |s|
  {
    if s != [] {
      if s[0] == ',' && SpacesThenBrace(s[1..]).Some? {
        var rest := s[1 + SpacesThenBrace(s[1..]).value..];
        DropDanglingCommasDeletes(rest);
        SubsequenceOfSuffix(DropDanglingCommas(rest), s, 1 + SpacesThenBrace(s[1..]).value);
      } else {
        DropDanglingCommasDeletes(s[1..]);
        var r := DropDanglingCommas(s);
        assert r[0] == s[0] && r[1..] == DropDanglingCommas(s[1..]);
        assert ',' !in s ==> ',' !in s[1..];
      }
    }
  }

  lemma {:induction false} SubsequenceOfSuffix(sub: string, s: string, k: nat)
    requires k <= |s| && PyText.IsSubsequence(sub, s[k..])
    ensures PyText.IsSubsequence(sub, s)
    decreases k
  {
    if k > 0 {
      assert s[1..][k - 1..] == s[k..];
      SubsequenceOfSuffix(sub, s[1..], k - 1);
      if sub != [] {
        assert PyText.IsSubsequence(sub, s[1..]);
      }
    }
  }

  /**
   * One pass is not a fixpoint: deleting a match can create a new one, so
   * `", ,}}"` is cleaned to `", }"`, which still holds a dangling comma.
   */
  lemma DropDanglingCommasSinglePass()
    ensures DropDanglingCommas(", ,}}") == ", }"
    ensures DropDanglingCommas(", }") == ""
  {
    assert SpacesThenBrace(" ,}}") == None;
    assert SpacesThenBrace("}") == Some(1);
    assert SpacesThenBrace(" }") == Some(2);
    assert SpacesThenBrace("}}") == Some(1);
    assert DropDanglingCommas(",}}") == "}";
    assert DropDanglingCommas(" ,}}") == " }";
  }

  /** The text handed to `json.loads`: step 1 and then step 2. */
  function Repair(s: string): (r: string)
  {
    DropDanglingCommas(KeepPrintable(s))
  }

  /** The repaired text is printable ASCII, no longer than the answer, and taken from it in order. */
  lemma RepairDeletes(s: string)
    ensures |Repair(s)| <= |s|
    ensures forall c :: c in Repair(s) ==> IsPrintableAscii(c)
    ensures PyText.IsSubsequence(Repair(s), s)
  {
    var k := KeepPrintable(s);
    KeepPrintableFilter(s);
    DropDanglingCommasDeletes(k);
    SubsequenceTransitive(Repair(s), k, s);
    forall c | c in Repair(s) ensures IsPrintableAscii(c) {
      SubsequenceMembers(Repair(s), k, c);
    }
  }

  lemma {:induction false} SubsequenceMembers(a: string, b: string, c: char)
    requires PyText.IsSubsequence(a, b) && c in a
    ensures c in b
    decreases |b|
  {
    if a[0] == b[0] && PyText.IsSubsequence(a[1..], b[1..]) {
      if c != a[0] {
        SubsequenceMembers(a[1..], b[1..], c);
      }
    } else {
      SubsequenceMembers(a, b[1..], c);
    }
  }

  lemma {:induction false} SubsequenceTransitive(a: string, b: string, c: string)
    requires PyText.IsSubsequence(a, b) && PyText.IsSubsequence(b, c)
    ensures PyText.IsSubsequence(a, c)
    decreases |c|
  {
    if a != [] {
      if b[0] == c[0] && PyText.IsSubsequence(b[1..], c[1..]) {
        if a[0] == b[0] && PyText.IsSubsequence(a[1..], b[1..]) {
          SubsequenceTransitive(a[1..], b[1..], c[1..]);
        } else {
          SubsequenceTransitive(a, b[1..], c[1..]);
        }
      } else {
        SubsequenceTransitive(a, b, c[1..]);
      }
    }
  }

  // ---------------------------------------------------------------------------
  // The retry policy of the get_entry_* generators
  // ---------------------------------------------------------------------------

  /** What one generation request ended with; `content` is "" where the API gave `None`. */
  datatype Outcome =
    | TimedOut                                   // openai.APITimeoutError
    | Failed                                     // any other exception
    | Finished(reason: string, content: string)  // finish_reason and message content

  /** An answer that finished normally, with finish reason "stop". */
  predicate Stopped(o: Outcome)
  {
    o.Finished? && o.reason == "stop"
  }

  /** One request: the attempt number and the temperature in tenths. */
  datatype Request = Request(attempt: nat, temperature: int)

  type Backend = Request -> Outcome

  /** `max(temperature + 0.1, 1)` in tenths. */
  function Escalate(t: int): (r: int)
    ensures r >= 10 && r > t
    ensures t >= 10 ==> r == t + 1
  {
    if t + 1 > 10 then t + 1 else 10
  }

  /**
   * What distinguishes the generators: how a finished answer is read (`None`
   * asks for a retry), the first temperature, and whether retries raise it.
   */
  datatype Policy<T> = Policy(accept: string -> Option<T>, initialTemperature: int, escalates: bool)

  /** The requests made and the value returned. */
  datatype Run<T> = Run(value: Option<T>, requests: seq<Request>)

  /** An outcome that leads to another attempt while attempts remain. */
  predicate Retryable<T>(policy: Policy<T>, o: Outcome)
  {
    o.TimedOut? || (Stopped(o) && policy.accept(o.content).None?)
  }

  function NextTemperature<T>(policy: Policy<T>, t: int): int
  {
    if policy.escalates then Escalate(t) else t
  }

  /** The generator's recursion from `attempt` on, as a value. */
  function RunFrom<T>(backend: Backend, policy: Policy<T>, attempt: nat, temperature: int): (r: Run<T>)
    requires attempt <= OpenAIRetryMaxAttempts
    ensures 1 <= |r.requests| <= OpenAIRetryMaxAttempts + 1 - attempt
    ensures r.requests[0] == Request(attempt, temperature)
    decreases OpenAIRetryMaxAttempts - attempt
  {
    var q := Request(attempt, temperature);
    var o := backend(q);
    if Retryable(policy, o) && attempt < OpenAIRetryMaxAttempts then
      var rest := RunFrom(backend, policy, attempt + 1, NextTemperature(policy, temperature));
      Run(rest.value, [q] + rest.requests)
    else if Stopped(o) then Run(policy.accept(o.content), [q])
    else Run(None, [q])
  }

  /**
   * The shape of every run: consecutive attempt numbers, every request but the
   * last answered with a retryable outcome, the value read from the last
   * answer, and retries at the escalated temperature.
   */
  lemma {:induction false} RunShape<T>(backend: Backend, policy: Policy<T>, attempt: nat, temperature: int)
    requires attempt <= OpenAIRetryMaxAttempts
    ensures var r := RunFrom(backend, policy, attempt, temperature);
      && (forall i :: 0 <= i < |r.requests| ==> r.requests[i].attempt == attempt + i)
      && (forall i :: 0 <= i < |r.requests| - 1 ==> Retryable(policy, backend(r.requests[i])))
      && (forall i :: 0 < i < |r.requests| ==>
            r.requests[i].temperature == NextTemperature(policy, r.requests[i - 1].temperature))
    decreases OpenAIRetryMaxAttempts - attempt
  {
    var q := Request(attempt, temperature);
    if Retryable(policy, backend(q)) && attempt < OpenAIRetryMaxAttempts {
      var next := NextTemperature(policy, temperature);
      RunShape(backend, policy, attempt + 1, next);
      var rest := RunFrom(backend, policy, attempt + 1, next);
      var r := RunFrom(backend, policy, attempt, temperature);
      assert r.requests == [q] + rest.requests;
      forall i | 0 < i < |r.requests|
        ensures r.requests[i].temperature == NextTemperature(policy, r.requests[i - 1].temperature)
      {
        if i > 1 {
          assert r.requests[i] == rest.requests[i - 1] && r.requests[i - 1] == rest.requests[i - 2];
        }
      }
    }
  }

  /** The value is read from the last answer: present only if it finished with "stop", and then as the policy reads it. */
  lemma {:induction false} RunValue<T>(backend: Backend, policy: Policy<T>, attempt: nat, temperature: int)
    requires attempt <= OpenAIRetryMaxAttempts
    ensures var r := RunFrom(backend, policy, attempt, temperature);
      var o := backend(r.requests[|r.requests| - 1]);
      && (r.value.Some? ==> Stopped(o))
      && (Stopped(o) ==> r.value == policy.accept(o.content))
    decreases OpenAIRetryMaxAttempts - attempt
  {
    var q := Request(attempt, temperature);
    var r := RunFrom(backend, policy, attempt, temperature);
    if Retryable(policy, backend(q)) && attempt < OpenAIRetryMaxAttempts {
      var next := NextTemperature(policy, temperature);
      RunValue(backend, policy, attempt + 1, next);
      var rest := RunFrom(backend, policy, attempt + 1, next);
      assert r == Run(rest.value, [q] + rest.requests);
      assert r.requests[|r.requests| - 1] == rest.requests[|rest.requests| - 1];
    } else {
      assert r.requests == [q];
    }
  }

  /** With escalation, every retry runs at 1.0 or hotter. */
  lemma RetriesRunHot<T>(backend: Backend, policy: Policy<T>, temperature: int)
    requires policy.escalates
    ensures var r := RunFrom(backend, policy, 0, temperature);
      forall i :: 0 < i < |r.requests| ==> r.requests[i].temperature >= 10
  {
    RunShape(backend, policy, 0, temperature);
    var r := RunFrom(backend, policy, 0, temperature);
    forall i | 0 < i < |r.requests| ensures r.requests[i].temperature >= 10 {
      assert r.requests[i].temperature == Escalate(r.requests[i - 1].temperature);
    }
  }

  /** A backend that always times out, or whose answers are never accepted, gets six requests and `None`. */
  lemma {:induction false} RunExhausted<T>(backend: Backend, policy: Policy<T>, attempt: nat, temperature: int)
    requires attempt <= OpenAIRetryMaxAttempts
    requires forall q :: Retryable(policy, backend(q))
    ensures RunFrom(backend, policy, attempt, temperature).value == None
    ensures |RunFrom(backend, policy, attempt, temperature).requests| == OpenAIRetryMaxAttempts + 1 - attempt
    decreases OpenAIRetryMaxAttempts - attempt
  {
    if attempt < OpenAIRetryMaxAttempts {
      RunExhausted(backend, policy, attempt + 1, NextTemperature(policy, temperature));
    } else {
      assert Retryable(policy, backend(Request(attempt, temperature)));
    }
  }

  /** A finish reason other than "stop", or any other failure, ends the run at once with `None`. */
  lemma RunStopsOnUnfinished<T>(backend: Backend, policy: Policy<T>, attempt: nat, temperature: int)
    requires attempt <= OpenAIRetryMaxAttempts
    requires var o := backend(Request(attempt, temperature)); o.Failed? || (o.Finished? && !Stopped(o))
    ensures RunFrom(backend, policy, attempt, temperature) == Run(None, [Request(attempt, temperature)])
  {
  }

  lemma ConcatAssociative<T>(a: seq<T>, b: seq<T>, c: seq<T>)
    ensures a + (b + c) == a + b + c
  {
  }

  /** The generators' loop: request, read the outcome, retry while allowed. */
  method Generate<T>(backend: Backend, policy: Policy<T>) returns (value: Option<T>, requests: seq<Request>)
    ensures Run(value, requests) == RunFrom(backend, policy, 0, policy.initialTemperature)
  {
    var attempt: nat := 0;
    var temperature := policy.initialTemperature;
    requests := [];
    while true
      invariant attempt <= OpenAIRetryMaxAttempts
      invariant var rest := RunFrom(backend, policy, attempt, temperature);
        RunFrom(backend, policy, 0, policy.initialTemperature) == Run(rest.value, requests + rest.requests)
      decreases OpenAIRetryMaxAttempts - attempt
    {
      var q := Request(attempt, temperature);
      var o := backend(q);
      ghost var before := requests;
      requests := requests + [q];
      if Retryable(policy, o) && attempt < OpenAIRetryMaxAttempts {
        ghost var rest := RunFrom(backend, policy, attempt + 1, NextTemperature(policy, temperature));
        assert RunFrom(backend, policy, attempt, temperature) == Run(rest.value, [q] + rest.requests);
        ConcatAssociative(before, [q], rest.requests);
        attempt := attempt + 1;
        temperature := NextTemperature(policy, temperature);
        assert rest == RunFrom(backend, policy, attempt, temperature);
        assert RunFrom(backend, policy, 0, policy.initialTemperature) == Run(rest.value, requests + rest.requests);
      } else {
        value := if Stopped(o) then policy.accept(o.content) else None;
        assert RunFrom(backend, policy, attempt, temperature) == Run(value, [q]);
        return;
      }
    }
  }

  /** Structured generators: an empty answer or one `json.loads` rejects after repair is retried. */
  function StructuredPolicy<T>(parse: string -> Option<T>): (p: Policy<T>)
    ensures p.initialTemperature == 8 && p.escalates
    ensures p.accept("") == None
    ensures forall c :: c != "" ==> p.accept(c) == parse(Repair(c))
  {
    Policy(c => if c == "" then None else parse(Repair(c)), 8, true)
  }

  /** `get_entry_section` and `get_entry_summary`: an empty answer is retried at the same temperature. */
  function FreeTextPolicy(): (p: Policy<string>)
    ensures p.initialTemperature == 8 && !p.escalates
    ensures forall c :: p.accept(c) == if c == "" then None else Some(c)
  {
    Policy(c => if c == "" then None else Some(c), 8, false)
  }

  /** The answers `get_entry_topic` reads as "no title". */
  const SentinelTopics: set<string> := {".", ".'", "'.", "'.'"}

  /** The topic read from a finished answer: "" for an empty or sentinel answer, the answer verbatim otherwise. */
  function TopicAnswer(content: string): (r: string)
    ensures r == "" <==> content == "" || content in SentinelTopics
    ensures r != "" ==> r == content
  {
    if content == "" || content in SentinelTopics then "" else content
  }

  /** `get_entry_topic`: every finished answer is accepted, so only timeouts are retried. */
  function TopicPolicy(): (p: Policy<string>)
    ensures p.initialTemperature == 0 && !p.escalates
    ensures forall c :: p.accept(c) == Some(TopicAnswer(c))
  {
    Policy(c => Some(TopicAnswer(c)), 0, false)
  }

  /** Topic resolution retries only timeouts, and returns `None` unless the last answer finished with "stop". */
  lemma TopicRun(backend: Backend)
    ensures var r := RunFrom(backend, TopicPolicy(), 0, 0);
      && (forall i :: 0 <= i < |r.requests| - 1 ==> backend(r.requests[i]).TimedOut?)
      && (forall i :: 0 <= i < |r.requests| ==> r.requests[i].temperature == 0)
      && (r.value.Some? <==> Stopped(backend(r.requests[|r.requests| - 1])))
      && (r.value.Some? ==> r.value.value == TopicAnswer(backend(r.requests[|r.requests| - 1]).content))
  {
    RunShape(backend, TopicPolicy(), 0, 0);
    RunValue(backend, TopicPolicy(), 0, 0);
    var r := RunFrom(backend, TopicPolicy(), 0, 0);
    forall i | 0 <= i < |r.requests| - 1 ensures backend(r.requests[i]).TimedOut? {
      assert Retryable(TopicPolicy(), backend(r.requests[i]));
    }
    forall i | 0 <= i < |r.requests| ensures r.requests[i].temperature == 0 {
      TopicTemperature(backend, r, i);
    }
  }

  lemma {:induction false} TopicTemperature(backend: Backend, r: Run<string>, i: nat)
    requires r == RunFrom(backend, TopicPolicy(), 0, 0) && i < |r.requests|
    requires forall j :: 0 < j < |r.requests| ==>
      r.requests[j].temperature == NextTemperature(TopicPolicy(), r.requests[j - 1].temperature)
    ensures r.requests[i].temperature == 0
  {
    if i > 0 {
      TopicTemperature(backend, r, i - 1);
    }
  }
}
