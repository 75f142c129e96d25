/**
 * The application's constants and enumerations: message roles, response
 * statuses, reader proficiencies and the OpenAI model tables.
 */
module Config {
  import opened Wrappers

  const ChatMessageMaxLen: nat := 2048
  const OpenAIRetryMaxAttempts: nat := 5
  const OpenAIRetryDelaySeconds: nat := 3
  const TopicMaxLen: nat := 256
  const UserAccountMaxCount: nat := 5

  /** Who sent a chat message; its value is the string the OpenAI API expects. */
  datatype SenderRole = Assistant | System | User
  {
    function Value(): string
    {
      match this
      case Assistant => "assistant"
      case System => "system"
      case User => "user"
    }
  }

  /** `ChatMessageSenderRole(v)`: the role whose value is `v`, or `None` where Python raises ValueError. */
  function SenderRoleOf(v: string): (r: Option<SenderRole>)
    ensures r.Some? ==> r.value.Value() == v
  {
    if v == "assistant" then Some(Assistant)
    else if v == "system" then Some(System)
    else if v == "user" then Some(User)
    else None
  }

  lemma SenderRoleValuesDistinct(a: SenderRole, b: SenderRole)
    ensures a.Value() == b.Value() <==> a == b
    ensures SenderRoleOf(a.Value()) == Some(a)
  {
  }

  datatype ResponseStatus =
    | Ok | BadRequest | Created | Forbidden | InternalServerError | NoContent
    | NotAllowed | NotFound | NotImplemented | PayloadTooLarge | TooManyRequests
    | Unauthorized
    | AlreadyExists | ContentMaxLenExceeded | CredentialsInvalid | EmailFormatInvalid
    | EmailInUse | MessageContextInvalid | PasswordFormatInvalid | SessionInvalid
    | UserAccountMaxCountReached | UserNotFound
  {
    /** The integer value of the IntEnum member. */
    function Value(): nat
    {
      match this
      case Ok => 0
      case BadRequest => 1
      case Created => 2
      case Forbidden => 3
      case InternalServerError => 4
      case NoContent => 5
      case NotAllowed => 6
      case NotFound => 7
      case NotImplemented => 8
      case PayloadTooLarge => 9
      case TooManyRequests => 10
      case Unauthorized => 11
      case AlreadyExists => 12
      case ContentMaxLenExceeded => 13
      case CredentialsInvalid => 14
      case EmailFormatInvalid => 15
      case EmailInUse => 16
      case MessageContextInvalid => 17
      case PasswordFormatInvalid => 18
      case SessionInvalid => 19
      case UserAccountMaxCountReached => 20
      case UserNotFound => 21
    }
  }

  /** The member an integer equals under IntEnum comparison, if any. */
  function StatusOf(n: int): (r: Option<ResponseStatus>)
    ensures r.Some? <==> 0 <= n <= 21
    ensures r.Some? ==> r.value.Value() == n
  {
    if n == 0 then Some(Ok)
    else if n == 1 then Some(BadRequest)
    else if n == 2 then Some(Created)
    else if n == 3 then Some(Forbidden)
    else if n == 4 then Some(InternalServerError)
    else if n == 5 then Some(NoContent)
    else if n == 6 then Some(NotAllowed)
    else if n == 7 then Some(NotFound)
    else if n == 8 then Some(NotImplemented)
    else if n == 9 then Some(PayloadTooLarge)
    else if n == 10 then Some(TooManyRequests)
    else if n == 11 then Some(Unauthorized)
    else if n == 12 then Some(AlreadyExists)
    else if n == 13 then Some(ContentMaxLenExceeded)
    else if n == 14 then Some(CredentialsInvalid)
    else if n == 15 then Some(EmailFormatInvalid)
    else if n == 16 then Some(EmailInUse)
    else if n == 17 then Some(MessageContextInvalid)
    else if n == 18 then Some(PasswordFormatInvalid)
    else if n == 19 then Some(SessionInvalid)
    else if n == 20 then Some(UserAccountMaxCountReached)
    else if n == 21 then Some(UserNotFound)
    else None
  }

  /** Every status is one of the integers 0..21 and is read back from its integer. */
  lemma StatusValueRoundTrip(a: ResponseStatus)
    ensures a.Value() <= 21
    ensures StatusOf(a.Value()) == Some(a)
  {
    match a case _ =>
  }

  /** The statuses are exactly the integers 0..21, one member per integer. */
  lemma StatusValuesDistinct(a: ResponseStatus, b: ResponseStatus)
    ensures a.Value() <= 21
    ensures StatusOf(a.Value()) == Some(a)
    ensures a.Value() == b.Value() <==> a == b
  {
    StatusValueRoundTrip(a);
    StatusValueRoundTrip(b);
  }

  datatype Proficiency = Beginner | Intermediate | Advanced
  {
    function Value(): nat
    {
      match this
      case Beginner => 1
      case Intermediate => 2
      case Advanced => 3
    }

    /** The description of the reader that goes into every generation prompt. */
    function PromptFormat(): string
    {
      match this
      // Each description is written as its level name followed by its gloss.
      case Beginner => "Beginner" + BeginnerGloss
      case Intermediate => "Intermediate" + IntermediateGloss
      case Advanced => "Advanced" + AdvancedGloss
    }
  }

  const BeginnerGloss: string :=
    " (struggles to grasp concepts pertaining to the topic so explain it as if speaking to a 5-year-old)"
  const IntermediateGloss: string := " (average level of understanding of concepts related to the topic)"
  const AdvancedGloss: string :=
    " (strong grasp of concepts pertaining to the topic so explain it as if speaking to a professional)"

  /** `UserTopicProficiency(n)`, with `None` where Python raises ValueError. */
  function ProficiencyOf(n: int): (r: Option<Proficiency>)
    ensures r.Some? <==> 1 <= n <= 3
    ensures r.Some? ==> r.value.Value() == n
  {
    if n == 1 then Some(Beginner)
    else if n == 2 then Some(Intermediate)
    else if n == 3 then Some(Advanced)
    else None
  }

  lemma ProficiencyPromptsDistinct(a: Proficiency, b: Proficiency)
    ensures 1 <= a.Value() <= 3
    ensures a.PromptFormat() != ""
    ensures a.PromptFormat() == b.PromptFormat() <==> a == b
    ensures a.Value() == b.Value() <==> a == b
  {
    // The three descriptions already differ in their first letter.
    PromptInitial(a);
    PromptInitial(b);
  }

  lemma PromptInitial(p: Proficiency)
    ensures |p.PromptFormat()| > 0
    ensures p.PromptFormat()[0] == (match p case Beginner => 'B' case Intermediate => 'I' case Advanced => 'A')
  {
    match p
    case Beginner =>
    case Intermediate =>
    case Advanced =>
  }

  datatype OpenAIModel = Gpt35 | Gpt35For16k | Gpt4 | Gpt4Turbo
  {
    function Name(): string
    {
      match this
      case Gpt35 => "gpt-3.5-turbo"
      case Gpt35For16k => "gpt-3.5-turbo-1106"
      case Gpt4 => "gpt-4"
      case Gpt4Turbo => "gpt-4-1106-preview"
    }
  }

  /** `openai_model_context_len`: the context window of each model, in tokens. */
  const ModelContextLen: map<string, nat> := map[
    "gpt-3.5-turbo" := 4096,
    "gpt-3.5-turbo-1106" := 16385,
    "gpt-4" := 8192,
    "gpt-4-1106-preview" := 128000]

  /** `openai_model_token_limits`: the most tokens each model may produce. */
  const ModelTokenLimit: map<string, nat> := map[
    "gpt-3.5-turbo" := 4096,
    "gpt-3.5-turbo-1106" := 4096,
    "gpt-4" := 8192,
    "gpt-4-1106-preview" := 8192]

  /** The context window of a model, looked up in `openai_model_context_len`. */
  function ContextLen(m: OpenAIModel): nat
  {
    ModelTablesAgree(m);
    ModelContextLen[m.Name()]
  }

  /** The output limit of a model, looked up in `openai_model_token_limits`. */
  function TokenLimit(m: OpenAIModel): (n: nat)
    ensures n <= ContextLen(m)
  {
    ModelTablesAgree(m);
    ModelTokenLimit[m.Name()]
  }

  lemma ModelTablesAgree(m: OpenAIModel)
    ensures ModelContextLen.Keys == ModelTokenLimit.Keys
    ensures m.Name() in ModelContextLen && m.Name() in ModelTokenLimit
    ensures ModelTokenLimit[m.Name()] <= ModelContextLen[m.Name()]
    ensures forall k :: k in ModelTokenLimit ==> ModelTokenLimit[k] <= ModelContextLen[k]
  {
  }
}
