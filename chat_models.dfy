/**
 * The backend's request and record schemas (backend/models/chat.py): the
 * message role, the length bounds on message contents and session titles,
 * the whitespace check on chat requests and the defaults of a new session.
 * A schema that fails validation is a `FieldError` instead of a raised
 * validation exception.
 */
module ChatModels {
  import opened Wrappers
  import opened Text

  const MaxMessageLength: nat := 10000
  const MaxTitleLength: nat := 100
  /** The model used when none is given (backend/core/config.py). */
  const DefaultModel := "meta-llama/llama-3.3-70b-instruct:free"
  const DefaultSessionTitle := "New Chat"

  /** Who wrote a message. The frontend uses the same three strings. */
  datatype Role = User | Assistant | System

  /** The enum value of a role, as stored and sent over the wire. */
  function RoleValue(r: Role): string {
    match r
    case User => "user"
    case Assistant => "assistant"
    case System => "system"
  }

  /** Reading a role from its string value: any other string is rejected. */
  function ParseRole(s: string): (r: Option<Role>)
    ensures r.Some? ==> RoleValue(r.value) == s
  {
    if s == "user" then Some(User)
    else if s == "assistant" then Some(Assistant)
    else if s == "system" then Some(System)
    else None
  }

  lemma RoleRoundTrip(r: Role)
    ensures ParseRole(RoleValue(r)) == Some(r)
  {
  }

  /** The enum has exactly three members. */
  lemma RoleHasThreeValues(s: string)
    ensures ParseRole(s).Some? <==> s in {"user", "assistant", "system"}
  {
  }

  /** One chat message: a role and its text. */
  datatype Message = Message(role: Role, content: string)

  datatype FieldError = UnknownRole | TooShort | TooLong | OnlyWhitespace

  /** A pydantic field that the caller may leave out, so that its default applies. */
  datatype Field<T> = Omitted | Given(value: T)

  /** The `min_length`/`max_length` constraint of a string field. */
  function CheckLength(s: string, min: nat, max: nat): (e: Option<FieldError>)
    ensures e.None? <==> min <= |s| <= max
    ensures e == Some(TooShort) <==> |s| < min
    ensures e == Some(TooLong) <==> min <= |s| && max < |s|
  {
    if |s| < min then Some(TooShort)
    else if max < |s| then Some(TooLong)
    else None
  }

  /** `ChatMessage(role=..., content=...)`: a known role and 1 to 10000 characters of content. */
  function ValidateChatMessage(role: string, content: string): (r: Result<Message, FieldError>)
    ensures r.Ok? <==> ParseRole(role).Some? && 1 <= |content| <= MaxMessageLength
    ensures r.Ok? ==> RoleValue(r.value.role) == role && r.value.content == content
  {
    match ParseRole(role)
    case None => Err(UnknownRole)
    case Some(rl) =>
      match CheckLength(content, 1, MaxMessageLength)
      case Some(e) => Err(e)
      case None => Ok(Message(rl, content))
  }

  /** A validated chat request. */
  datatype ChatRequest = ChatRequest(sessionId: string, message: string, systemPrompt: Option<string>)

  /**
   * `ChatRequest(...)`: the length bounds are checked first; then
   * `validate_message` rejects a whitespace-only message and otherwise keeps
   * it as given (not stripped).
   */
  function ValidateChatRequest(sessionId: string, message: string, systemPrompt: Option<string>)
    : (r: Result<ChatRequest, FieldError>)
    ensures r.Ok? <==> 1 <= |message| <= MaxMessageLength && !IsBlank(message)
    ensures r.Ok? ==> r.value == ChatRequest(sessionId, message, systemPrompt)
    ensures r == Err(OnlyWhitespace) <==> 1 <= |message| <= MaxMessageLength && IsBlank(message)
  {
    match CheckLength(message, 1, MaxMessageLength)
    case Some(e) => Err(e)
    case None =>
      if IsBlank(message) then Err(OnlyWhitespace)
      else Ok(ChatRequest(sessionId, message, systemPrompt))
  }

  /** An optional session title with its default and the 100-character bound. */
  function ValidateTitle(title: Field<Option<string>>, default: Option<string>)
    : (r: Result<Option<string>, FieldError>)
    requires default.Some? ==> |default.value| <= MaxTitleLength
    ensures r.Ok? ==> r.value.Some? ==> |r.value.value| <= MaxTitleLength
    ensures title.Omitted? ==> r == Ok(default)
    ensures title.Given? ==> (r.Ok? <==> title.value.None? || |title.value.value| <= MaxTitleLength)
    ensures title.Given? && r.Ok? ==> r.value == title.value
  {
    match title
    case Omitted => Ok(default)
    case Given(None) => Ok(None)
    case Given(Some(t)) => if |t| <= MaxTitleLength then Ok(Some(t)) else Err(TooLong)
  }

  datatype SessionCreate = SessionCreate(projectId: string, title: Option<string>, chatModel: string)

  /** `SessionCreate(...)`: the title defaults to "New Chat" and the model to the default model. */
  function ValidateSessionCreate(projectId: string, title: Field<Option<string>>, chatModel: Field<string>)
    : (r: Result<SessionCreate, FieldError>)
    ensures r.Ok? ==> r.value.projectId == projectId
    ensures r.Ok? && r.value.title.Some? ==> |r.value.title.value| <= MaxTitleLength
    ensures title.Omitted? ==> r.Ok? && r.value.title == Some(DefaultSessionTitle)
    ensures title.Given? && r.Ok? ==> r.value.title == title.value
    ensures r.Ok? ==> r.value.chatModel == (if chatModel.Omitted? then DefaultModel else chatModel.value)
    ensures r.Err? <==> title.Given? && title.value.Some? && |title.value.value| > MaxTitleLength
  {
    match ValidateTitle(title, Some(DefaultSessionTitle))
    case Err(e) => Err(e)
    case Ok(t) =>
      Ok(SessionCreate(projectId, t, if chatModel.Omitted? then DefaultModel else chatModel.value))
  }

  /** `SessionUpdate(...)`: the title defaults to no change (None) and is bounded. */
  function ValidateSessionUpdate(title: Field<Option<string>>): (r: Result<Option<string>, FieldError>)
    ensures title.Omitted? ==> r == Ok(None)
    ensures title.Given? && r.Ok? ==> r.value == title.value
    ensures r.Ok? && r.value.Some? ==> |r.value.value| <= MaxTitleLength
    ensures r.Err? <==> title.Given? && title.value.Some? && |title.value.value| > MaxTitleLength
  {
    ValidateTitle(title, None)
  }
}
