/** The request and response schemas of the orca_agents API, as validators
    from an input record (a field is `None` when the client omitted it) to
    the validated value or the list of field errors. `now` stands in for the
    `datetime.now` default of the timestamp fields. */
module Models {
  import opened Wrappers

  const MessageMinLength := 1
  const MessageMaxLength := 10000

  datatype Role = User | Assistant | System

  function RoleName(role: Role): string {
    match role
    case User => "user"
    case Assistant => "assistant"
    case System => "system"
  }

  /** The literal type `Literal["user", "assistant", "system"]`. */
  function ParseRole(s: string): (r: Option<Role>)
    ensures r.Some? <==> s in {"user", "assistant", "system"}
    ensures r.Some? ==> RoleName(r.value) == s
  {
    if s == "user" then Some(User)
    else if s == "assistant" then Some(Assistant)
    else if s == "system" then Some(System)
    else None
  }

  lemma RoleRoundTrip(role: Role)
    ensures ParseRole(RoleName(role)) == Some(role)
  {
  }

  /** The errors pydantic reports, one per offending field. */
  datatype FieldError =
    | Missing(field: string)
    | NotAllowed(field: string)
    | TooShort(field: string)
    | TooLong(field: string)

  /** The error for a required field, if it is absent. */
  function Required<T>(field: string, v: Option<T>): (errs: seq<FieldError>)
    ensures errs == [] <==> v.Some?
  {
    if v.None? then [Missing(field)] else []
  }

  predicate MessageLengthOk(message: string) {
    MessageMinLength <= |message| <= MessageMaxLength
  }

  /** The errors of a required `message` field with `min_length=1` and
      `max_length=10000`. */
  function MessageErrors(message: Option<string>): (errs: seq<FieldError>)
    ensures errs == [] <==> message.Some? && MessageLengthOk(message.value)
    ensures |errs| <= 1
  {
    match message
    case None => [Missing("message")]
    case Some(m) =>
      if |m| < MessageMinLength then [TooShort("message")]
      else if |m| > MessageMaxLength then [TooLong("message")]
      else []
  }

  // ---------------------------------------------------------------------
  // ChatMessage

  datatype ChatMessage = ChatMessage(role: Role, content: string, timestamp: int)

  datatype ChatMessageInput = ChatMessageInput(role: Option<string>, content: Option<string>, timestamp: Option<int>)

  function ValidateChatMessage(input: ChatMessageInput, now: int): (r: Result<ChatMessage, seq<FieldError>>)
    ensures r.Success? <==>
      input.role.Some? && input.role.value in {"user", "assistant", "system"} && input.content.Some?
    ensures r.Success? ==>
      && RoleName(r.value.role) == input.role.value
      && r.value.content == input.content.value
      && r.value.timestamp == input.timestamp.ValueOr(now)
    ensures r.Failure? ==> (Missing("content") in r.error <==> input.content.None?)
  {
    var roleErrors :=
      match input.role
      case None => [Missing("role")]
      case Some(s) => if ParseRole(s).None? then [NotAllowed("role")] else [];
    var errors := roleErrors + Required("content", input.content);
    if errors == [] then
      Success(ChatMessage(ParseRole(input.role.value).value, input.content.value, input.timestamp.ValueOr(now)))
    else Failure(errors)
  }

  function ChatMessageFields(m: ChatMessage): ChatMessageInput {
    ChatMessageInput(Some(RoleName(m.role)), Some(m.content), Some(m.timestamp))
  }

  /** Serialising a message and validating it again gives it back; any
      content, the empty string included, is accepted. */
  lemma ChatMessageRoundTrip(m: ChatMessage, now: int)
    ensures ValidateChatMessage(ChatMessageFields(m), now) == Success(m)
  {
    RoleRoundTrip(m.role);
  }

  // ---------------------------------------------------------------------
  // ChatRequest

  datatype ChatRequest = ChatRequest(
    message: string,
    conversationId: Option<string>,
    model: Option<string>,
    useManager: bool,
    resetContext: bool,
    stream: bool)

  /** The nullable fields carry an inner `Option`: omitted (`None`) versus
      given, possibly as `null` (`Some(None)`). */
  datatype ChatRequestInput = ChatRequestInput(
    message: Option<string>,
    conversationId: Option<Option<string>>,
    model: Option<Option<string>>,
    useManager: Option<bool>,
    resetContext: Option<bool>,
    stream: Option<bool>)

  function ValidateChatRequest(input: ChatRequestInput): (r: Result<ChatRequest, seq<FieldError>>)
    ensures r.Success? <==> input.message.Some? && MessageLengthOk(input.message.value)
    ensures r.Success? ==>
      && r.value.message == input.message.value
      && (input.conversationId.None? ==> r.value.conversationId.None?)
      && (input.conversationId.Some? ==> r.value.conversationId == input.conversationId.value)
      && (input.model.None? ==> r.value.model.None?)
      && (input.model.Some? ==> r.value.model == input.model.value)
      && (r.value.useManager <==> input.useManager == Some(true))
      && (r.value.resetContext <==> input.resetContext == Some(true))
      && (r.value.stream <==> input.stream == Some(true))
    ensures r.Failure? ==> |r.error| == 1
  {
    var errors := MessageErrors(input.message);
    if errors == [] then
      Success(ChatRequest(
        input.message.value,
        input.conversationId.ValueOr(None),
        input.model.ValueOr(None),
        input.useManager.ValueOr(false),
        input.resetContext.ValueOr(false),
        input.stream.ValueOr(false)))
    else Failure(errors)
  }

  function ChatRequestFields(q: ChatRequest): ChatRequestInput {
    ChatRequestInput(Some(q.message), Some(q.conversationId), Some(q.model),
                     Some(q.useManager), Some(q.resetContext), Some(q.stream))
  }

  /** Every request with a message of allowed length survives a round trip
      through its fields. */
  lemma ChatRequestRoundTrip(q: ChatRequest)
    requires MessageLengthOk(q.message)
    ensures ValidateChatRequest(ChatRequestFields(q)) == Success(q)
  {
  }

  /** A request giving only a message gets no conversation id, no model and
      all three flags off. */
  lemma ChatRequestDefaults(message: string)
    requires MessageLengthOk(message)
    ensures ValidateChatRequest(ChatRequestInput(Some(message), None, None, None, None, None))
      == Success(ChatRequest(message, None, None, false, false, false))
  {
  }

  // ---------------------------------------------------------------------
  // ChatResponse

  datatype ChatResponse = ChatResponse(
    message: string,
    conversationId: string,
    model: string,
    timestamp: int,
    processingTimeMs: int)

  datatype ChatResponseInput = ChatResponseInput(
    message: Option<string>,
    conversationId: Option<string>,
    model: Option<string>,
    timestamp: Option<int>,
    processingTimeMs: Option<int>)

  /** Every field but the timestamp is required; no value is constrained. */
  function ValidateChatResponse(input: ChatResponseInput, now: int): (r: Result<ChatResponse, seq<FieldError>>)
    ensures r.Success? <==>
      input.message.Some? && input.conversationId.Some? && input.model.Some? && input.processingTimeMs.Some?
    ensures r.Success? ==>
      r.value == ChatResponse(input.message.value, input.conversationId.value, input.model.value,
                              input.timestamp.ValueOr(now), input.processingTimeMs.value)
    ensures r.Failure? ==> (Missing("processing_time_ms") in r.error <==> input.processingTimeMs.None?)
  {
    var errors :=
      Required("message", input.message) + Required("conversation_id", input.conversationId)
      + Required("model", input.model) + Required("processing_time_ms", input.processingTimeMs);
    if errors == [] then
      Success(ChatResponse(input.message.value, input.conversationId.value, input.model.value,
                           input.timestamp.ValueOr(now), input.processingTimeMs.value))
    else Failure(errors)
  }

  function ChatResponseFields(p: ChatResponse): ChatResponseInput {
    ChatResponseInput(Some(p.message), Some(p.conversationId), Some(p.model), Some(p.timestamp), Some(p.processingTimeMs))
  }

  /** Every response, an empty message and a zero processing time included,
      survives a round trip through its fields. */
  lemma ChatResponseRoundTrip(p: ChatResponse, now: int)
    ensures ValidateChatResponse(ChatResponseFields(p), now) == Success(p)
  {
  }

  // ---------------------------------------------------------------------
  // ModelsResponse

  datatype ModelsResponse = ModelsResponse(models: seq<string>, chatModel: string, reasoningModel: string)

  datatype ModelsResponseInput = ModelsResponseInput(
    models: Option<seq<string>>, chatModel: Option<string>, reasoningModel: Option<string>)

  /** All three fields are required; the list may be empty or repeat names. */
  function ValidateModelsResponse(input: ModelsResponseInput): (r: Result<ModelsResponse, seq<FieldError>>)
    ensures r.Success? <==> input.models.Some? && input.chatModel.Some? && input.reasoningModel.Some?
    ensures r.Success? ==> r.value == ModelsResponse(input.models.value, input.chatModel.value, input.reasoningModel.value)
    ensures r.Failure? ==> (Missing("models") in r.error <==> input.models.None?)
  {
    var errors :=
      Required("models", input.models) + Required("chat_model", input.chatModel)
      + Required("reasoning_model", input.reasoningModel);
    if errors == [] then
      Success(ModelsResponse(input.models.value, input.chatModel.value, input.reasoningModel.value))
    else Failure(errors)
  }
}
