/** The request schema of the earlier `app` package. Its `ChatMessage` and
    `ChatResponse` declare exactly the fields and constraints of the
    orca_agents ones, so `Models.ValidateChatMessage` and
    `Models.ValidateChatResponse` describe them too; its `ChatRequest`
    differs: no routing flags, and a non-nullable `model` defaulting to
    `qwen3`. */
module LegacyModels {
  import opened Wrappers
  import opened Models

  const DefaultModel := "qwen3"

  datatype LegacyChatRequest = LegacyChatRequest(
    message: string,
    conversationId: Option<string>,
    model: string,
    stream: bool)

  datatype LegacyChatRequestInput = LegacyChatRequestInput(
    message: Option<string>,
    conversationId: Option<Option<string>>,
    model: Option<string>,
    stream: Option<bool>)

  function ValidateLegacyChatRequest(input: LegacyChatRequestInput): (r: Result<LegacyChatRequest, seq<FieldError>>)
    ensures r.Success? <==> input.message.Some? && MessageLengthOk(input.message.value)
    ensures r.Success? ==>
      && r.value.message == input.message.value
      && (input.conversationId.None? ==> r.value.conversationId.None?)
      && (input.conversationId.Some? ==> r.value.conversationId == input.conversationId.value)
      && r.value.model == (if input.model.Some? then input.model.value else DefaultModel)
      && (r.value.stream <==> input.stream == Some(true))
    ensures r.Failure? ==> |r.error| == 1
  {
    var errors := MessageErrors(input.message);
    if errors == [] then
      Success(LegacyChatRequest(
        input.message.value,
        input.conversationId.ValueOr(None),
        input.model.ValueOr(DefaultModel),
        input.stream.ValueOr(false)))
    else Failure(errors)
  }

  function LegacyChatRequestFields(q: LegacyChatRequest): LegacyChatRequestInput {
    LegacyChatRequestInput(Some(q.message), Some(q.conversationId), Some(q.model), Some(q.stream))
  }

  lemma LegacyChatRequestRoundTrip(q: LegacyChatRequest)
    requires MessageLengthOk(q.message)
    ensures ValidateLegacyChatRequest(LegacyChatRequestFields(q)) == Success(q)
  {
  }

  /** A request giving only a message asks for `qwen3`, with no conversation
      id and no streaming. */
  lemma LegacyChatRequestDefaults(message: string)
    requires MessageLengthOk(message)
    ensures ValidateLegacyChatRequest(LegacyChatRequestInput(Some(message), None, None, None))
      == Success(LegacyChatRequest(message, None, "qwen3", false))
  {
  }
}
