/** The decisions the HTTP handlers of the orca_agents app make around the
    orchestrator: which conversation id to use, whether to route to the
    manager, which model to report, and when to answer 404. The transport, the
    elapsed-time measurement and the random id generator are parameters. */
module Api {
  import opened Wrappers
  import opened Settings
  import opened Models
  import opened Orchestration
  import Factory

  /** `request.conversation_id or str(uuid.uuid4())`: an empty id is falsy
      and is replaced like a missing one. */
  function ConversationIdFor(supplied: Option<string>, freshId: string): (r: string)
    ensures supplied.Some? && supplied.value != "" ==> r == supplied.value
    ensures supplied.None? || supplied == Some("") ==> r == freshId
  {
    match supplied
    case Some(c) => if c != "" then c else freshId
    case None => freshId
  }

  /** `request.model == settings.reasoning_model or request.use_manager`. */
  function RouteToManager(model: Option<string>, reasoningModel: string, useManager: bool): (r: bool)
    ensures model == Some(reasoningModel) ==> r
    ensures useManager ==> r
    ensures r ==> model == Some(reasoningModel) || useManager
  {
    model == Some(reasoningModel) || useManager
  }

  /** `request.model or (reasoning_model if use_manager else chat_model)`. */
  function ReportedModel(model: Option<string>, config: Config, useManager: bool): (r: string)
    ensures model.Some? && model.value != "" ==> r == model.value
    ensures model.None? || model == Some("") ==>
      r == (if useManager then config.reasoningModel else config.chatModel)
  {
    if model.Some? && model.value != "" then model.value
    else if useManager then config.reasoningModel
    else config.chatModel
  }

  datatype ChatOutcome = ChatOutcome(state: Orchestrator, response: ChatResponse, call: RunCall)

  /** The `chat` handler: `now` is the UTC clock the registry reads,
      `localNow` the local clock read for the response timestamp, and
      `elapsedMs` the measured processing time. When `agent.run` returns a
      string, `process_message` turns every error into a reply and the 500
      branch is not taken. */
  function Chat(o: Orchestrator, q: ChatRequest, freshId: string, now: int, localNow: int, outcome: RunOutcome, elapsedMs: int)
    : (r: ChatOutcome)
    ensures r.response.conversationId == ConversationIdFor(q.conversationId, freshId)
    ensures r.state == ProcessMessage(o, r.response.conversationId, q.message,
      RouteToManager(q.model, o.config.reasoningModel, q.useManager), q.resetContext, now, outcome).state
    // the message and the reset request reach `agent.run` unchanged
    ensures r.call.message == q.message
    ensures r.call.reset <==> Before(o, r.response.conversationId, now).messageCount == 0 || q.resetContext
    ensures (q.model == Some(o.config.reasoningModel) || q.useManager) && o.manager.Some? ==>
      r.call.agent == o.manager.value
    // the response
    ensures outcome.Ok? ==> r.response.message == outcome.reply
    ensures outcome.Err? ==> r.response.message == ErrorReplyPrefix + outcome.message
    ensures r.response.model == ReportedModel(q.model, o.config, RouteToManager(q.model, o.config.reasoningModel, q.useManager))
    ensures r.response.timestamp == localNow && r.response.processingTimeMs == elapsedMs
  {
    var cid := ConversationIdFor(q.conversationId, freshId);
    var route := RouteToManager(q.model, o.config.reasoningModel, q.useManager);
    var p := ProcessMessage(o, cid, q.message, route, q.resetContext, now, outcome);
    ChatOutcome(p.state, ChatResponse(p.reply, cid, ReportedModel(q.model, o.config, route), localNow, elapsedMs), p.call)
  }

  /** Naming the reasoning model is enough to be served by the shared manager;
      the message, and with it the reset request, reach `agent.run` unchanged. */
  lemma ReasoningModelRoutesToManager(
    o: Orchestrator, q: ChatRequest, freshId: string, now: int, localNow: int, outcome: RunOutcome, elapsedMs: int)
    requires q.model == Some(o.config.reasoningModel) && o.manager.Some?
    ensures Chat(o, q, freshId, now, localNow, outcome, elapsedMs).call.agent == o.manager.value
    ensures Chat(o, q, freshId, now, localNow, outcome, elapsedMs).call.message == q.message
    ensures q.resetContext ==> Chat(o, q, freshId, now, localNow, outcome, elapsedMs).call.reset
  {
  }

  /** Without `use_manager` and without naming the reasoning model, a request
      goes to its conversation's chat agent, which is stored. */
  lemma OtherRequestsUseChatAgent(
    o: Orchestrator, q: ChatRequest, freshId: string, now: int, localNow: int, outcome: RunOutcome, elapsedMs: int)
    requires q.model != Some(o.config.reasoningModel) && !q.useManager
    ensures
      var r := Chat(o, q, freshId, now, localNow, outcome, elapsedMs);
      r.state.conversations[r.response.conversationId].agentInstance == Some(r.call.agent)
  {
  }

  /** When the request names no model, the reported model is the reasoning
      model exactly when the shared manager ran (for distinct model names and
      a registry whose chat agents are not the manager). */
  lemma LabelMatchesBackend(
    o: Orchestrator, q: ChatRequest, freshId: string, now: int, localNow: int, outcome: RunOutcome, elapsedMs: int)
    requires q.model.None? && o.manager.Some? && o.manager.value < |o.agents|
    requires o.config.reasoningModel != o.config.chatModel
    requires forall k :: k in o.conversations ==> o.conversations[k].agentInstance != o.manager
    ensures
      var r := Chat(o, q, freshId, now, localNow, outcome, elapsedMs);
      r.response.model == o.config.reasoningModel <==> r.call.agent == o.manager.value
  {
  }

  /** A request naming some other model reports that model even though the
      chat agent, built on the configured chat model, answered it. */
  lemma LabelEchoesRequestedModel(
    o: Orchestrator, q: ChatRequest, freshId: string, now: int, localNow: int, outcome: RunOutcome, elapsedMs: int)
    requires q.model.Some? && q.model.value != "" && q.model.value != o.config.reasoningModel && !q.useManager
    requires forall k :: k in o.conversations && o.conversations[k].agentInstance.Some? ==>
      && o.conversations[k].agentInstance.value < |o.agents|
      && Factory.IsChatAgent(o.config, o.agents[o.conversations[k].agentInstance.value])
    ensures
      var r := Chat(o, q, freshId, now, localNow, outcome, elapsedMs);
      && r.response.model == q.model.value
      && r.state.conversations[r.response.conversationId].agentInstance == Some(r.call.agent)
      && r.call.agent < |r.state.agents|
      && r.state.agents[r.call.agent].model == Factory.CreateModel(o.config, o.config.chatModel, false)
  {
  }

  /** A supplied non-empty id is the conversation the message lands in; any
      other conversation is left as it was. */
  lemma ChatUsesSuppliedConversation(
    o: Orchestrator, q: ChatRequest, freshId: string, now: int, localNow: int, outcome: RunOutcome, elapsedMs: int)
    requires q.conversationId.Some? && q.conversationId.value != ""
    ensures
      var r := Chat(o, q, freshId, now, localNow, outcome, elapsedMs);
      && r.response.conversationId == q.conversationId.value
      && r.state.conversations.Keys == o.conversations.Keys + {q.conversationId.value}
      && forall k :: k in o.conversations && k != q.conversationId.value ==> r.state.conversations[k] == o.conversations[k]
  {
  }

  /** An HTTP answer: a body, or an `HTTPException` with status and detail. */
  datatype Http<+T> = Done(body: T) | HttpError(status: int, detail: string)

  /** An endpoint's effect: the registry afterwards and the HTTP answer. */
  datatype Answer<+T> = Answer(state: Orchestrator, http: Http<T>)

  /** The 404 both conversation endpoints raise. */
  function NotFound<T>(id: string): Http<T> {
    HttpError(404, "Conversation " + id + " not found")
  }

  /** The delete endpoint: 404 exactly when the orchestrator had no such
      conversation; the registry is updated in either case. */
  function ClearEndpoint(o: Orchestrator, id: string): (r: Answer<string>)
    ensures r.http.HttpError? <==> id !in o.conversations
    ensures r.http.HttpError? ==> r.http == NotFound<string>(id)
    ensures r.http.Done? ==> r.http.body == "Conversation " + id + " cleared successfully"
    ensures id !in r.state.conversations && r.state.conversations.Keys == o.conversations.Keys - {id}
  {
    var c := ClearConversation(o, id);
    if c.cleared then Answer(c.state, Done("Conversation " + id + " cleared successfully"))
    else Answer(c.state, NotFound(id))
  }

  /** The stats endpoint: 404 on a missing stats result, which never occurs
      because the stats call creates the conversation. */
  function StatsEndpoint(o: Orchestrator, id: string, now: int): (r: Answer<ConversationStats>)
    ensures r.http.Done?
    ensures r.http.body.conversationId == id && r.http.body.lastActivity == now
    ensures r.http.body.messageCount == Before(o, id, now).messageCount
    ensures id in r.state.conversations
  {
    var s := GetConversationStats(o, id, now);
    if s.stats.Some? then Answer(s.state, Done(s.stats.value))
    else Answer(s.state, NotFound(id))
  }
}
