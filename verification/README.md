# Conversation sessions of the orca_agents backend, in Dafny

This project models the conversation-session layer of the `orca_agents`
backend of OrcaSlicer's AI assistant. It also models the small pure decisions
around that layer.

- `MultiAgentOrchestrator` keeps a registry that maps a conversation id to a
  record with four fields: creation time, last activity, message count and an
  optional per-conversation chat agent. It also keeps one shared manager agent.
- Messages go either to the manager or to the conversation's chat agent. The
  manager's memory is pruned by a step callback.
- `OllamaAgentFactory` decides which model identifier and which Ollama service
  each kind of agent uses.
- The `chat`, delete and stats HTTP handlers pick the conversation id, the
  route and the reported model, and decide when to answer 404.
- The pydantic request and response schemas are modelled as validators, both
  in `orca_agents` and in the earlier `app` package.

Every operation is a pure function over immutable data:

- the registry is a `map<string, Conv>`;
- time is an explicit integer `now`, counted in microseconds;
- an agent is a handle, its index in the orchestrator's table of built agents,
  and taking the next index stands for `factory.create_chat_agent()`;
- the result of `agent.run` is an oracle parameter, `Ok(reply)` or
  `Err(message)`.

Listing conversations and sweeping stale ones are methods with loops, because
they walk the key set the way the source walks its dictionary.

Files:

- `wrappers.dfy`: `Option` and `Result`.
- `settings.dfy`: the configuration fields the layer reads and their defaults (`orca-agents/orca_agents/config.py:23-61`).
- `pruning.dfy`: Python slicing and the memory-pruning callback.
- `factory.dfy`: model id normalisation, service choice and agent construction.
- `orchestration.dfy`: the registry state and its operations.
- `session_invariants.dfy`: the registry invariant, and lemmas about runs of messages, deletion and the sweep.
- `api.dfy`: the handler decisions.
- `models.dfy`, `legacy_models.dfy`: the schemas.

Where the source behaves differently from what its docstrings or a reader might expect, the model follows the source:

- A failing `agent.run` does not increment `message_count`, because the
  increment comes after the call. The message count therefore counts successful
  runs only, and the next message is again run with reset while the count is still 0.
- Stats never reports a conversation as not found, because the stats call goes
  through get-or-create and creates the conversation.
- The conversation record holds no step history. Pruning acts only on the shared
  manager's memory, with the global maximum, through the callback. If the
  manager could not be built, a chat agent replaces it without the callback.
- Pruning uses the Python slice `steps[-(max-1):]`. With a maximum of 1 that slice
  is the whole list, so the "pruned" memory grows by one step.

## Model

| member | source | states |
|---|---|---|
| Pruning.PruneSteps | orca-agents/orca_agents/agents/orchestrator.py:59-70 | memory no longer than the maximum is unchanged; the first step is always kept; for max >= 2 a longer memory becomes exactly max steps, the anchor followed by the last max-1; for max == 1 the result is the anchor followed by the whole memory |
| Pruning.MemoryCallback | orca-agents/orca_agents/agents/orchestrator.py:59-70 | a step without agent memory is left alone; a memory at or under the maximum is unchanged; with max >= 2 the pruned memory never exceeds the maximum |
| Pruning.PruneKeepsAnchorAndRecent | orca-agents/orca_agents/agents/orchestrator.py:66-69 | pointwise: position 0 of the pruned memory is the old first step, and position i > 0 is old position len - max + i |
| Pruning.PruneBounded | orca-agents/orca_agents/agents/orchestrator.py:63-70 | for max >= 2, pruning never yields more than max steps and never adds steps |
| Pruning.PruneIdempotent | orca-agents/orca_agents/agents/orchestrator.py:63-70 | for max >= 2, a second callback on an already pruned memory changes nothing |
| Pruning.PruneWithMaxOneGrows | orca-agents/orca_agents/agents/orchestrator.py:66-69 | with max == 1 each prune of a memory longer than one step makes it one step longer |
| Orchestration.Init | orca-agents/orca_agents/agents/orchestrator.py:35-50 | the registry starts empty with a manager; the manager is the reasoning code agent with the pruning callback, or, when that cannot be built, a chat agent without the callback |
| Orchestration.ManagerStepCallback | orca-agents/orca_agents/agents/orchestrator.py:43-70 | the callback prunes the shared manager's memory with the global maximum (bounded by it when it is >= 2); a fallback manager's memory is never pruned |
| Orchestration.GetConversation | orca-agents/orca_agents/agents/orchestrator.py:83-96 | an unseen id gets the record (now, now, 0, no agent); a known id changes only its last activity; no other entry changes and the key set gains exactly the id |
| Orchestration.SelectAgent | orca-agents/orca_agents/agents/orchestrator.py:120-128 | the manager is used iff use_manager is set and a manager exists, and that path leaves the record alone; otherwise a new chat agent (the next handle) is built iff none is stored or reset_context is set, else the stored one is reused |
| Orchestration.Complete | orca-agents/orca_agents/agents/orchestrator.py:138-148 | a successful run's reply is returned and counts one message; a failed run yields "I encountered an error: " + its message and leaves the state as it was |
| Orchestration.ProcessMessage | orca-agents/orca_agents/agents/orchestrator.py:98-148 | the conversation exists afterwards with last activity now; the reset flag is (count before == 0 or reset_context); routing and agent caching as above; success adds exactly one to the count; failure returns the error text, keeps the count, but keeps the touch and a newly built chat agent; other entries unchanged |
| Orchestration.ClearConversation | orca-agents/orca_agents/agents/orchestrator.py:159-164 | returns true iff the id was a key; afterwards the id is absent, and all other entries and the rest of the state are unchanged |
| Orchestration.GetConversationStats | orca-agents/orca_agents/agents/orchestrator.py:175-184 | always reports stats (it creates the conversation); the reported count and creation time are those before the call; has_agent_instance iff an agent is stored |
| Orchestration.ListActiveConversations | orca-agents/orca_agents/agents/orchestrator.py:192-193 | returns every registered id exactly once and nothing else |
| Orchestration.CleanupStaleConversations | orca-agents/orca_agents/agents/orchestrator.py:206-222 | removes exactly the entries whose last activity is strictly before now - max_age_hours; survivors are unchanged; returns how many entries were removed |
| Orchestration.DeleteEach | orca-agents/orca_agents/agents/orchestrator.py:215-217 | deleting each listed id one by one leaves the map minus those ids, and the count is the number of ids deleted |
| SessionInvariants.InitValid | orca-agents/orca_agents/agents/orchestrator.py:35-50 | a fresh orchestrator satisfies the registry invariant |
| SessionInvariants.GetConversationKeepsValid | orca-agents/orca_agents/agents/orchestrator.py:83-96 | with a clock that does not go back, get-or-create keeps created_at <= last_activity <= now and never decreases a count or moves a creation time |
| SessionInvariants.ProcessMessageKeepsValid | orca-agents/orca_agents/agents/orchestrator.py:116-144 | processing a message keeps the invariant: timestamps ordered, counts never decrease, every stored agent is a chat agent and is never the manager |
| SessionInvariants.ClearConversationKeepsValid | orca-agents/orca_agents/agents/orchestrator.py:159-164 | deletion keeps the invariant, and every surviving entry is exactly as it was |
| SessionInvariants.GetConversationStatsKeepsValid | orca-agents/orca_agents/agents/orchestrator.py:175-184 | reading stats keeps the invariant |
| SessionInvariants.SweepKeepsValid | orca-agents/orca_agents/agents/orchestrator.py:209-217 | the sweep keeps the invariant |
| Orchestration.SweepCountsStale | orca-agents/orca_agents/agents/orchestrator.py:210-217 | survivors and stale ids partition the registry, deleting the stale ids leaves exactly the survivors, and the returned count equals the number of stale entries |
| SessionInvariants.SweepAgainRemovesNothing | orca-agents/orca_agents/agents/orchestrator.py:210-213 | a second sweep with the same cutoff finds nothing stale and changes nothing |
| SessionInvariants.SweepScenario | orca-agents/orca_agents/agents/orchestrator.py:206-217 | with a 24-hour threshold, activity 25 hours ago is swept and activity 30 minutes ago survives |
| SessionInvariants.ClearThenRecreate | orca-agents/orca_agents/agents/orchestrator.py:84-164 | a second delete returns false; a later get-or-create starts a new record with count 0 and no agent |
| SessionInvariants.CountGrowsBySuccesses | orca-agents/orca_agents/agents/orchestrator.py:136-148 | after any run of messages on one conversation its count has grown by exactly the number of successful runs |
| SessionInvariants.TurnsKeepValid | orca-agents/orca_agents/agents/orchestrator.py:83-144 | a run of messages under a clock that does not go back keeps the invariant and never decreases counts or last activity |
| SessionInvariants.FirstMessageResets | orca-agents/orca_agents/agents/orchestrator.py:134-138 | the first message of a new conversation always runs with reset |
| SessionInvariants.SecondMessageReset | orca-agents/orca_agents/agents/orchestrator.py:136-141 | a second message without reset_context runs with reset iff the first run failed |
| SessionInvariants.ChatAgentCached | orca-agents/orca_agents/agents/orchestrator.py:124-127 | two chat-path messages on a new conversation build exactly one chat agent and run both on it |
| Factory.NormalizeModelId | orca-agents/orca_agents/agents/factory.py:34-35 | the result always starts with "ollama/"; an id already carrying it is unchanged, any other gets it prepended |
| Factory.NormalizeIdempotent | orca-agents/orca_agents/agents/factory.py:34-35 | normalising twice equals normalising once |
| Factory.NormalizeFixedPointsAndInverse | orca-agents/orca_agents/agents/factory.py:34-35 | an id is unchanged iff it already has the prefix; otherwise dropping the prefix gives it back |
| Factory.CreateModel | orca-agents/orca_agents/agents/factory.py:23-49 | the model id is prefixed; the base URL is the reasoning URL iff use_reasoning (or both URLs coincide), else the chat URL |
| Factory.ManagerAgentUsesReasoningService | orca-agents/orca_agents/agents/factory.py:51-73 | the manager is a code agent on the normalised reasoning model and the reasoning URL, with no tools unless tools are given |
| Factory.WebAgentUsesChatService | orca-agents/orca_agents/agents/factory.py:75-116 | the web surfer, directly or as the managed web agent, is a tool-calling agent on the chat model and chat URL, and has no tools iff the tool import fails |
| Factory.ChatAgentUsesChatService | orca-agents/orca_agents/agents/factory.py:118-140 | the chat agent is a code agent on the normalised chat model and the chat URL, with no tools unless tools are given |
| Factory.ManagerAndChatUseDistinctServices | orca-agents/orca_agents/agents/factory.py:38-42 | with distinct configured URLs the manager and the chat agent never share a service |
| Factory.DefaultAgentModels | orca-agents/orca_agents/config.py:23-40 | under the defaults the chat agent runs ollama/qwen3:0.6b on port 11434 and the manager ollama/qwen3:8b on port 11435 |
| Api.ConversationIdFor | orca-agents/orca_agents/main.py:87 | the supplied id when non-empty, otherwise the freshly generated id (an empty id counts as missing) |
| Api.RouteToManager | orca-agents/orca_agents/main.py:90 | a request goes to the manager route iff it names the configured reasoning model or sets use_manager |
| Api.ReportedModel | orca-agents/orca_agents/main.py:105-106 | the requested model when set and non-empty, otherwise the reasoning model iff routed to the manager, else the chat model |
| Api.Chat | orca-agents/orca_agents/main.py:80-109 | the registry changes exactly as process_message does under the chosen id and routing rule; the message and reset_context reach run unchanged (reset iff the count before was 0 or reset_context); naming the reasoning model or setting use_manager runs the manager when one exists; the response carries the reply (or the error text), the id, the reported model, the local-clock timestamp and the elapsed time |
| Api.ReasoningModelRoutesToManager | orca-agents/orca_agents/main.py:90-97 | naming the reasoning model is enough to run on the shared manager, with the message unchanged and reset when requested |
| Api.OtherRequestsUseChatAgent | orca-agents/orca_agents/main.py:90-97 | without use_manager and without the reasoning model, the conversation's stored chat agent runs |
| Api.LabelMatchesBackend | orca-agents/orca_agents/main.py:90-106 | with no requested model, the reported model is the reasoning model iff the manager ran |
| Api.LabelEchoesRequestedModel | orca-agents/orca_agents/main.py:90-106 | a requested non-reasoning model without use_manager is reported as such, while the agent that answered is the conversation's stored chat agent, built on the configured chat model and chat URL (given that stored agents are chat agents, as the registry invariant keeps) |
| Api.ChatUsesSuppliedConversation | orca-agents/orca_agents/main.py:87-97 | a supplied non-empty id is the conversation the message lands in, and no other conversation changes |
| Api.ClearEndpoint | orca-agents/orca_agents/main.py:117-126 | 404 iff the conversation was not registered; the id is absent afterwards |
| Api.StatsEndpoint | orca-agents/orca_agents/main.py:136-145 | never 404: stats are always returned, for the requested id, with last activity now |
| Models.ParseRole | orca-agents/orca_agents/models.py:12 | a role is accepted iff it is "user", "assistant" or "system", and reading back its name gives the input |
| Models.MessageErrors | orca-agents/orca_agents/models.py:20 | the message field is error-free iff it is present with 1 <= length <= 10000 |
| Models.ValidateChatMessage | orca-agents/orca_agents/models.py:9-14 | valid iff the role is one of the three literals and content is present (empty content allowed); the timestamp defaults to now |
| Models.ChatMessageRoundTrip | orca-agents/orca_agents/models.py:9-14 | every message validates back to itself from its own fields |
| Models.ValidateChatRequest | orca-agents/orca_agents/models.py:17-33 | valid iff the message length is within 1..10000; omitted fields default to no conversation id, no model, and false flags; given fields are kept |
| Models.ChatRequestRoundTrip | orca-agents/orca_agents/models.py:17-33 | every request with a message of allowed length validates back to itself from its own fields |
| Models.ChatRequestDefaults | orca-agents/orca_agents/models.py:21-33 | a request giving only a message has conversation_id and model None and use_manager, reset_context and stream false |
| Models.ValidateChatResponse | orca-agents/orca_agents/models.py:36-45 | valid iff message, conversation_id, model and processing_time_ms are present; any values are accepted; the timestamp defaults to now |
| Models.ChatResponseRoundTrip | orca-agents/orca_agents/models.py:36-45 | every response, including an empty message and zero time, validates back to itself |
| Models.ValidateModelsResponse | orca-agents/orca_agents/models.py:48-53 | valid iff all three fields are present; any list, empty or with duplicates, is kept as given |
| LegacyModels.ValidateLegacyChatRequest | orca-agents/app/models.py:17-25 | valid iff the message length is within 1..10000; conversation_id defaults to None, model to "qwen3", stream to false |
| LegacyModels.LegacyChatRequestRoundTrip | orca-agents/app/models.py:17-25 | every legacy request with a message of allowed length validates back to itself |
| LegacyModels.LegacyChatRequestDefaults | orca-agents/app/models.py:21-25 | a legacy request giving only a message asks for "qwen3" with no conversation id and no streaming |

The legacy `ChatMessage` (`orca-agents/app/models.py:9-14`) and `ChatResponse` (`orca-agents/app/models.py:28-37`) have the
same fields and constraints as the orca_agents ones. `Models.ValidateChatMessage`
and `Models.ValidateChatResponse` therefore model them too.

## Left out

- Concurrency: the `asyncio.Lock` and interleavings are not modelled. Each
  registry operation is one atomic step. `process_message` increments the count
  outside the lock, but no interleaving is considered.
- Clocks: `datetime.utcnow` and `time.time` are replaced by the integer `now`
  and by the measured `elapsedMs`. The response's `datetime.now()` is a
  separate local clock, `localNow`. Creating a record reads the clock three times
  (for `created_at`, for `last_activity`, and again for the touch), and the
  model uses one `now` for all three reads. The ISO rendering of timestamps in
  stats is dropped.
- The agent framework: agents, LiteLLM models and tools are plain records, and
  `agent.run` is an oracle. When and how the framework calls the step callback,
  and whether a step exposes `agent.memory`, is outside this model. The
  callback takes that memory as an optional value.
- `create_chat_agent` and `create_model` are assumed not to raise inside
  `process_message`. Only `agent.run` failing is modelled as an error.
- Orchestration.Init: always succeeds. In the source, `__init__` raises when the
  fallback `create_chat_agent()` raises too; that path is not modelled, because
  agent construction is outside this model.
- Api.Chat: the reply of `agent.run` is assumed to be a string. A non-string
  final answer, such as a number or a dict, makes building the `ChatResponse`
  raise a validation error, which the handler turns into a 500. That path is
  not modelled.
- Orchestration.CleanupStaleConversations: the cutoff is unbounded integer
  arithmetic. Python's datetime subtraction raises OverflowError once the
  cutoff leaves years 1 to 9999, for example with a huge `max_age_hours`. The
  model returns a result there instead of an error. The model
  always takes `max_age_hours` as an argument, so the default of 24 is not
  modelled.
- `system_prompt` and `max_steps`: the factory methods accept them but never
  pass them on, so they have no effect and are not modelled.
- `process_message` defaults `use_manager` to true. Its only caller always
  passes the flag, so the default is not modelled.
- Orchestration.ListActiveConversations: the order of the returned list is not
  stated. Python returns keys in insertion order, and a Dafny map has no order.
- Schemas: the validators take an already-typed input. Pydantic's type coercion
  and a null given for a non-nullable field are not modelled. The errors are
  field-level tags, not pydantic's messages.
- The list-conversations endpoint passes the orchestrator's list through unchanged.
- The health, root and model-list endpoints, CORS and the FastAPI wiring are left out.
- The Ollama HTTP client, the earlier `app` endpoints and configuration loading
  are left out. The configuration defaults appear only as constants.
- Logging is left out.
