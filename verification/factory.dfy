/** The agent factory: which language model, Ollama service and tools each
    kind of agent is built with. Agents and models are plain records here;
    the agent framework that would run them is not part of this model. */
module Factory {
  import opened Wrappers
  import opened Settings

  const OllamaPrefix := "ollama/"

  predicate HasPrefix(s: string, p: string) {
    |p| <= |s| && s[..|p|] == p
  }

  /** The model identifier handed to LiteLLM: `ollama/` is prepended unless
      the identifier already carries it. */
  function NormalizeModelId(modelId: string): (r: string)
    ensures HasPrefix(r, OllamaPrefix)
    ensures HasPrefix(modelId, OllamaPrefix) ==> r == modelId
    ensures !HasPrefix(modelId, OllamaPrefix) ==> r == OllamaPrefix + modelId
  {
    if HasPrefix(modelId, OllamaPrefix) then modelId else OllamaPrefix + modelId
  }

  /** Normalising twice is normalising once. */
  lemma NormalizeIdempotent(modelId: string)
    ensures NormalizeModelId(NormalizeModelId(modelId)) == NormalizeModelId(modelId)
  {
  }

  /** Normalisation leaves an identifier unchanged exactly when it already
      carries the prefix, and it loses no information: dropping the prefix
      gives back the identifier that was not yet prefixed. */
  lemma NormalizeFixedPointsAndInverse(modelId: string)
    ensures NormalizeModelId(modelId) == modelId <==> HasPrefix(modelId, OllamaPrefix)
    ensures !HasPrefix(modelId, OllamaPrefix) ==>
      NormalizeModelId(modelId)[|OllamaPrefix|..] == modelId
  {
  }

  /** A LiteLLM model: the normalised identifier and the Ollama base URL. */
  datatype LlmModel = LlmModel(modelId: string, apiBase: string)

  /** `create_model`: the reasoning service when `useReasoning`, otherwise the
      chat service. */
  function CreateModel(config: Config, modelId: string, useReasoning: bool): (m: LlmModel)
    ensures HasPrefix(m.modelId, OllamaPrefix)
    ensures m.modelId == NormalizeModelId(modelId)
    ensures m.apiBase == config.ollamaReasoningUrl <==> (useReasoning || config.ollamaReasoningUrl == config.ollamaChatUrl)
    ensures m.apiBase == config.ollamaChatUrl <==> (!useReasoning || config.ollamaReasoningUrl == config.ollamaChatUrl)
  {
    LlmModel(
      NormalizeModelId(modelId),
      if useReasoning then config.ollamaReasoningUrl else config.ollamaChatUrl)
  }

  datatype AgentKind = CodeAgent | ToolCallingAgent

  datatype Tool = DuckDuckGoSearchTool | VisitWebpageTool | OtherTool(name: string)

  /** An agent as the factory builds it. The `system_prompt` and `max_steps`
      arguments of the factory methods are accepted but never passed on, so
      they are not part of the record. */
  datatype Agent = Agent(kind: AgentKind, model: LlmModel, tools: seq<Tool>)

  /** Python's `tools or []`. */
  function ToolsOrEmpty(tools: Option<seq<Tool>>): seq<Tool> {
    tools.ValueOr([])
  }

  function CreateManagerAgent(config: Config, tools: Option<seq<Tool>>): Agent {
    Agent(CodeAgent, CreateModel(config, config.reasoningModel, true), ToolsOrEmpty(tools))
  }

  /** `toolsImported` stands for whether the web-search tool import succeeds. */
  function CreateWebSurferAgent(config: Config, toolsImported: bool): Agent {
    Agent(
      ToolCallingAgent,
      CreateModel(config, config.chatModel, false),
      if toolsImported then [DuckDuckGoSearchTool, VisitWebpageTool] else [])
  }

  function CreateManagedWebAgent(config: Config, toolsImported: bool): Agent {
    CreateWebSurferAgent(config, toolsImported)
  }

  function CreateChatAgent(config: Config, tools: Option<seq<Tool>>): Agent {
    Agent(CodeAgent, CreateModel(config, config.chatModel, false), ToolsOrEmpty(tools))
  }

  /** The agent the orchestrator stores per conversation: a chat agent built
      with the default (empty) tool list. */
  predicate IsChatAgent(config: Config, a: Agent) {
    a == CreateChatAgent(config, None)
  }

  /** The manager is a code agent on the configured reasoning model, served by
      the reasoning service, with no tools unless some are given. */
  lemma ManagerAgentUsesReasoningService(config: Config, tools: Option<seq<Tool>>)
    ensures CreateManagerAgent(config, tools).kind == CodeAgent
    ensures CreateManagerAgent(config, tools).model.apiBase == config.ollamaReasoningUrl
    ensures CreateManagerAgent(config, tools).model.modelId == NormalizeModelId(config.reasoningModel)
    ensures tools.None? || tools == Some([]) ==> CreateManagerAgent(config, tools).tools == []
    ensures tools.Some? ==> CreateManagerAgent(config, tools).tools == tools.value
  {
  }

  /** The chat agent is a code agent on the configured chat model, served by
      the chat service, with no tools unless some are given. */
  lemma ChatAgentUsesChatService(config: Config, tools: Option<seq<Tool>>)
    ensures CreateChatAgent(config, tools).kind == CodeAgent
    ensures CreateChatAgent(config, tools).model.apiBase == config.ollamaChatUrl
    ensures CreateChatAgent(config, tools).model.modelId == NormalizeModelId(config.chatModel)
    ensures tools.None? || tools == Some([]) ==> CreateChatAgent(config, tools).tools == []
    ensures tools.Some? ==> CreateChatAgent(config, tools).tools == tools.value
  {
  }

  /** The web surfer, directly or through `create_managed_web_agent`, is a
      tool-calling agent on the chat model and chat service; its tools are the
      two web tools, or none when they cannot be imported. */
  lemma WebAgentUsesChatService(config: Config, toolsImported: bool)
    ensures CreateManagedWebAgent(config, toolsImported) == CreateWebSurferAgent(config, toolsImported)
    ensures CreateWebSurferAgent(config, toolsImported).kind == ToolCallingAgent
    ensures CreateWebSurferAgent(config, toolsImported).model.apiBase == config.ollamaChatUrl
    ensures CreateWebSurferAgent(config, toolsImported).model.modelId == NormalizeModelId(config.chatModel)
    ensures CreateWebSurferAgent(config, toolsImported).tools == [] <==> !toolsImported
  {
  }

  /** With distinct service URLs the manager and the chat agent never share a
      service. */
  lemma ManagerAndChatUseDistinctServices(config: Config)
    requires config.ollamaChatUrl != config.ollamaReasoningUrl
    ensures CreateManagerAgent(config, None).model.apiBase != CreateChatAgent(config, None).model.apiBase
  {
  }

  /** Under the default configuration the chat agent runs `ollama/qwen3:0.6b`
      on port 11434 and the manager runs `ollama/qwen3:8b` on port 11435. */
  lemma DefaultAgentModels()
    ensures CreateChatAgent(DefaultConfig, None).model == LlmModel("ollama/qwen3:0.6b", "http://localhost:11434")
    ensures CreateManagerAgent(DefaultConfig, None).model == LlmModel("ollama/qwen3:8b", "http://localhost:11435")
  {
    assert DefaultConfig.chatModel[0] == 'q' != OllamaPrefix[0];
    assert DefaultConfig.reasoningModel[0] == 'q' != OllamaPrefix[0];
  }
}
