/** The configuration values the session layer reads. Loading them from the
    environment is not modelled; only their shape and defaults are. */
module Settings {

  datatype Config = Config(
    ollamaChatUrl: string,
    ollamaReasoningUrl: string,
    chatModel: string,
    reasoningModel: string,
    maxConversationHistory: int)

  /** The defaults declared for the orca_agents configuration. */
  const DefaultConfig := Config(
    "http://localhost:11434",
    "http://localhost:11435",
    "qwen3:0.6b",
    "qwen3:8b",
    50)

  /** Timestamps are integers counting microseconds, the resolution of the
      source's `datetime`; an hour is this many of them. */
  const MicrosecondsPerHour := 3_600_000_000
}
