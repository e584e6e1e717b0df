/** The conversation registry of `MultiAgentOrchestrator`: a map from
    conversation id to a four-field record, the shared manager agent, and the
    operations on them, each an atomic state transformer. Time is the integer
    `now`; the result of `agent.run` is the oracle `RunOutcome`. */
module Orchestration {
  import opened Wrappers
  import opened Settings
  import opened Factory
  import Pruning

  /** A handle on an agent: its index in the orchestrator's agent table. */
  type AgentId = nat

  /** The record stored per conversation. */
  datatype Conv = Conv(
    createdAt: int,
    lastActivity: int,
    messageCount: nat,
    agentInstance: Option<AgentId>)

  /** `agents` records every agent built so far (a fresh handle is the next
      index); `manager` is the shared manager agent and `managerPrunes` says
      whether the memory-pruning callback was attached to it. */
  datatype Orchestrator = Orchestrator(
    config: Config,
    agents: seq<Agent>,
    manager: Option<AgentId>,
    managerPrunes: bool,
    conversations: map<string, Conv>)

  /** What `agent.run` did: returned a reply or raised an error with a message. */
  datatype RunOutcome = Ok(reply: string) | Err(message: string)

  /** The call made to `agent.run`: which agent, which message, which reset flag. */
  datatype RunCall = RunCall(agent: AgentId, message: string, reset: bool)

  const ErrorReplyPrefix := "I encountered an error: "

  /** The conversation record as it was before an operation: the stored one,
      or the fresh record get-or-create would insert at time `now`. */
  function Before(o: Orchestrator, id: string, now: int): Conv {
    if id in o.conversations then o.conversations[id] else Conv(now, now, 0, None)
  }

  // ---------------------------------------------------------------------
  // Construction

  /** `__init__` with `_setup_manager`: `managerCreated` says whether
      `create_manager_agent` succeeded; if not, a plain chat agent becomes the
      manager and no pruning callback is attached to it. */
  function Init(config: Config, managerCreated: bool): (o: Orchestrator)
    ensures o.conversations == map[]
    ensures o.manager.Some? && o.manager.value < |o.agents|
    ensures o.managerPrunes <==> managerCreated
    ensures managerCreated ==> o.agents[o.manager.value] == CreateManagerAgent(config, None)
    ensures !managerCreated ==> IsChatAgent(config, o.agents[o.manager.value])
  {
    if managerCreated then Orchestrator(config, [CreateManagerAgent(config, None)], Some(0), true, map[])
    else Orchestrator(config, [CreateChatAgent(config, None)], Some(0), false, map[])
  }

  /** The step callback as it acts on the shared manager's memory: the global
      `max_conversation_history` applies, whatever conversation the step
      belongs to, and nothing happens when the callback was never attached. */
  function ManagerStepCallback<T>(o: Orchestrator, memory: Option<seq<T>>): (r: Option<seq<T>>)
    ensures !o.managerPrunes ==> r == memory
    ensures o.managerPrunes ==> r == Pruning.MemoryCallback(memory, o.config.maxConversationHistory)
    ensures r.None? <==> memory.None?
    ensures o.managerPrunes && memory.Some? && o.config.maxConversationHistory >= 2 ==>
      |r.value| <= o.config.maxConversationHistory && |r.value| <= |memory.value|
  {
    if o.managerPrunes then Pruning.MemoryCallback(memory, o.config.maxConversationHistory)
    else memory
  }

  // ---------------------------------------------------------------------
  // Registry operations

  /** `get_conversation`: create the record when the id is unseen, then touch
      `last_activity` in either case. */
  function GetConversation(o: Orchestrator, id: string, now: int): (r: Orchestrator)
    ensures id in r.conversations
    ensures r.conversations.Keys == o.conversations.Keys + {id}
    ensures id !in o.conversations ==> r.conversations[id] == Conv(now, now, 0, None)
    ensures id in o.conversations ==> r.conversations[id] == o.conversations[id].(lastActivity := now)
    ensures forall k :: k in o.conversations && k != id ==> r.conversations[k] == o.conversations[k]
    ensures r.(conversations := o.conversations) == o
  {
    o.(conversations := o.conversations[id := Before(o, id, now).(lastActivity := now)])
  }

  /** The agent chosen for a message and the state after choosing it. */
  datatype Selected = Selected(state: Orchestrator, agent: AgentId)

  /** The routing step of `process_message`: the manager when `useManager`
      is set and a manager exists; otherwise the conversation's chat agent,
      built afresh (a new handle) when none is stored or `resetContext` is
      set. Only the chosen conversation's `agentInstance` and the agent table
      may change. */
  function SelectAgent(o: Orchestrator, id: string, useManager: bool, resetContext: bool): (s: Selected)
    requires id in o.conversations
    ensures s.state.conversations.Keys == o.conversations.Keys
    ensures forall k :: k in o.conversations && k != id ==> s.state.conversations[k] == o.conversations[k]
    ensures s.state.conversations[id] == o.conversations[id].(agentInstance := s.state.conversations[id].agentInstance)
    ensures s.state.(agents := o.agents, conversations := o.conversations) == o
    ensures useManager && o.manager.Some? ==> s == Selected(o, o.manager.value)
    ensures !(useManager && o.manager.Some?) ==>
      s.state.conversations[id].agentInstance == Some(s.agent)
    ensures !(useManager && o.manager.Some?) && (o.conversations[id].agentInstance.None? || resetContext) ==>
      s.agent == |o.agents| && s.state.agents == o.agents + [CreateChatAgent(o.config, None)]
    ensures !(useManager && o.manager.Some?) && o.conversations[id].agentInstance.Some? && !resetContext ==>
      s == Selected(o, o.conversations[id].agentInstance.value)
  {
    var conv := o.conversations[id];
    if useManager && o.manager.Some? then Selected(o, o.manager.value)
    else if conv.agentInstance.None? || resetContext then
      var h := |o.agents|;
      Selected(
        o.(agents := o.agents + [CreateChatAgent(o.config, None)],
           conversations := o.conversations[id := conv.(agentInstance := Some(h))]),
        h)
    else Selected(o, conv.agentInstance.value)
  }

  /** The result of `process_message`: the new state, the reply text and the
      call made to `agent.run`. */
  datatype Processed = Processed(state: Orchestrator, reply: string, call: RunCall)

  /** The tail of `process_message` after `agent.run`: a reply is counted; an
      error becomes the error reply and is not counted. */
  function Complete(o: Orchestrator, id: string, call: RunCall, outcome: RunOutcome): (r: Processed)
    requires id in o.conversations
    ensures r.call == call
    ensures r.state.conversations.Keys == o.conversations.Keys
    ensures forall k :: k in o.conversations && k != id ==> r.state.conversations[k] == o.conversations[k]
    ensures r.state.(conversations := o.conversations) == o
    ensures outcome.Ok? ==>
      r.reply == outcome.reply
      && r.state.conversations[id] == o.conversations[id].(messageCount := o.conversations[id].messageCount + 1)
    ensures outcome.Err? ==> r.reply == ErrorReplyPrefix + outcome.message && r.state == o
  {
    match outcome
    case Ok(reply) =>
      var c := o.conversations[id];
      Processed(o.(conversations := o.conversations[id := c.(messageCount := c.messageCount + 1)]), reply, call)
    case Err(msg) =>
      Processed(o, ErrorReplyPrefix + msg, call)
  }

  /** `process_message`: get-or-create the conversation, choose the agent,
      run it with reset on the first message or on request, then count the
      message; a failing run becomes an error reply and is not counted, but
      the touch and a freshly built chat agent remain. */
  function ProcessMessage(
    o: Orchestrator, id: string, message: string, useManager: bool,
    resetContext: bool, now: int, outcome: RunOutcome): (r: Processed)
    ensures id in r.state.conversations
    ensures r.state.conversations.Keys == o.conversations.Keys + {id}
    ensures forall k :: k in o.conversations && k != id ==> r.state.conversations[k] == o.conversations[k]
    ensures r.state.config == o.config && r.state.manager == o.manager && r.state.managerPrunes == o.managerPrunes
    ensures r.state.conversations[id].createdAt == Before(o, id, now).createdAt
    ensures r.state.conversations[id].lastActivity == now
    // routing and agent caching
    ensures useManager && o.manager.Some? ==>
      && r.call.agent == o.manager.value
      && r.state.agents == o.agents
      && r.state.conversations[id].agentInstance == Before(o, id, now).agentInstance
    ensures !(useManager && o.manager.Some?) ==>
      r.state.conversations[id].agentInstance == Some(r.call.agent)
    ensures !(useManager && o.manager.Some?) && (Before(o, id, now).agentInstance.None? || resetContext) ==>
      && r.call.agent == |o.agents|
      && r.state.agents == o.agents + [CreateChatAgent(o.config, None)]
    ensures !(useManager && o.manager.Some?) && Before(o, id, now).agentInstance.Some? && !resetContext ==>
      && r.call.agent == Before(o, id, now).agentInstance.value
      && r.state.agents == o.agents
    // the call and its outcome
    ensures r.call.message == message
    ensures r.call.reset <==> Before(o, id, now).messageCount == 0 || resetContext
    ensures outcome.Ok? ==>
      r.reply == outcome.reply && r.state.conversations[id].messageCount == Before(o, id, now).messageCount + 1
    ensures outcome.Err? ==>
      r.reply == ErrorReplyPrefix + outcome.message
      && r.state.conversations[id].messageCount == Before(o, id, now).messageCount
  {
    var o1 := GetConversation(o, id, now);
    var conv := o1.conversations[id];
    var s := SelectAgent(o1, id, useManager, resetContext);
    var shouldReset := conv.messageCount == 0 || resetContext;
    Complete(s.state, id, RunCall(s.agent, message, shouldReset), outcome)
  }

  /** The result of `clear_conversation`: the new state and whether the id was
      removed. */
  datatype Cleared = Cleared(state: Orchestrator, cleared: bool)

  /** `clear_conversation`: delete the id if present and say whether it was. */
  function ClearConversation(o: Orchestrator, id: string): (r: Cleared)
    ensures r.cleared <==> id in o.conversations
    ensures id !in r.state.conversations
    ensures r.state.conversations.Keys == o.conversations.Keys - {id}
    ensures forall k :: k in r.state.conversations ==> r.state.conversations[k] == o.conversations[k]
    ensures r.state.(conversations := o.conversations) == o
  {
    if id in o.conversations then Cleared(o.(conversations := o.conversations - {id}), true)
    else Cleared(o, false)
  }

  /** The statistics reported for one conversation (timestamps as integers
      rather than ISO strings). */
  datatype ConversationStats = ConversationStats(
    conversationId: string,
    createdAt: int,
    lastActivity: int,
    messageCount: nat,
    hasAgentInstance: bool)

  datatype StatsResult = StatsResult(state: Orchestrator, stats: Option<ConversationStats>)

  /** `get_conversation_stats`: it goes through `get_conversation`, so an
      unknown id is created, and a record is always reported. */
  function GetConversationStats(o: Orchestrator, id: string, now: int): (r: StatsResult)
    ensures r.state == GetConversation(o, id, now)
    ensures r.stats.Some?
    ensures r.stats.value.conversationId == id
    ensures r.stats.value.createdAt == Before(o, id, now).createdAt
    ensures r.stats.value.lastActivity == now
    ensures r.stats.value.messageCount == Before(o, id, now).messageCount
    ensures r.stats.value.hasAgentInstance <==> r.state.conversations[id].agentInstance.Some?
  {
    var o1 := GetConversation(o, id, now);
    var c := o1.conversations[id];
    StatsResult(o1, Some(ConversationStats(id, c.createdAt, c.lastActivity, c.messageCount, c.agentInstance.Some?)))
  }

  /** `list_active_conversations`: every registered id, each exactly once. */
  method ListActiveConversations(o: Orchestrator) returns (ids: seq<string>)
    ensures forall i :: 0 <= i < |ids| ==> ids[i] in o.conversations
    ensures forall k :: k in o.conversations ==> k in ids
    ensures forall i, j :: 0 <= i < j < |ids| ==> ids[i] != ids[j]
    ensures |ids| == |o.conversations|
  {
    ids := [];
    var rest := o.conversations.Keys;
    while rest != {}
      invariant rest <= o.conversations.Keys
      invariant forall i :: 0 <= i < |ids| ==> ids[i] in o.conversations && ids[i] !in rest
      invariant forall k :: k in o.conversations ==> k in ids || k in rest
      invariant forall i, j :: 0 <= i < j < |ids| ==> ids[i] != ids[j]
      invariant |ids| + |rest| == |o.conversations.Keys|
      decreases |rest|
    {
      var k :| k in rest;
      ids := ids + [k];
      rest := rest - {k};
    }
  }

  /** The ids `cleanup_stale_conversations` removes: last activity strictly
      before the cutoff. */
  function StaleIds(conversations: map<string, Conv>, cutoff: int): set<string> {
    set k | k in conversations && conversations[k].lastActivity < cutoff
  }

  /** The records that survive a sweep with the given cutoff. */
  function Survivors(conversations: map<string, Conv>, cutoff: int): map<string, Conv> {
    map k | k in conversations && conversations[k].lastActivity >= cutoff :: conversations[k]
  }

  /** The cutoff `now - timedelta(hours=maxAgeHours)`. */
  function Cutoff(now: int, maxAgeHours: int): int {
    now - maxAgeHours * MicrosecondsPerHour
  }

  /** The sweep's count is the number of stale records: survivors and stale
      ids split the registry, and deleting the stale ids leaves the survivors. */
  lemma SweepCountsStale(conversations: map<string, Conv>, cutoff: int)
    ensures Survivors(conversations, cutoff).Keys !! StaleIds(conversations, cutoff)
    ensures Survivors(conversations, cutoff).Keys + StaleIds(conversations, cutoff) == conversations.Keys
    ensures conversations - StaleIds(conversations, cutoff) == Survivors(conversations, cutoff)
    ensures |conversations| - |Survivors(conversations, cutoff)| == |StaleIds(conversations, cutoff)|
  {
    var s := Survivors(conversations, cutoff).Keys;
    var d := StaleIds(conversations, cutoff);
    assert s + d == conversations.Keys;
    assert |s + d| == |s| + |d|;
  }

  /** The deletion loop of the sweep: remove each listed id and count the
      deletions. */
  method DeleteEach(conversations: map<string, Conv>, ids: set<string>)
    returns (remaining: map<string, Conv>, deleted: nat)
    requires ids <= conversations.Keys
    ensures remaining == conversations - ids
    ensures deleted == |ids|
  {
    remaining := conversations;
    deleted := 0;
    var rest := ids;
    while rest != {}
      invariant rest <= ids
      invariant remaining == conversations - (ids - rest)
      invariant deleted == |ids - rest|
      decreases |rest|
    {
      var k :| k in rest;
      assert ids - (rest - {k}) == (ids - rest) + {k};
      remaining := remaining - {k};
      rest := rest - {k};
      deleted := deleted + 1;
    }
  }

  /** `cleanup_stale_conversations`: collect the stale ids, delete them one by
      one and count the deletions. */
  method CleanupStaleConversations(o: Orchestrator, maxAgeHours: int, now: int)
    returns (r: Orchestrator, cleaned: nat)
    ensures r.(conversations := o.conversations) == o
    ensures r.conversations.Keys <= o.conversations.Keys
    ensures forall k :: k in o.conversations ==>
      (k in r.conversations <==> o.conversations[k].lastActivity >= Cutoff(now, maxAgeHours))
    ensures forall k :: k in r.conversations ==> r.conversations[k] == o.conversations[k]
    ensures cleaned == |o.conversations| - |r.conversations|
    ensures r.conversations == Survivors(o.conversations, Cutoff(now, maxAgeHours))
  {
    var cutoff := Cutoff(now, maxAgeHours);
    var stale := StaleIds(o.conversations, cutoff);
    var conversations;
    conversations, cleaned := DeleteEach(o.conversations, stale);
    SweepCountsStale(o.conversations, cutoff);
    r := o.(conversations := conversations);
  }
}
