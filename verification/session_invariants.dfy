/** Invariants of the conversation registry and what they give across many
    operations: timestamps stay ordered under a clock that does not go back,
    message counts never decrease, stored agents are chat agents distinct from
    the shared manager, and the counts and reset flags that a run of messages
    produces. */
module SessionInvariants {
  import opened Wrappers
  import opened Factory
  import opened Orchestration

  /** One stored conversation is well formed at time `t`. */
  ghost predicate ConvValid(o: Orchestrator, c: Conv, t: int) {
    && c.createdAt <= c.lastActivity <= t
    && (c.agentInstance.Some? ==>
          && c.agentInstance.value < |o.agents|
          && IsChatAgent(o.config, o.agents[c.agentInstance.value])
          && o.manager != c.agentInstance)
  }

  /** The registry invariant at time `t` (no timestamp lies after `t`). */
  ghost predicate Valid(o: Orchestrator, t: int) {
    && (o.manager.Some? ==> o.manager.value < |o.agents|)
    && forall id :: id in o.conversations ==> ConvValid(o, o.conversations[id], t)
  }

  /** `o'` is a later state than `o`: the agent table only grows, and every
      conversation present in both keeps its creation time while its last
      activity and message count do not decrease. */
  ghost predicate Progresses(o: Orchestrator, o': Orchestrator) {
    && o'.config == o.config
    && o'.manager == o.manager
    && o.agents <= o'.agents
    && forall id :: id in o.conversations && id in o'.conversations ==>
         && o'.conversations[id].createdAt == o.conversations[id].createdAt
         && o'.conversations[id].lastActivity >= o.conversations[id].lastActivity
         && o'.conversations[id].messageCount >= o.conversations[id].messageCount
  }

  /** Progress composes as long as no conversation was deleted on the way. */
  lemma ProgressesTransitive(o: Orchestrator, o': Orchestrator, o'': Orchestrator)
    requires Progresses(o, o') && Progresses(o', o'')
    requires o.conversations.Keys <= o'.conversations.Keys
    ensures Progresses(o, o'')
  {
  }

  lemma InitValid(config: Settings.Config, managerCreated: bool, t: int)
    ensures Valid(Init(config, managerCreated), t)
  {
  }

  lemma GetConversationKeepsValid(o: Orchestrator, id: string, t: int, now: int)
    requires Valid(o, t) && t <= now
    ensures Valid(GetConversation(o, id, now), now)
    ensures Progresses(o, GetConversation(o, id, now))
  {
  }

  lemma ProcessMessageKeepsValid(
    o: Orchestrator, id: string, message: string, useManager: bool,
    resetContext: bool, now: int, outcome: RunOutcome, t: int)
    requires Valid(o, t) && t <= now
    ensures Valid(ProcessMessage(o, id, message, useManager, resetContext, now, outcome).state, now)
    ensures Progresses(o, ProcessMessage(o, id, message, useManager, resetContext, now, outcome).state)
  {
  }

  lemma ClearConversationKeepsValid(o: Orchestrator, id: string, t: int)
    requires Valid(o, t)
    ensures Valid(ClearConversation(o, id).state, t)
    ensures Progresses(o, ClearConversation(o, id).state)
    ensures forall k :: k in ClearConversation(o, id).state.conversations ==>
      ClearConversation(o, id).state.conversations[k] == o.conversations[k]
  {
  }

  lemma GetConversationStatsKeepsValid(o: Orchestrator, id: string, t: int, now: int)
    requires Valid(o, t) && t <= now
    ensures Valid(GetConversationStats(o, id, now).state, now)
    ensures Progresses(o, GetConversationStats(o, id, now).state)
  {
  }

  lemma SweepKeepsValid(o: Orchestrator, cutoff: int, t: int)
    requires Valid(o, t)
    ensures Valid(o.(conversations := Survivors(o.conversations, cutoff)), t)
    ensures Progresses(o, o.(conversations := Survivors(o.conversations, cutoff)))
  {
  }

  // ---------------------------------------------------------------------
  // Stale sweep

  /** A second sweep with the same cutoff finds nothing stale and changes
      nothing. */
  lemma SweepAgainRemovesNothing(conversations: map<string, Conv>, cutoff: int)
    ensures StaleIds(Survivors(conversations, cutoff), cutoff) == {}
    ensures Survivors(Survivors(conversations, cutoff), cutoff) == Survivors(conversations, cutoff)
  {
  }

  /** Last activity 25 hours ago is stale for a 24-hour sweep, 30 minutes ago
      is not. */
  lemma SweepScenario(now: int, a: Conv, b: Conv)
    requires a.lastActivity == now - 25 * Settings.MicrosecondsPerHour
    requires b.lastActivity == now - Settings.MicrosecondsPerHour / 2
    ensures Survivors(map["old_conv" := a, "recent_conv" := b], Cutoff(now, 24)) == map["recent_conv" := b]
    ensures |StaleIds(map["old_conv" := a, "recent_conv" := b], Cutoff(now, 24))| == 1
  {
    var m := map["old_conv" := a, "recent_conv" := b];
    assert StaleIds(m, Cutoff(now, 24)) == {"old_conv"};
  }

  // ---------------------------------------------------------------------
  // Delete

  /** Deleting twice: the second call reports false; a later get-or-create
      starts a brand-new record with a zero count. */
  lemma ClearThenRecreate(o: Orchestrator, id: string, now: int)
    ensures !ClearConversation(ClearConversation(o, id).state, id).cleared
    ensures GetConversation(ClearConversation(o, id).state, id, now).conversations[id] == Conv(now, now, 0, None)
  {
  }

  // ---------------------------------------------------------------------
  // Runs of messages on one conversation

  datatype Turn = Turn(message: string, useManager: bool, resetContext: bool, now: int, outcome: RunOutcome)

  /** `process_message` applied to `id` once per turn, in order. */
  function RunTurns(o: Orchestrator, id: string, turns: seq<Turn>): Orchestrator
    decreases |turns|
  {
    if |turns| == 0 then o
    else
      var t := turns[0];
      RunTurns(ProcessMessage(o, id, t.message, t.useManager, t.resetContext, t.now, t.outcome).state, id, turns[1..])
  }

  /** How many turns' runs succeeded. */
  function Successes(turns: seq<Turn>): nat
    decreases |turns|
  {
    if |turns| == 0 then 0 else (if turns[0].outcome.Ok? then 1 else 0) + Successes(turns[1..])
  }

  /** The message count of `id`, zero when it is not registered. */
  function CountOf(o: Orchestrator, id: string): nat {
    if id in o.conversations then o.conversations[id].messageCount else 0
  }

  /** The times of the turns never go back, starting from `t`. */
  ghost predicate ClockFrom(t: int, turns: seq<Turn>)
    decreases |turns|
  {
    |turns| == 0 || (t <= turns[0].now && ClockFrom(turns[0].now, turns[1..]))
  }

  function LastTime(t: int, turns: seq<Turn>): int {
    if |turns| == 0 then t else turns[|turns| - 1].now
  }

  /** After a run of messages the count has grown by exactly the number of
      successful runs: failed runs are not counted. */
  lemma {:induction false} CountGrowsBySuccesses(o: Orchestrator, id: string, turns: seq<Turn>)
    ensures CountOf(RunTurns(o, id, turns), id) == CountOf(o, id) + Successes(turns)
    decreases |turns|
  {
    if |turns| > 0 {
      var t := turns[0];
      var o1 := ProcessMessage(o, id, t.message, t.useManager, t.resetContext, t.now, t.outcome).state;
      assert CountOf(o1, id) == CountOf(o, id) + (if t.outcome.Ok? then 1 else 0);
      CountGrowsBySuccesses(o1, id, turns[1..]);
    }
  }

  /** A run of messages under a clock that does not go back keeps the
      registry invariant and only moves the registry forward. */
  lemma {:induction false} TurnsKeepValid(o: Orchestrator, id: string, turns: seq<Turn>, t: int)
    requires Valid(o, t) && ClockFrom(t, turns)
    ensures Valid(RunTurns(o, id, turns), LastTime(t, turns))
    ensures Progresses(o, RunTurns(o, id, turns))
    ensures o.conversations.Keys <= RunTurns(o, id, turns).conversations.Keys
    decreases |turns|
  {
    if |turns| > 0 {
      var tn := turns[0];
      var o1 := ProcessMessage(o, id, tn.message, tn.useManager, tn.resetContext, tn.now, tn.outcome).state;
      ProcessMessageKeepsValid(o, id, tn.message, tn.useManager, tn.resetContext, tn.now, tn.outcome, t);
      TurnsKeepValid(o1, id, turns[1..], tn.now);
      assert LastTime(tn.now, turns[1..]) == LastTime(t, turns);
      ProgressesTransitive(o, o1, RunTurns(o1, id, turns[1..]));
    }
  }

  /** The first message of a new conversation always runs with reset. */
  lemma FirstMessageResets(
    o: Orchestrator, id: string, message: string, useManager: bool,
    resetContext: bool, now: int, outcome: RunOutcome)
    requires id !in o.conversations
    ensures ProcessMessage(o, id, message, useManager, resetContext, now, outcome).call.reset
  {
  }

  /** A second message without `resetContext` continues the context when the
      first run succeeded, but resets it again when the first run failed,
      because a failed run leaves the count at zero. */
  lemma SecondMessageReset(o: Orchestrator, id: string, first: Turn, second: Turn)
    requires id !in o.conversations
    requires !second.resetContext
    ensures
      var o1 := ProcessMessage(o, id, first.message, first.useManager, first.resetContext, first.now, first.outcome).state;
      var r := ProcessMessage(o1, id, second.message, second.useManager, false, second.now, second.outcome);
      r.call.reset <==> first.outcome.Err?
  {
  }

  /** Two chat-path messages without reset on a new conversation build one
      chat agent and run both messages on it. */
  lemma ChatAgentCached(o: Orchestrator, id: string, first: Turn, second: Turn)
    requires id !in o.conversations
    requires !first.useManager && !second.useManager && !second.resetContext
    ensures
      var p1 := ProcessMessage(o, id, first.message, false, first.resetContext, first.now, first.outcome);
      var p2 := ProcessMessage(p1.state, id, second.message, false, false, second.now, second.outcome);
      && p2.call.agent == p1.call.agent == |o.agents|
      && p2.state.agents == o.agents + [CreateChatAgent(o.config, None)]
  {
  }
}
