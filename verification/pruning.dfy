/** The memory-pruning step callback attached to the shared manager agent:
    when the agent's memory holds more steps than the configured maximum, keep
    the first step (the system prompt) and the most recent `max - 1` steps. */
module Pruning {
  import opened Wrappers

  /** Python's `s[k:]` for any integer `k`: a negative `k` counts from the end
      and is clamped to the start, a non-negative `k` is clamped to the end. */
  function SliceFrom<T>(s: seq<T>, k: int): (r: seq<T>)
    ensures |r| <= |s|
    ensures r == s[|s| - |r|..]
    ensures k >= 0 ==> |r| == (if k <= |s| then |s| - k else 0)
    ensures k < 0 ==> |r| == (if -k <= |s| then -k else |s|)
  {
    if k >= 0 then (if k <= |s| then s[k..] else [])
    else if -k <= |s| then s[|s| + k..]
    else s
  }

  /** Python's `s[0:1]`: the first element, or nothing when `s` is empty. */
  function Head<T>(s: seq<T>): (r: seq<T>)
    ensures |s| == 0 ==> r == []
    ensures |s| > 0 ==> r == [s[0]]
  {
    if |s| == 0 then [] else s[..1]
  }

  /** The pruning expression `steps[0:1] + steps[-(max_steps-1):]`, applied
      only when the memory is longer than `maxSteps`. */
  function PruneSteps<T>(steps: seq<T>, maxSteps: int): (r: seq<T>)
    ensures |steps| <= maxSteps ==> r == steps
    ensures |steps| == 0 ==> r == []
    ensures |steps| > 0 ==> |r| > 0 && r[0] == steps[0]
    ensures 2 <= maxSteps < |steps| ==>
      |r| == maxSteps && r[1..] == steps[|steps| - (maxSteps - 1)..]
    ensures maxSteps == 1 < |steps| ==> r == [steps[0]] + steps
  {
    if |steps| > maxSteps then Head(steps) + SliceFrom(steps, -(maxSteps - 1))
    else steps
  }

  /** The callback: `memory` is the step's agent memory, absent when the step
      carries no agent or the agent has no memory; an absent memory is left
      alone and a present one is pruned. */
  function MemoryCallback<T>(memory: Option<seq<T>>, maxSteps: int): (r: Option<seq<T>>)
    ensures r.None? <==> memory.None?
    ensures memory.Some? ==> r == Some(PruneSteps(memory.value, maxSteps))
    ensures memory.Some? && |memory.value| <= maxSteps ==> r == memory
    ensures memory.Some? && 2 <= maxSteps ==> |r.value| <= maxSteps
  {
    match memory
    case None => None
    case Some(steps) => Some(PruneSteps(steps, maxSteps))
  }

  /** Pointwise reading of a prune with `maxSteps >= 2`: position 0 is the old
      anchor, position `i > 0` is old position `|steps| - maxSteps + i`. */
  lemma PruneKeepsAnchorAndRecent<T>(steps: seq<T>, maxSteps: int, i: int)
    requires 2 <= maxSteps < |steps|
    requires 0 <= i < maxSteps
    ensures PruneSteps(steps, maxSteps)[i] ==
      (if i == 0 then steps[0] else steps[|steps| - maxSteps + i])
  {
  }

  /** With `maxSteps >= 2` a prune never leaves more than `maxSteps` steps and
      never adds any. */
  lemma PruneBounded<T>(steps: seq<T>, maxSteps: int)
    requires 2 <= maxSteps
    ensures |PruneSteps(steps, maxSteps)| <= maxSteps
    ensures |PruneSteps(steps, maxSteps)| <= |steps|
  {
  }

  /** With `maxSteps >= 2` pruning is idempotent: a second callback on the
      already pruned memory changes nothing. */
  lemma PruneIdempotent<T>(steps: seq<T>, maxSteps: int)
    requires 2 <= maxSteps
    ensures PruneSteps(PruneSteps(steps, maxSteps), maxSteps) == PruneSteps(steps, maxSteps)
  {
  }

  /** With `maxSteps == 1` the slice `steps[-0:]` is the whole list, so every
      "prune" of a memory longer than one step makes it one step longer. */
  lemma PruneWithMaxOneGrows<T>(steps: seq<T>)
    requires |steps| > 1
    ensures |PruneSteps(steps, 1)| == |steps| + 1
    ensures |PruneSteps(PruneSteps(steps, 1), 1)| == |steps| + 2
  {
  }
}
