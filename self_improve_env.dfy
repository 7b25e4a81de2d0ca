/** The rules of the episodic environment of app/self_improve_env.py that do not depend on its
    state: the reward of a step and the observations. The environment object itself, which
    holds the agent it drives, is the class `Agent.SelfImproveEnv`. */
module EnvRules {
  import opened Wrappers
  import opened Snapshot
  import opened Patching
  import opened Memory
  import opened SelfImprove

  /** An observation: last reward, number of pending feature requests, and the step count (or,
      after `reset`, the progress fraction). */
  datatype Observation = Observation(lastReward: real, pending: real, progress: real)

  /** What a step produced: the cycle's value, `False` when the cycle raised, `True` during
      warm-up when no cycle runs. */
  function StepResult(warmup: bool, cycle: Option<CycleValue>): (result: CycleValue)
    ensures warmup ==> result == Flag(true)
    ensures !warmup && cycle.None? ==> result == Flag(false)
    ensures !warmup && cycle.Some? ==> result == cycle.value
  {
    if warmup then Flag(true) else cycle.GetOr(Flag(false))
  }

  /** The reward of a step: during warm-up 1 on the step that ends the episode and 0 before it;
      after warm-up a small penalty on every step that does not end the episode, and on the last
      step +1 for `True` or 'success', +0.5 for 'partial' and -1 for anything else. */
  function Reward(warmup: bool, terminated: bool, result: CycleValue): (reward: real)
    ensures reward in {1.0, 0.5, 0.0, -0.01, -1.0}
    ensures warmup ==> reward == if terminated then 1.0 else 0.0
    ensures !warmup && !terminated ==> reward == -0.01
    ensures !warmup && terminated ==> (reward == 1.0 <==> result == Flag(true) || result == Label("success"))
    ensures !warmup && terminated ==> (reward == 0.5 <==> result == Label("partial"))
    ensures !warmup && terminated ==> (reward == -1.0 <==> result != Flag(true) && result != Label("success") && result != Label("partial"))
  {
    if warmup then (if terminated then 1.0 else 0.0)
    else if terminated then
      if result == Flag(true) || result == Label("success") then 1.0
      else if result == Label("partial") then 0.5
      else -1.0
    else -0.01
  }

  /** The live engine reports 'Success' and 'Partial' capitalised, so after warm-up the step
      that ends an episode always earns -1, whatever the cycle did, and every other step -0.01. */
  lemma LiveTerminalPenalty(tree: Tree, order: seq<string>, features: seq<Feature>,
                            ask: Llm, shell: Shell, hooks: Hooks, terminated: bool)
    ensures Reward(false, terminated, StepResult(false, Cycle(tree, order, features, ask, shell, hooks).0))
      == if terminated then -1.0 else -0.01
  {
    match ask(Prompt(tree, order, features)) {
      case None =>
      case Some(raw) => OutcomeRange(Normalise(raw), tree, shell, hooks);
    }
  }
}
