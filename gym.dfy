/**
 * The environment interface the training and evaluation loops drive: gymnasium's
 * `reset`/`step` on a MiniGrid task, seen from outside. The environment itself is
 * foreign code, so it enters the model as an oracle over the history of an episode.
 */
module Gym {

  /** A preprocessed observation: channels, then rows, then columns. */
  type Obs = seq<seq<seq<real>>>

  /** An RGB picture of the grid, as `env.unwrapped.get_frame()` renders it. */
  type Frame = seq<seq<seq<int>>>

  /** The `info` dictionary of a step, restricted to its numeric entries. */
  type Info = map<string, real>

  /** What `env.step(action)` returns. */
  datatype StepResult<O> = StepResult(obs: O, reward: real, terminated: bool, truncated: bool, info: Info)
  {
    /** `done = terminated or truncated`. */
    predicate Done()
    {
      terminated || truncated
    }
  }

  /**
   * A sequence of episodes of one environment object. `reset(e)` is the first
   * observation of episode `e`; `dynamics(e, as)` answers the last action of `as`,
   * the actions taken so far in episode `e`; `frame(e, as)` is the picture shown
   * after the actions `as`. `maxSteps` is MiniGrid's `max_steps`.
   */
  datatype Env = Env(
    maxSteps: nat,
    reset: nat -> Obs,
    dynamics: (nat, seq<nat>) -> StepResult<Obs>,
    frame: (nat, seq<nat>) -> Frame)

  /**
   * One `env.step`: MiniGrid counts steps and reports `truncated` once the count
   * reaches `max_steps`, so no episode outlasts the limit.
   */
  function Step(env: Env, episode: nat, actions: seq<nat>): (r: StepResult<Obs>)
    requires |actions| > 0
    ensures |actions| >= env.maxSteps ==> r.truncated && r.Done()
    ensures |actions| < env.maxSteps ==> r == env.dynamics(episode, actions)
    ensures r.obs == env.dynamics(episode, actions).obs && r.reward == env.dynamics(episode, actions).reward
    ensures r.terminated == env.dynamics(episode, actions).terminated && r.info == env.dynamics(episode, actions).info
  {
    var r := env.dynamics(episode, actions);
    if |actions| >= env.maxSteps then r.(truncated := true) else r
  }
}
