/**
 * One episode of `reset` followed by `step` until `terminated or truncated`, under a
 * policy that depends only on the current observation. Both evaluation loops
 * (`evaluate` during training and `evaluate_model` afterwards) run such episodes
 * with the greedy policy of a fixed network.
 */
module Episodes {
  import opened Numeric
  import opened Gym

  /** One step of an episode: the action taken and what the environment answered. */
  datatype Move = Move(action: nat, result: StepResult<Obs>)

  function ActionsOf(ms: seq<Move>): (as_: seq<nat>)
    ensures |as_| == |ms|
    ensures forall i | 0 <= i < |ms| :: as_[i] == ms[i].action
  {
    seq(|ms|, i requires 0 <= i < |ms| => ms[i].action)
  }

  /** The first `k` actions of a sequence of moves that starts with `m`. */
  lemma ActionsPrefixCons(m: Move, rest: seq<Move>, k: nat)
    requires 0 < k <= |rest| + 1
    ensures ActionsOf([m] + rest)[..k] == [m.action] + ActionsOf(rest)[..k - 1]
  {
    var ms := [m] + rest;
    assert forall i | 0 < i < k :: ms[i] == rest[i - 1];
  }

  function Rewards(ms: seq<Move>): (rs: seq<real>)
    ensures |rs| == |ms|
    ensures forall i | 0 <= i < |ms| :: rs[i] == ms[i].result.reward
  {
    seq(|ms|, i requires 0 <= i < |ms| => ms[i].result.reward)
  }

  /** `episode_reward`: the sum of the step rewards. */
  function Return(ms: seq<Move>): real
  {
    Sum(Rewards(ms))
  }

  lemma ReturnAppend(ms: seq<Move>, m: Move)
    ensures Return(ms + [m]) == Return(ms) + m.result.reward
  {
    assert Rewards(ms + [m]) == Rewards(ms) + [m.result.reward];
    SumAppend(Rewards(ms), m.result.reward);
  }

  /**
   * The rest of episode `e` once the actions `taken` have been played and `obs`
   * observed: the policy picks an action, the environment steps, and the episode
   * goes on until a step reports `terminated` or `truncated`.
   */
  function Rollout(env: Env, e: nat, policy: Obs -> nat, obs: Obs, taken: seq<nat>): (ms: seq<Move>)
    ensures |ms| > 0
    ensures ms[0].action == policy(obs) && ms[0].result == Step(env, e, taken + [policy(obs)])
    ensures ms[|ms| - 1].result.Done()
    ensures forall i | 0 <= i < |ms| - 1 :: !ms[i].result.Done()
    ensures |taken| < env.maxSteps ==> |taken| + |ms| <= env.maxSteps
    decreases env.maxSteps - |taken|
  {
    var a := policy(obs);
    var r := Step(env, e, taken + [a]);
    if r.Done() then [Move(a, r)]
    else [Move(a, r)] + Rollout(env, e, policy, r.obs, taken + [a])
  }

  /** The whole of episode `e`, from `env.reset()`. */
  function Episode(env: Env, e: nat, policy: Obs -> nat): seq<Move>
  {
    Rollout(env, e, policy, env.reset(e), [])
  }

  /** No episode takes more than `max_steps` steps (or one, when `max_steps` is zero). */
  lemma EpisodeLength(env: Env, e: nat, policy: Obs -> nat)
    ensures 1 <= |Episode(env, e, policy)| <= MaxInt(env.maxSteps, 1)
  {
  }

  /** Every step of `ms` is the environment's answer to the actions played up to it. */
  ghost predicate Answered(env: Env, e: nat, taken: seq<nat>, ms: seq<Move>)
  {
    forall i | 0 <= i < |ms| :: ms[i].result == Step(env, e, taken + ActionsOf(ms)[..i + 1])
  }

  /** Every action after the first is the policy's choice on the observation before it. */
  ghost predicate Chosen(policy: Obs -> nat, ms: seq<Move>)
  {
    forall i | 0 < i < |ms| :: ms[i].action == policy(ms[i - 1].result.obs)
  }

  ghost predicate Consistent(env: Env, e: nat, policy: Obs -> nat, taken: seq<nat>, ms: seq<Move>)
  {
    Answered(env, e, taken, ms) && Chosen(policy, ms)
  }

  /** An episode played from `reset`, as far as it has gone, stays answered after one more step. */
  lemma AnsweredAppend(env: Env, e: nat, ms: seq<Move>, m: Move)
    requires Answered(env, e, [], ms)
    requires m.result == Step(env, e, ActionsOf(ms) + [m.action])
    ensures Answered(env, e, [], ms + [m])
  {
    var ms' := ms + [m];
    assert ActionsOf(ms') == ActionsOf(ms) + [m.action];
    forall i | 0 <= i < |ms'| ensures ms'[i].result == Step(env, e, [] + ActionsOf(ms')[..i + 1]) {
      if i < |ms| {
        assert ActionsOf(ms')[..i + 1] == ActionsOf(ms)[..i + 1];
        assert [] + ActionsOf(ms)[..i + 1] == ActionsOf(ms)[..i + 1];
        assert ms'[i] == ms[i];
        assert ms[i].result == Step(env, e, [] + ActionsOf(ms)[..i + 1]);
      } else {
        assert ActionsOf(ms')[..i + 1] == ActionsOf(ms) + [m.action];
        assert [] + (ActionsOf(ms) + [m.action]) == ActionsOf(ms) + [m.action];
      }
    }
  }

  /** An episode played from `reset` with one more move is answered exactly when its start is and the move answers its actions. */
  lemma AnsweredSplit(env: Env, e: nat, ms: seq<Move>, m: Move)
    ensures Answered(env, e, [], ms + [m]) <==>
      Answered(env, e, [], ms) && m.result == Step(env, e, ActionsOf(ms) + [m.action])
  {
    var ms' := ms + [m];
    assert ActionsOf(ms') == ActionsOf(ms) + [m.action];
    if Answered(env, e, [], ms') {
      forall i | 0 <= i < |ms| ensures ms[i].result == Step(env, e, [] + ActionsOf(ms)[..i + 1]) {
        assert ms[i] == ms'[i];
        assert ActionsOf(ms)[..i + 1] == ActionsOf(ms')[..i + 1];
      }
      assert ms'[|ms|] == m;
      assert [] + ActionsOf(ms')[..|ms| + 1] == ActionsOf(ms) + [m.action];
    }
    if Answered(env, e, [], ms) && m.result == Step(env, e, ActionsOf(ms) + [m.action]) {
      AnsweredAppend(env, e, ms, m);
    }
  }

  /** Putting a step in front of an answered continuation, itself the answer to the actions before it. */
  lemma AnsweredCons(env: Env, e: nat, taken: seq<nat>, a: nat, r: StepResult<Obs>, rest: seq<Move>)
    requires r == Step(env, e, taken + [a]) && Answered(env, e, taken + [a], rest)
    ensures Answered(env, e, taken, [Move(a, r)] + rest)
  {
    var ms := [Move(a, r)] + rest;
    forall i | 0 <= i < |ms| ensures ms[i].result == Step(env, e, taken + ActionsOf(ms)[..i + 1]) {
      if i > 0 {
        var prefix := ActionsOf(rest)[..i];
        assert ms[i] == rest[i - 1];
        assert ActionsOf(ms)[..i + 1] == [a] + prefix;
        Associative(taken, [a], prefix);
      } else {
        assert ActionsOf(ms)[..1] == [a];
      }
    }
  }

  /** Putting a step in front of a chosen continuation whose first action the policy picked on its observation. */
  lemma ChosenCons(policy: Obs -> nat, m: Move, rest: seq<Move>)
    requires Chosen(policy, rest) && (rest != [] ==> rest[0].action == policy(m.result.obs))
    ensures Chosen(policy, [m] + rest)
  {
    var ms := [m] + rest;
    forall i | 0 < i < |ms| ensures ms[i].action == policy(ms[i - 1].result.obs) {
      if i > 1 {
        assert ms[i] == rest[i - 1] && ms[i - 1] == rest[i - 2];
      }
    }
  }

  /** A rollout is consistent with the environment and the policy that produced it. */
  lemma {:induction false} RolloutConsistent(env: Env, e: nat, policy: Obs -> nat, obs: Obs, taken: seq<nat>)
    ensures Consistent(env, e, policy, taken, Rollout(env, e, policy, obs, taken))
    decreases env.maxSteps - |taken|
  {
    var a := policy(obs);
    var r := Step(env, e, taken + [a]);
    if !r.Done() {
      var rest := Rollout(env, e, policy, r.obs, taken + [a]);
      RolloutConsistent(env, e, policy, r.obs, taken + [a]);
      AnsweredCons(env, e, taken, a, r, rest);
      ChosenCons(policy, Move(a, r), rest);
      assert Rollout(env, e, policy, obs, taken) == [Move(a, r)] + rest;
    } else {
      AnsweredCons(env, e, taken, a, r, []);
      ChosenCons(policy, Move(a, r), []);
      assert Rollout(env, e, policy, obs, taken) == [Move(a, r)] + [];
    }
  }

  lemma Associative<T>(x: seq<T>, y: seq<T>, z: seq<T>)
    ensures x + (y + z) == (x + y) + z
  {
  }

  /** Peeling the first step off a rollout that goes on. */
  lemma RolloutUnfold(env: Env, e: nat, policy: Obs -> nat, obs: Obs, taken: seq<nat>)
    ensures var a := policy(obs);
      var r := Step(env, e, taken + [a]);
      Rollout(env, e, policy, obs, taken)
        == if r.Done() then [Move(a, r)] else [Move(a, r)] + Rollout(env, e, policy, r.obs, taken + [a])
  {
  }

  /** Playing the policy's action on the current observation moves the episode on by one step. */
  lemma MovesStep(env: Env, e: nat, policy: Obs -> nat, obs: Obs, taken: seq<nat>, played: seq<Move>,
                  a: nat, r: StepResult<Obs>)
    requires Episode(env, e, policy) == played + Rollout(env, e, policy, obs, taken)
    requires a == policy(obs) && r == Step(env, e, taken + [a])
    ensures !r.Done() ==> Episode(env, e, policy) == (played + [Move(a, r)]) + Rollout(env, e, policy, r.obs, taken + [a])
    ensures r.Done() ==> Episode(env, e, policy) == played + [Move(a, r)]
  {
    RolloutUnfold(env, e, policy, obs, taken);
    if !r.Done() {
      Associative(played, [Move(a, r)], Rollout(env, e, policy, r.obs, taken + [a]));
    }
  }

  /** `terminated and episode_reward > 0`: truncation alone, or a non-positive return, is failure. */
  predicate Succeeded(ms: seq<Move>)
    requires |ms| > 0
  {
    ms[|ms| - 1].result.terminated && Return(ms) > 0.0
  }

  /** The returns of episodes `0 .. n - 1`. */
  function EpisodeReturns(env: Env, policy: Obs -> nat, n: nat): (rs: seq<real>)
    ensures |rs| == n
  {
    if n == 0 then [] else EpisodeReturns(env, policy, n - 1) + [Return(Episode(env, n - 1, policy))]
  }

  /** Entry `k` of `EpisodeReturns` is the return of episode `k`. */
  lemma {:induction false} EpisodeReturnsAt(env: Env, policy: Obs -> nat, n: nat, k: nat)
    requires k < n
    ensures EpisodeReturns(env, policy, n)[k] == Return(Episode(env, k, policy))
  {
    if k < n - 1 {
      EpisodeReturnsAt(env, policy, n - 1, k);
    }
  }

  /** Which of the episodes `0 .. n - 1` succeed. */
  function EpisodeSuccesses(env: Env, policy: Obs -> nat, n: nat): (ss: seq<bool>)
    ensures |ss| == n
  {
    if n == 0 then [] else EpisodeSuccesses(env, policy, n - 1) + [Succeeded(Episode(env, n - 1, policy))]
  }

  /** Entry `k` of `EpisodeSuccesses` says whether episode `k` succeeds. */
  lemma {:induction false} EpisodeSuccessesAt(env: Env, policy: Obs -> nat, n: nat, k: nat)
    requires k < n
    ensures EpisodeSuccesses(env, policy, n)[k] == Succeeded(Episode(env, k, policy))
  {
    if k < n - 1 {
      EpisodeSuccessesAt(env, policy, n - 1, k);
    }
  }
}
