/**
 * The training script: `evaluate` (greedy episodes on an unshaped environment) and
 * the loop of `train` (episodes of epsilon-greedy play, every transition stored,
 * an update on every fourth global step, periodic evaluation and checkpoints, a
 * final save and a final 100-episode evaluation).
 */
module Train {
  import opened Wrappers
  import opened Numeric
  import opened Gym
  import opened DqnAgent
  import opened Episodes
  import PyStr

  /** `select_action(obs, evaluate=True)` for fixed weights: the first best action. */
  function GreedyPolicy(net: QNet, params: Params): Obs -> nat
  {
    o => GreedyAction(net(params, o))
  }

  /** `successes / num_episodes` of at most that many successes lies in `[0, 1]`. */
  lemma FractionBounds(count: nat, n: nat)
    requires 0 < n && count <= n
    ensures 0.0 <= count as real / n as real <= 1.0
  {
    assert count as real <= n as real;
  }

  /**
   * The `while not done` loop of `evaluate`: one greedy episode `ep` of `env`, its
   * return and whether its last step reported `terminated`.
   */
  method GreedyEpisode(agent: Agent, env: Env, ep: nat) returns (episodeReward: real, terminated: bool)
    requires agent.Valid()
    ensures var ms := Episode(env, ep, GreedyPolicy(agent.net, agent.qParams));
      episodeReward == Return(ms) && terminated == ms[|ms| - 1].result.terminated
    ensures terminated && episodeReward > 0.0 <==> Succeeded(Episode(env, ep, GreedyPolicy(agent.net, agent.qParams)))
  {
    ghost var policy := GreedyPolicy(agent.net, agent.qParams);
    var obs := env.reset(ep);
    episodeReward := 0.0;
    var done := false;
    terminated := false;
    var taken: seq<nat> := [];
    ghost var played: seq<Move> := [];
    while !done
      invariant !done ==> Episode(env, ep, policy) == played + Rollout(env, ep, policy, obs, taken)
      invariant done ==> Episode(env, ep, policy) == played && terminated == played[|played| - 1].result.terminated
      invariant episodeReward == Return(played)
      decreases if done then 0 else |Rollout(env, ep, policy, obs, taken)|
    {
      var action := agent.SelectAction(obs, true, 0.0, 0);
      var r := Step(env, ep, taken + [action]);
      MovesStep(env, ep, policy, obs, taken, played, action, r);
      ReturnAppend(played, Move(action, r));
      played := played + [Move(action, r)];
      taken := taken + [action];
      obs := r.obs;
      episodeReward := episodeReward + r.reward;
      done := r.terminated || r.truncated;
      terminated := r.terminated;
    }
  }

  /** One more greedy episode extends the returns, the success flags and the count of successes. */
  lemma EvaluatedStep(env: Env, policy: Obs -> nat, ep: nat, totalRewards: seq<real>, flags: seq<bool>, successes: nat,
                      episodeReward: real, success: bool)
    requires totalRewards == EpisodeReturns(env, policy, ep) && flags == EpisodeSuccesses(env, policy, ep)
    requires successes == CountTrue(flags)
    requires episodeReward == Return(Episode(env, ep, policy)) && success == Succeeded(Episode(env, ep, policy))
    ensures totalRewards + [episodeReward] == EpisodeReturns(env, policy, ep + 1)
    ensures flags + [success] == EpisodeSuccesses(env, policy, ep + 1)
    ensures successes + (if success then 1 else 0) == CountTrue(flags + [success])
  {
    CountTrueAppend(flags, success);
  }

  /** The `for ep in range(num_episodes)` loop of `evaluate`: the successes counted and the returns collected. */
  method GreedyEpisodes(agent: Agent, env: Env, numEpisodes: nat) returns (successes: nat, totalRewards: seq<real>)
    requires agent.Valid()
    ensures totalRewards == EpisodeReturns(env, GreedyPolicy(agent.net, agent.qParams), numEpisodes)
    ensures successes == CountTrue(EpisodeSuccesses(env, GreedyPolicy(agent.net, agent.qParams), numEpisodes))
  {
    ghost var policy := GreedyPolicy(agent.net, agent.qParams);
    successes := 0;
    totalRewards := [];
    ghost var flags: seq<bool> := [];
    for ep := 0 to numEpisodes
      invariant totalRewards == EpisodeReturns(env, policy, ep)
      invariant flags == EpisodeSuccesses(env, policy, ep)
      invariant successes == CountTrue(flags)
    {
      var episodeReward, terminated := GreedyEpisode(agent, env, ep);
      var success := terminated && episodeReward > 0.0;
      EvaluatedStep(env, policy, ep, totalRewards, flags, successes, episodeReward, success);
      totalRewards := totalRewards + [episodeReward];
      flags := flags + [success];
      successes := successes + if success then 1 else 0;
    }
  }

  /**
   * `evaluate(agent, config, num_episodes)` on the fresh unshaped environment
   * `env`: the greedy episodes `0 .. num_episodes - 1`, the fraction that succeed,
   * and the mean return.
   */
  method Evaluate(agent: Agent, env: Env, numEpisodes: nat) returns (successRate: real, avgReward: real)
    requires agent.Valid() && numEpisodes > 0
    ensures successRate == CountTrue(EpisodeSuccesses(env, GreedyPolicy(agent.net, agent.qParams), numEpisodes)) as real / numEpisodes as real
    ensures avgReward == Mean(EpisodeReturns(env, GreedyPolicy(agent.net, agent.qParams), numEpisodes))
    ensures 0.0 <= successRate <= 1.0
  {
    var successes, totalRewards := GreedyEpisodes(agent, env, numEpisodes);
    FractionBounds(successes, numEpisodes);
    successRate := successes as real / numEpisodes as real;
    avgReward := Mean(totalRewards);
  }

  // ---------------------------------------------------------------------------
  // Schedules.

  /** The multiples of `f` in `[lo, hi)`, in increasing order. */
  function MultiplesIn(lo: nat, hi: nat, f: nat): seq<nat>
    requires f > 0
    decreases hi
  {
    if hi <= lo then [] else MultiplesIn(lo, hi - 1, f) + (if (hi - 1) % f == 0 then [hi - 1] else [])
  }

  /** `MultiplesIn` holds exactly the multiples of `f` in `[lo, hi)`, strictly increasing. */
  lemma {:induction false} MultiplesInExactly(lo: nat, hi: nat, f: nat)
    requires f > 0
    ensures forall x :: x in MultiplesIn(lo, hi, f) <==> lo <= x < hi && x % f == 0
    ensures forall i, j | 0 <= i < j < |MultiplesIn(lo, hi, f)| :: MultiplesIn(lo, hi, f)[i] < MultiplesIn(lo, hi, f)[j]
    decreases hi
  {
    if hi > lo {
      MultiplesInExactly(lo, hi - 1, f);
      var init, ms := MultiplesIn(lo, hi - 1, f), MultiplesIn(lo, hi, f);
      var tail := if (hi - 1) % f == 0 then [hi - 1] else [];
      assert ms == init + tail;
      forall x ensures x in ms <==> lo <= x < hi && x % f == 0 {
        assert x in ms <==> x in init || x in tail;
      }
      forall i, j | 0 <= i < j < |ms| ensures ms[i] < ms[j] {
        if j >= |init| {
          assert ms[j] == hi - 1 && ms[i] == init[i];
          assert init[i] in init;
        } else {
          assert ms[i] == init[i] && ms[j] == init[j];
        }
      }
    }
  }

  /** A positive multiple of `f` is at least `f`. */
  lemma MultipleAtLeast(x: nat, f: nat)
    requires f > 0 && x > 0 && x % f == 0
    ensures x >= f
  {
    assert x == (x / f) * f;
    assert x / f >= 1;
  }

  // ---------------------------------------------------------------------------
  // One training episode.

  /**
   * The random draws behind training, by global step: `np.random.random()` and
   * `np.random.randint(n_actions)` in `select_action`, and the sampler's indices in
   * `update`.
   */
  datatype Randomness = Randomness(draw: nat -> real, randomAction: nat -> nat, pick: nat -> nat -> nat)

  /** `float(done)`. */
  function DoneFlag(r: StepResult<Obs>): (d: real)
    ensures d == 1.0 <==> r.Done()
    ensures d == 0.0 <==> !r.Done()
  {
    if r.Done() then 1.0 else 0.0
  }

  /** `info.get("original_reward", reward)`. */
  function OriginalReward(r: StepResult<Obs>): real
  {
    if "original_reward" in r.info then r.info["original_reward"] else r.reward
  }

  function OriginalRewards(ms: seq<Move>): (rs: seq<real>)
    ensures |rs| == |ms|
    ensures forall i | 0 <= i < |ms| :: rs[i] == OriginalReward(ms[i].result)
  {
    seq(|ms|, i requires 0 <= i < |ms| => OriginalReward(ms[i].result))
  }

  /** The observation in front of the agent after the moves `ms` of an episode that began at `start`. */
  function Current(start: Obs, ms: seq<Move>): Obs
  {
    if ms == [] then start else ms[|ms| - 1].result.obs
  }

  /** The transitions `store_transition` receives over the moves `ms`. */
  function Transitions(start: Obs, ms: seq<Move>): (ts: seq<Transition>)
    ensures |ts| == |ms|
  {
    seq(|ms|, i requires 0 <= i < |ms| =>
      Transition(Current(start, ms[..i]), ms[i].action, ms[i].result.reward, ms[i].result.obs, DoneFlag(ms[i].result)))
  }

  /**
   * The `i`-th stored transition is the observation before move `i`, its action,
   * its reward, the observation after it and `float(done)`.
   */
  lemma TransitionsAt(start: Obs, ms: seq<Move>, i: nat)
    requires i < |ms|
    ensures Transitions(start, ms)[i].state == (if i == 0 then start else ms[i - 1].result.obs)
    ensures Transitions(start, ms)[i].action == ms[i].action && Transitions(start, ms)[i].reward == ms[i].result.reward
    ensures Transitions(start, ms)[i].nextState == ms[i].result.obs && Transitions(start, ms)[i].done == DoneFlag(ms[i].result)
  {
    if i > 0 {
      assert ms[..i][i - 1] == ms[i - 1];
    }
  }

  lemma TransitionsAppend(start: Obs, ms: seq<Move>, m: Move)
    ensures Transitions(start, ms + [m])
      == Transitions(start, ms) + [Transition(Current(start, ms), m.action, m.result.reward, m.result.obs, DoneFlag(m.result))]
  {
    var ms' := ms + [m];
    forall i | 0 <= i < |ms| ensures ms'[..i] == ms[..i] {
    }
    assert ms'[..|ms|] == ms;
  }

  /**
   * The moves of an episode so far, one step at a time: every step answers the
   * actions up to it, no step before the last reports `done`, and every action is
   * a valid one.
   */
  ghost predicate Progress(env: Env, e: nat, nActions: nat, trace: seq<Move>)
    decreases |trace|
  {
    trace != [] ==>
      && Progress(env, e, nActions, trace[..|trace| - 1])
      && (|trace| > 1 ==> !trace[|trace| - 2].result.Done())
      && trace[|trace| - 1].action < nActions
      && trace[|trace| - 1].result == Step(env, e, ActionsOf(trace))
  }

  /** No move before the last reports `done`. */
  ghost predicate GoesOn(trace: seq<Move>)
  {
    forall i | 0 <= i < |trace| - 1 :: !trace[i].result.Done()
  }

  lemma GoesOnAppend(init: seq<Move>, m: Move)
    ensures GoesOn(init + [m]) <==> GoesOn(init) && (init != [] ==> !init[|init| - 1].result.Done())
  {
    var trace := init + [m];
    if GoesOn(trace) {
      forall i | 0 <= i < |init| - 1 ensures !init[i].result.Done() {
        assert init[i] == trace[i];
      }
      if init != [] {
        assert init[|init| - 1] == trace[|init| - 1];
      }
    }
    if GoesOn(init) && (init != [] ==> !init[|init| - 1].result.Done()) {
      forall i | 0 <= i < |trace| - 1 ensures !trace[i].result.Done() {
        assert trace[i] == init[i];
      }
    }
  }

  /** Every action is one of the `nActions` valid ones. */
  ghost predicate ValidActions(nActions: nat, trace: seq<Move>)
  {
    forall i | 0 <= i < |trace| :: trace[i].action < nActions
  }

  lemma ValidActionsAppend(nActions: nat, init: seq<Move>, m: Move)
    ensures ValidActions(nActions, init + [m]) <==> ValidActions(nActions, init) && m.action < nActions
  {
    var trace := init + [m];
    if ValidActions(nActions, trace) {
      forall i | 0 <= i < |init| ensures init[i].action < nActions {
        assert init[i] == trace[i];
      }
      assert trace[|init|] == m;
    }
  }

  /**
   * The same facts about an episode stated move by move: every step answers the
   * actions up to it, no step before the last reports `done`, every action is valid.
   */
  ghost predicate Stepwise(env: Env, e: nat, nActions: nat, trace: seq<Move>)
  {
    Answered(env, e, [], trace) && GoesOn(trace) && ValidActions(nActions, trace)
  }

  /** `Progress` says of the whole episode what each of its steps says of one move. */
  lemma {:induction false} ProgressStepwise(env: Env, e: nat, nActions: nat, trace: seq<Move>)
    ensures Progress(env, e, nActions, trace) <==> Stepwise(env, e, nActions, trace)
    decreases |trace|
  {
    if trace != [] {
      var n := |trace| - 1;
      var init, m := trace[..n], trace[n];
      assert trace == init + [m];
      ProgressStepwise(env, e, nActions, init);
      assert ActionsOf(trace) == ActionsOf(init) + [m.action];
      AnsweredSplit(env, e, init, m);
      GoesOnAppend(init, m);
      ValidActionsAppend(nActions, init, m);
    }
  }

  /** What `Progress` says, spelled out with quantifiers. */
  lemma ProgressMeans(env: Env, e: nat, nActions: nat, trace: seq<Move>)
    ensures Progress(env, e, nActions, trace) <==>
      && Answered(env, e, [], trace)
      && (forall i | 0 <= i < |trace| - 1 :: !trace[i].result.Done())
      && (forall i | 0 <= i < |trace| :: trace[i].action < nActions)
  {
    ProgressStepwise(env, e, nActions, trace);
  }

  /** An episode played to its end: the last step, and only the last, reports `done`. */
  ghost predicate PlayedEpisode(env: Env, e: nat, nActions: nat, trace: seq<Move>)
  {
    |trace| > 0 && Progress(env, e, nActions, trace) && trace[|trace| - 1].result.Done()
  }

  lemma ProgressAppend(env: Env, e: nat, nActions: nat, trace: seq<Move>, m: Move)
    requires Progress(env, e, nActions, trace)
    requires trace != [] ==> !trace[|trace| - 1].result.Done()
    requires m.result == Step(env, e, ActionsOf(trace) + [m.action]) && m.action < nActions
    ensures Progress(env, e, nActions, trace + [m])
  {
    var trace' := trace + [m];
    assert trace'[..|trace|] == trace;
    assert ActionsOf(trace') == ActionsOf(trace) + [m.action];
  }

  predicate NonNegative(xs: seq<real>)
  {
    forall k | 0 <= k < |xs| :: xs[k] >= 0.0
  }

  /** What stays fixed while the agent trains: its constants and the random draws. */
  datatype Rules = Rules(nActions: nat, config: AgentConfig, net: QNet, decay: real, rng: Randomness)

  function RulesOf(agent: Agent, rng: Randomness): Rules
  {
    Rules(agent.nActions, agent.config, agent.net, agent.epsilonDecay, rng)
  }

  /** What `DQNAgent.__init__` leaves true of the constants `Moved` and `TrainingAction` divide by. */
  predicate SoundRules(R: Rules)
  {
    R.nActions > 0 && (R.config.useTargetNetwork ==> R.config.targetUpdateFreq > 0)
  }

  /**
   * `select_action(obs)` during training at global step `t`, for an agent in
   * state `c`: the random action when the draw falls below ε, otherwise the first
   * best action of the live network.
   */
  function TrainingAction(R: Rules, t: nat, c: Checkpoint, obs: Obs): nat
    requires R.nActions > 0
  {
    if R.rng.draw(t) < c.epsilon then R.rng.randomAction(t) % R.nActions else GreedyAction(R.net(c.qNetwork, obs))
  }

  /** `len(buffer)` once `pushed` transitions were pushed into a buffer of `capacity`. */
  function BufferLength(pushed: nat, capacity: nat): nat
  {
    if pushed <= capacity then pushed else capacity
  }

  /**
   * How the move at global step `t` takes the agent from `c` to `c'` when the
   * buffer holds `held` transitions once the move is stored: if `t % 4 == 0` and
   * `held` reaches `batch_size`, `update` runs (a non-negative loss, one more
   * update on the counter, one step of ε, the target network copied on schedule);
   * otherwise no loss is reported and nothing changes.
   */
  predicate Moved(R: Rules, t: nat, held: nat, c: Checkpoint, c': Checkpoint, loss: Option<real>)
    requires SoundRules(R)
  {
    if t % 4 == 0 && held >= R.config.batchSize then
      && loss.Some? && loss.value >= 0.0
      && c'.totalSteps == c.totalSteps + 1
      && c'.epsilon == EpsilonStep(c.epsilon, R.config.epsilonEnd, R.decay)
      && c'.targetNetwork == (if R.config.useTargetNetwork && c'.totalSteps % R.config.targetUpdateFreq == 0
                              then c'.qNetwork else c.targetNetwork)
    else
      loss.None? && c' == c
  }

  /** A move that reports no loss leaves the agent as it was; one that reports a loss was an update step. */
  lemma MovedMeans(R: Rules, t: nat, held: nat, c: Checkpoint, c': Checkpoint, loss: Option<real>)
    requires SoundRules(R) && Moved(R, t, held, c, c', loss)
    ensures loss.None? <==> t % 4 != 0 || held < R.config.batchSize
    ensures loss.None? ==> c' == c
    ensures loss.Some? ==> loss.value >= 0.0 && c'.totalSteps == c.totalSteps + 1
    ensures loss.Some? ==> c'.epsilon == R.config.epsilonEnd || c'.epsilon == c.epsilon - R.decay
  {
  }

  /**
   * The body of `while not done` in `train`, at global step `steps`: the
   * epsilon-greedy action of the agent as it stands, the environment's answer, the
   * transition stored with `float(done)`, and `update` when `steps % 4 == 0`.
   */
  method TrainStep(agent: Agent, env: Env, e: nat, rng: Randomness, obs: Obs, taken: seq<nat>, steps: nat)
    returns (action: nat, r: StepResult<Obs>, loss: Option<real>)
    requires agent.Valid()
    modifies agent, agent.buffer
    ensures agent.Valid()
    ensures old(agent.OnSchedule()) ==> agent.OnSchedule()
    ensures action < agent.nActions && action == TrainingAction(RulesOf(agent, rng), steps, old(agent.Snapshot()), obs)
    ensures r == Step(env, e, taken + [action])
    ensures agent.buffer.pushed == old(agent.buffer.pushed) + [Transition(obs, action, r.reward, r.obs, DoneFlag(r))]
    ensures Moved(RulesOf(agent, rng), steps, BufferLength(|agent.buffer.pushed|, agent.config.bufferSize),
                  old(agent.Snapshot()), agent.Snapshot(), loss)
    ensures loss.Some? ==>
      && |agent.buffer.items| >= agent.config.batchSize
      && var batch := Sample(agent.buffer.items, agent.config.batchSize, rng.pick(steps));
      && loss.value == old(agent.BatchLoss(batch))
      && (agent.qParams, agent.optState) == agent.optimise(old(agent.qParams), old(agent.optState), batch, old(agent.BatchTargets(batch)))
  {
    action := agent.SelectAction(obs, false, rng.draw(steps), rng.randomAction(steps));
    r := Step(env, e, taken + [action]);
    var done := r.terminated || r.truncated;
    agent.StoreTransition(obs, action, r.reward, r.obs, if done then 1.0 else 0.0);
    loss := None;
    if steps % 4 == 0 {
      loss := agent.Update(rng.pick(steps));
    }
  }

  /** The local variables of the `while not done` loop of one training episode. */
  datatype Running = Running(
    obs: Obs, taken: seq<nat>, done: bool, steps: nat, length: nat,
    shapedReward: real, originalReward: real, episodeLoss: real, lossCount: nat)

  /**
   * What the loop has recorded so far: the moves, the agent's state before each
   * move and after the last one, and what each move's `update` returned (`None`
   * when it was not called or did nothing).
   */
  datatype History = History(trace: seq<Move>, agents: seq<Checkpoint>, outcomes: seq<Option<real>>)

  /** The losses `update` reported, in order. */
  function Reported(outcomes: seq<Option<real>>): (ls: seq<real>)
    ensures |ls| <= |outcomes|
  {
    if outcomes == [] then []
    else
      var init := Reported(outcomes[..|outcomes| - 1]);
      if outcomes[|outcomes| - 1].Some? then init + [outcomes[|outcomes| - 1].value] else init
  }

  lemma ReportedAppend(outcomes: seq<Option<real>>, o: Option<real>)
    ensures Reported(outcomes + [o]) == if o.Some? then Reported(outcomes) + [o.value] else Reported(outcomes)
  {
    assert (outcomes + [o])[..|outcomes|] == outcomes;
  }

  /**
   * The loop's locals after one more step: `action` was taken, the environment
   * answered `r`, and `update` reported `loss`.
   */
  function NextRunning(s: Running, action: nat, r: StepResult<Obs>, loss: Option<real>): Running
  {
    Running(
      r.obs,
      s.taken + [action],
      r.terminated || r.truncated,
      s.steps + 1,
      s.length + 1,
      s.shapedReward + r.reward,
      // info.get("original_reward", reward)
      s.originalReward + OriginalReward(r),
      if loss.Some? then s.episodeLoss + loss.value else s.episodeLoss,
      if loss.Some? then s.lossCount + 1 else s.lossCount)
  }

  /** The history after the same step, the agent being left in state `after`. */
  function NextHistory(h: History, action: nat, r: StepResult<Obs>, loss: Option<real>, after: Checkpoint): History
  {
    History(h.trace + [Move(action, r)], h.agents + [after], h.outcomes + [loss])
  }

  /** The step counters: one step per move, counted on from global step `stepsBefore`. */
  predicate Counted(stepsBefore: nat, s: Running, h: History)
  {
    s.length == |h.trace| && s.steps == stepsBefore + s.length
  }

  lemma CountedStep(stepsBefore: nat, s: Running, h: History, action: nat, r: StepResult<Obs>, loss: Option<real>, after: Checkpoint)
    requires Counted(stepsBefore, s, h)
    ensures Counted(stepsBefore, NextRunning(s, action, r, loss), NextHistory(h, action, r, loss, after))
  {
  }

  /**
   * The episode so far: the moves since `reset` follow the environment, the
   * actions taken and the current observation are theirs, and `done` says whether
   * the last move ended the episode.
   */
  ghost predicate Playing(env: Env, e: nat, nActions: nat, s: Running, h: History)
  {
    && s.taken == ActionsOf(h.trace)
    && s.obs == Current(env.reset(e), h.trace)
    && Progress(env, e, nActions, h.trace)
    && (s.done <==> h.trace != [] && h.trace[|h.trace| - 1].result.Done())
    && (!s.done ==> |s.taken| <= env.maxSteps)
  }

  lemma PlayingStep(env: Env, e: nat, nActions: nat, s: Running, h: History,
                    action: nat, r: StepResult<Obs>, loss: Option<real>, after: Checkpoint)
    requires Playing(env, e, nActions, s, h) && !s.done
    requires action < nActions && r == Step(env, e, s.taken + [action])
    ensures Playing(env, e, nActions, NextRunning(s, action, r, loss), NextHistory(h, action, r, loss, after))
  {
    var trace' := h.trace + [Move(action, r)];
    ProgressAppend(env, e, nActions, h.trace, Move(action, r));
    assert ActionsOf(trace') == s.taken + [action];
    assert Current(env.reset(e), trace') == r.obs;
  }

  /** The running sums of an episode: the shaped and the original reward of its moves. */
  predicate Tally(s: Running, h: History)
  {
    s.shapedReward == Return(h.trace) && s.originalReward == Sum(OriginalRewards(h.trace))
  }

  lemma TallyStep(s: Running, h: History, action: nat, r: StepResult<Obs>, loss: Option<real>, after: Checkpoint)
    requires Tally(s, h)
    ensures Tally(NextRunning(s, action, r, loss), NextHistory(h, action, r, loss, after))
  {
    var m := Move(action, r);
    ReturnAppend(h.trace, m);
    assert OriginalRewards(h.trace + [m]) == OriginalRewards(h.trace) + [OriginalReward(r)];
    SumAppend(OriginalRewards(h.trace), OriginalReward(r));
  }

  /** The loss accumulators of an episode: the sum and the count of the losses reported so far. */
  predicate Updates(s: Running, h: History)
  {
    s.episodeLoss == Sum(Reported(h.outcomes)) && s.lossCount == |Reported(h.outcomes)|
  }

  lemma UpdatesStep(s: Running, h: History, action: nat, r: StepResult<Obs>, loss: Option<real>, after: Checkpoint)
    requires Updates(s, h)
    ensures Updates(NextRunning(s, action, r, loss), NextHistory(h, action, r, loss, after))
  {
    ReportedAppend(h.outcomes, loss);
    if loss.Some? {
      SumAppend(Reported(h.outcomes), loss.value);
    }
  }

  /** Every action of `trace` is the training choice of the agent as it stood before the move. */
  ghost predicate Chosen(R: Rules, start: Obs, stepsBefore: nat, trace: seq<Move>, agents: seq<Checkpoint>)
    requires R.nActions > 0 && |agents| > |trace|
  {
    forall i | 0 <= i < |trace| :: ChosenAt(R, start, stepsBefore, trace, agents, i)
  }

  /** Move `i` is the training choice of the agent as it stood before it. */
  ghost predicate ChosenAt(R: Rules, start: Obs, stepsBefore: nat, trace: seq<Move>, agents: seq<Checkpoint>, i: nat)
    requires R.nActions > 0 && i < |trace| && i < |agents|
  {
    trace[i].action == TrainingAction(R, stepsBefore + i, agents[i], Current(start, trace[..i]))
  }

  lemma ChosenStep(R: Rules, start: Obs, stepsBefore: nat, trace: seq<Move>, agents: seq<Checkpoint>, m: Move, after: Checkpoint)
    requires R.nActions > 0 && |agents| == |trace| + 1 && Chosen(R, start, stepsBefore, trace, agents)
    requires m.action == TrainingAction(R, stepsBefore + |trace|, agents[|trace|], Current(start, trace))
    ensures Chosen(R, start, stepsBefore, trace + [m], agents + [after])
  {
    var trace', agents' := trace + [m], agents + [after];
    forall i | 0 <= i < |trace'|
      ensures ChosenAt(R, start, stepsBefore, trace', agents', i)
    {
      if i < |trace| {
        assert ChosenAt(R, start, stepsBefore, trace, agents, i);
        assert trace'[..i] == trace[..i];
      } else {
        assert trace'[..i] == trace;
      }
    }
  }

  /**
   * Every move changed the agent as `Moved` says, the buffer holding `stored`
   * transitions before the first move and one more after each.
   */
  ghost predicate Evolved(R: Rules, stepsBefore: nat, stored: nat, agents: seq<Checkpoint>, outcomes: seq<Option<real>>)
    requires SoundRules(R) && |agents| == |outcomes| + 1
  {
    forall i | 0 <= i < |outcomes| :: MovedAt(R, stepsBefore, stored, agents, outcomes, i)
  }

  /** Move `i` changed the agent as `Moved` says, with `stored + i + 1` transitions pushed by then. */
  ghost predicate MovedAt(R: Rules, stepsBefore: nat, stored: nat, agents: seq<Checkpoint>, outcomes: seq<Option<real>>, i: nat)
    requires SoundRules(R) && i < |outcomes| && i + 1 < |agents|
  {
    Moved(R, stepsBefore + i, BufferLength(stored + i + 1, R.config.bufferSize), agents[i], agents[i + 1], outcomes[i])
  }

  lemma EvolvedStep(R: Rules, stepsBefore: nat, stored: nat, agents: seq<Checkpoint>, outcomes: seq<Option<real>>,
                    after: Checkpoint, loss: Option<real>)
    requires SoundRules(R) && |agents| == |outcomes| + 1 && Evolved(R, stepsBefore, stored, agents, outcomes)
    requires Moved(R, stepsBefore + |outcomes|, BufferLength(stored + |outcomes| + 1, R.config.bufferSize),
                   agents[|outcomes|], after, loss)
    ensures Evolved(R, stepsBefore, stored, agents + [after], outcomes + [loss])
  {
    var agents', outcomes' := agents + [after], outcomes + [loss];
    forall i | 0 <= i < |outcomes'|
      ensures MovedAt(R, stepsBefore, stored, agents', outcomes', i)
    {
      assert agents'[i] == agents[i];
      if i < |outcomes| {
        assert MovedAt(R, stepsBefore, stored, agents, outcomes, i);
        assert agents'[i + 1] == agents[i + 1] && outcomes'[i] == outcomes[i];
      }
    }
  }

  /**
   * The agent's side of an episode from global step `stepsBefore`, `stored`
   * transitions having been pushed before it: every action is the training choice
   * of the agent as it stood, every move changed the agent as `Moved` says, and
   * the update counter rose by the number of losses reported.
   */
  ghost predicate Learned(R: Rules, start: Obs, stepsBefore: nat, stored: nat, h: History)
  {
    && SoundRules(R)
    && |h.agents| == |h.trace| + 1 && |h.outcomes| == |h.trace|
    && Chosen(R, start, stepsBefore, h.trace, h.agents)
    && Evolved(R, stepsBefore, stored, h.agents, h.outcomes)
    && h.agents[|h.trace|].totalSteps == h.agents[0].totalSteps + |Reported(h.outcomes)|
    && NonNegative(Reported(h.outcomes))
  }

  /** Before the first move nothing has been chosen or changed. */
  lemma LearnedStart(R: Rules, start: Obs, stepsBefore: nat, stored: nat, c: Checkpoint)
    requires SoundRules(R)
    ensures Learned(R, start, stepsBefore, stored, History([], [c], []))
  {
  }

  lemma LearnedStep(R: Rules, start: Obs, stepsBefore: nat, stored: nat, h: History,
                    action: nat, r: StepResult<Obs>, loss: Option<real>, after: Checkpoint)
    requires Learned(R, start, stepsBefore, stored, h)
    requires action == TrainingAction(R, stepsBefore + |h.trace|, h.agents[|h.trace|], Current(start, h.trace))
    requires Moved(R, stepsBefore + |h.trace|, BufferLength(stored + |h.trace| + 1, R.config.bufferSize),
                   h.agents[|h.trace|], after, loss)
    ensures Learned(R, start, stepsBefore, stored, NextHistory(h, action, r, loss, after))
  {
    var h' := NextHistory(h, action, r, loss, after);
    ChosenStep(R, start, stepsBefore, h.trace, h.agents, Move(action, r), after);
    EvolvedStep(R, stepsBefore, stored, h.agents, h.outcomes, after, loss);
    ReportedAppend(h.outcomes, loss);
    assert h'.agents[0] == h.agents[0] && h'.agents[|h'.trace|] == after;
    var ls := Reported(h.outcomes);
    if loss.Some? {
      assert Reported(h'.outcomes) == ls + [loss.value];
      assert forall k | 0 <= k < |ls| :: Reported(h'.outcomes)[k] == ls[k];
    }
  }

  /** Storing the next transition extends the buffer's history by the transitions of one more move. */
  lemma PushedStep(before: seq<Transition>, start: Obs, trace: seq<Move>, m: Move, obs: Obs,
                   pushed: seq<Transition>, pushed': seq<Transition>)
    requires obs == Current(start, trace) && pushed == before + Transitions(start, trace)
    requires pushed' == pushed + [Transition(obs, m.action, m.result.reward, m.result.obs, DoneFlag(m.result))]
    ensures pushed' == before + Transitions(start, trace + [m])
  {
    TransitionsAppend(start, trace, m);
    Associative(before, Transitions(start, trace),
      [Transition(Current(start, trace), m.action, m.result.reward, m.result.obs, DoneFlag(m.result))]);
  }

  /**
   * The loop's locals agree with the history of the episode since `reset`, global
   * step `stepsBefore` and `stored` earlier pushes.
   */
  ghost predicate Tracks(env: Env, e: nat, R: Rules, stepsBefore: nat, stored: nat, s: Running, h: History)
  {
    && Counted(stepsBefore, s, h)
    && Playing(env, e, R.nActions, s, h)
    && Tally(s, h)
    && Updates(s, h)
    && Learned(R, env.reset(e), stepsBefore, stored, h)
  }

  /** One more step keeps the locals in agreement with the history. */
  lemma TracksStep(env: Env, e: nat, R: Rules, stepsBefore: nat, stored: nat, s: Running, h: History,
                   action: nat, r: StepResult<Obs>, loss: Option<real>, after: Checkpoint)
    requires Tracks(env, e, R, stepsBefore, stored, s, h) && !s.done
    requires action < R.nActions && r == Step(env, e, s.taken + [action])
    requires action == TrainingAction(R, s.steps, h.agents[|h.trace|], s.obs)
    requires Moved(R, s.steps, BufferLength(stored + |h.trace| + 1, R.config.bufferSize), h.agents[|h.trace|], after, loss)
    ensures Tracks(env, e, R, stepsBefore, stored, NextRunning(s, action, r, loss), NextHistory(h, action, r, loss, after))
  {
    CountedStep(stepsBefore, s, h, action, r, loss, after);
    PlayingStep(env, e, R.nActions, s, h, action, r, loss, after);
    TallyStep(s, h, action, r, loss, after);
    UpdatesStep(s, h, action, r, loss, after);
    LearnedStep(R, env.reset(e), stepsBefore, stored, h, action, r, loss, after);
  }

  /** One pass through the body of `while not done`. */
  method PlayStep(agent: Agent, env: Env, e: nat, rng: Randomness, ghost stepsBefore: nat,
                  ghost pushedBefore: seq<Transition>, s: Running, ghost h: History)
    returns (s': Running, ghost h': History)
    requires agent.Valid() && !s.done
    requires Tracks(env, e, RulesOf(agent, rng), stepsBefore, |pushedBefore|, s, h)
    requires agent.buffer.pushed == pushedBefore + Transitions(env.reset(e), h.trace)
    requires h.agents[|h.trace|] == agent.Snapshot()
    modifies agent, agent.buffer
    ensures agent.Valid()
    ensures old(agent.OnSchedule()) ==> agent.OnSchedule()
    ensures Tracks(env, e, RulesOf(agent, rng), stepsBefore, |pushedBefore|, s', h') && |s'.taken| == |s.taken| + 1
    ensures agent.buffer.pushed == pushedBefore + Transitions(env.reset(e), h'.trace)
    ensures h'.agents[0] == h.agents[0] && h'.agents[|h'.trace|] == agent.Snapshot()
  {
    ghost var pushed := agent.buffer.pushed;
    var action, r, loss := TrainStep(agent, env, e, rng, s.obs, s.taken, s.steps);
    TracksStep(env, e, RulesOf(agent, rng), stepsBefore, |pushedBefore|, s, h, action, r, loss, agent.Snapshot());
    PushedStep(pushedBefore, env.reset(e), h.trace, Move(action, r), s.obs, pushed, agent.buffer.pushed);
    s' := NextRunning(s, action, r, loss);
    h' := NextHistory(h, action, r, loss, agent.Snapshot());
  }

  /**
   * The `while not done` loop of one training episode: play episode `e` of the
   * training environment epsilon-greedily from global step `stepsBefore`, storing
   * every transition and calling `update` on every global step divisible by 4.
   */
  method PlayEpisode(agent: Agent, env: Env, e: nat, rng: Randomness, stepsBefore: nat)
    returns (s: Running, ghost h: History)
    requires agent.Valid()
    modifies agent, agent.buffer
    ensures agent.Valid()
    ensures old(agent.OnSchedule()) ==> agent.OnSchedule()
    ensures s.done && Tracks(env, e, RulesOf(agent, rng), stepsBefore, |old(agent.buffer.pushed)|, s, h)
    ensures agent.buffer.pushed == old(agent.buffer.pushed) + Transitions(env.reset(e), h.trace)
    ensures h.agents[0] == old(agent.Snapshot()) && h.agents[|h.trace|] == agent.Snapshot()
  {
    s := Running(env.reset(e), [], false, stepsBefore, 0, 0.0, 0.0, 0.0, 0);
    h := History([], [agent.Snapshot()], []);
    ghost var pushedBefore := agent.buffer.pushed;
    LearnedStart(RulesOf(agent, rng), env.reset(e), stepsBefore, |pushedBefore|, agent.Snapshot());
    while !s.done
      invariant agent.Valid()
      invariant old(agent.OnSchedule()) ==> agent.OnSchedule()
      invariant Tracks(env, e, RulesOf(agent, rng), stepsBefore, |pushedBefore|, s, h)
      invariant agent.buffer.pushed == pushedBefore + Transitions(env.reset(e), h.trace)
      invariant h.agents[0] == old(agent.Snapshot()) && h.agents[|h.trace|] == agent.Snapshot()
      decreases if s.done then 0 else env.maxSteps + 1 - |s.taken|
    {
      s, h := PlayStep(agent, env, e, rng, stepsBefore, pushedBefore, s, h);
    }
  }

  /** `episode_loss / max(loss_count, 1)`: the mean loss of the episode's updates, or 0 without any. */
  function AverageLoss(losses: seq<real>): (avg: real)
    ensures losses == [] ==> avg == 0.0
    ensures losses != [] ==> avg == Mean(losses)
  {
    if losses == [] then 0.0 else Sum(losses) / |losses| as real
  }

  /**
   * One iteration of `for episode in ...` up to the computation of `avg_loss`:
   * the episode played by `PlayEpisode`, then its mean loss.
   */
  method TrainEpisode(agent: Agent, env: Env, e: nat, rng: Randomness, stepsBefore: nat)
    returns (stepsAfter: nat, originalReward: real, shapedReward: real, length: nat, avgLoss: real, ghost h: History)
    requires agent.Valid()
    modifies agent, agent.buffer
    ensures agent.Valid()
    ensures old(agent.OnSchedule()) ==> agent.OnSchedule()
    ensures PlayedEpisode(env, e, agent.nActions, h.trace)
    ensures Learned(RulesOf(agent, rng), env.reset(e), stepsBefore, |old(agent.buffer.pushed)|, h)
    ensures h.agents[0] == old(agent.Snapshot()) && h.agents[|h.trace|] == agent.Snapshot()
    ensures agent.totalSteps == old(agent.totalSteps) + |Reported(h.outcomes)|
    ensures length == |h.trace| && stepsAfter == stepsBefore + length
    ensures shapedReward == Return(h.trace)
    ensures originalReward == Sum(OriginalRewards(h.trace))
    ensures agent.buffer.pushed == old(agent.buffer.pushed) + Transitions(env.reset(e), h.trace)
    ensures avgLoss == AverageLoss(Reported(h.outcomes))
  {
    var s;
    s, h := PlayEpisode(agent, env, e, rng, stepsBefore);
    stepsAfter, originalReward, shapedReward, length := s.steps, s.originalReward, s.shapedReward, s.length;
    var episodeLoss, lossCount := s.episodeLoss, s.lossCount;
    avgLoss := episodeLoss / MaxInt(lossCount, 1) as real;
  }

  // ---------------------------------------------------------------------------
  // The training loop.

  /** The `training` section of the configuration. */
  datatype TrainConfig = TrainConfig(numEpisodes: nat, evalFreq: nat, saveFreq: nat, evalEpisodes: nat)

  /** One row of `training_log.csv`, before formatting. */
  datatype LogRow = LogRow(
    episode: nat,
    steps: nat,
    epsilon: real,
    episodeReward: real,
    episodeLength: nat,
    loss: real,
    evalSuccessRate: Option<real>,
    evalAvgReward: Option<real>)

  /** `agent.save(output_dir / f"checkpoint_ep{episode}.pt")`, with the file left out. */
  datatype Saved = Saved(episode: nat, checkpoint: Checkpoint)

  function SavedEpisodes(saves: seq<Saved>): (es: seq<nat>)
    ensures |es| == |saves|
    ensures forall k | 0 <= k < |saves| :: es[k] == saves[k].episode
  {
    seq(|saves|, k requires 0 <= k < |saves| => saves[k].episode)
  }

  /** Row `row` records the evaluation of `params` on `env` exactly on the episodes the schedule names. */
  ghost predicate EvalLogged(row: LogRow, env: Env, net: QNet, params: Params, n: nat, evalFreq: nat)
    requires evalFreq > 0
  {
    && (row.evalSuccessRate.Some? <==> row.episode % evalFreq == 0)
    && (row.evalAvgReward.Some? <==> row.episode % evalFreq == 0)
    && (row.evalSuccessRate.Some? ==>
          && n > 0
          && row.evalSuccessRate.value == CountTrue(EpisodeSuccesses(env, GreedyPolicy(net, params), n)) as real / n as real
          && 0.0 <= row.evalSuccessRate.value <= 1.0
          && row.evalAvgReward.value == Mean(EpisodeReturns(env, GreedyPolicy(net, params), n)))
  }

  /** Total environment steps after the rows logged so far. */
  function StepsLogged(rows: seq<LogRow>): nat
  {
    if rows == [] then 0 else rows[|rows| - 1].steps
  }

  /**
   * What a run of `train` works with besides its configuration: the training
   * environment, the fresh evaluation environments by episode, the fixed rules,
   * the number of transitions pushed before it began and the agent's state then.
   */
  datatype Setting = Setting(env: Env, evalEnvs: nat -> Env, rules: Rules, stored: nat, start: Checkpoint)

  /** The agent's state after the episodes whose end states are `states`. */
  function LastState(start: Checkpoint, states: seq<Checkpoint>): Checkpoint
  {
    if states == [] then start else states[|states| - 1]
  }

  /**
   * `row` is the log entry of episode `k + 1`, played as `h` after `stepsBefore`
   * earlier steps by an agent that began it in state `before` and ended it in
   * `state`: the episode was played to its end by the training choice, the agent
   * changed move by move as `update` does, and the row carries the step counter,
   * the original return, the length, the mean loss, the agent's ε and the
   * evaluation of `state`.
   */
  ghost predicate RowLogged(row: LogRow, k: nat, stepsBefore: nat, before: Checkpoint, h: History, state: Checkpoint,
                            S: Setting, tc: TrainConfig)
    requires tc.evalFreq > 0
  {
    && row.episode == k + 1
    && PlayedEpisode(S.env, k, S.rules.nActions, h.trace)
    && Learned(S.rules, S.env.reset(k), stepsBefore, S.stored + stepsBefore, h)
    && h.agents[0] == before && h.agents[|h.trace|] == state
    && row.episodeLength == |h.trace|
    && row.steps == stepsBefore + row.episodeLength
    && row.episodeReward == Sum(OriginalRewards(h.trace))
    && row.loss == AverageLoss(Reported(h.outcomes))
    && row.epsilon == state.epsilon
    && EvalLogged(row, S.evalEnvs(k + 1), S.rules.net, state.qNetwork, tc.evalEpisodes, tc.evalFreq)
  }

  /**
   * Every row of the log is the entry of its episode, `episodes[k]` being how
   * episode `k + 1` was played and `states[k]` the agent at its end.
   */
  ghost predicate RowsLogged(rows: seq<LogRow>, states: seq<Checkpoint>, episodes: seq<History>, S: Setting, tc: TrainConfig)
    requires tc.evalFreq > 0
    decreases |rows|
  {
    && |states| == |rows| && |episodes| == |rows|
    && (rows != [] ==>
          var n := |rows| - 1;
          && RowsLogged(rows[..n], states[..n], episodes[..n], S, tc)
          && RowLogged(rows[n], n, StepsLogged(rows[..n]), LastState(S.start, states[..n]), episodes[n], states[n], S, tc))
  }

  /** What `RowsLogged` says about row `k`. */
  lemma {:induction false} RowsLoggedAt(rows: seq<LogRow>, states: seq<Checkpoint>, episodes: seq<History>, S: Setting,
                                        tc: TrainConfig, k: nat)
    requires tc.evalFreq > 0 && RowsLogged(rows, states, episodes, S, tc) && k < |rows|
    ensures |states| == |rows| && |episodes| == |rows|
    ensures RowLogged(rows[k], k, StepsLogged(rows[..k]), LastState(S.start, states[..k]), episodes[k], states[k], S, tc)
    decreases |rows|
  {
    var n := |rows| - 1;
    if k < n {
      RowsLoggedAt(rows[..n], states[..n], episodes[..n], S, tc, k);
      assert rows[..n][k] == rows[k] && states[..n][k] == states[k] && episodes[..n][k] == episodes[k];
      assert rows[..n][..k] == rows[..k] && states[..n][..k] == states[..k];
    } else {
      assert rows[..n] == rows[..k] && states[..n] == states[..k];
    }
  }

  /** Appending the row, the history and the end state of the next episode keeps the log consistent. */
  lemma RowsLoggedAppend(rows: seq<LogRow>, states: seq<Checkpoint>, episodes: seq<History>, S: Setting, tc: TrainConfig,
                         row: LogRow, h: History, state: Checkpoint)
    requires tc.evalFreq > 0 && RowsLogged(rows, states, episodes, S, tc)
    requires RowLogged(row, |rows|, StepsLogged(rows), LastState(S.start, states), h, state, S, tc)
    ensures RowsLogged(rows + [row], states + [state], episodes + [h], S, tc)
  {
    assert (rows + [row])[..|rows|] == rows;
    assert (states + [state])[..|rows|] == states;
    assert (episodes + [h])[..|rows|] == episodes;
  }

  /** The row `FinishEpisode` writes for an episode `TrainEpisode` played is that episode's entry. */
  lemma RowOfEpisode(S: Setting, tc: TrainConfig, k: nat, stepsBefore: nat, before: Checkpoint, h: History, state: Checkpoint,
                     row: LogRow, stepsAfter: nat, originalReward: real, length: nat, avgLoss: real)
    requires tc.evalFreq > 0
    requires PlayedEpisode(S.env, k, S.rules.nActions, h.trace)
    requires Learned(S.rules, S.env.reset(k), stepsBefore, S.stored + stepsBefore, h)
    requires h.agents[0] == before && h.agents[|h.trace|] == state
    requires length == |h.trace| && stepsAfter == stepsBefore + length
    requires originalReward == Sum(OriginalRewards(h.trace)) && avgLoss == AverageLoss(Reported(h.outcomes))
    requires row.episode == k + 1 && row.steps == stepsAfter && row.epsilon == state.epsilon
    requires row.episodeReward == originalReward && row.episodeLength == length && row.loss == avgLoss
    requires EvalLogged(row, S.evalEnvs(k + 1), S.rules.net, state.qNetwork, tc.evalEpisodes, tc.evalFreq)
    ensures RowLogged(row, k, stepsBefore, before, h, state, S, tc)
  {
  }

  /** The number of updates that ran over the episodes `hs`. */
  function UpdatesRun(hs: seq<History>): nat
  {
    if hs == [] then 0 else UpdatesRun(hs[..|hs| - 1]) + |Reported(hs[|hs| - 1].outcomes)|
  }

  /** Every checkpoint is the state the agent was in at the end of the episode it names. */
  ghost predicate SavesMatch(saves: seq<Saved>, states: seq<Checkpoint>)
  {
    forall k | 0 <= k < |saves| :: 1 <= saves[k].episode <= |states| && saves[k].checkpoint == states[saves[k].episode - 1]
  }

  /** The bookkeeping of one checkpoint decision keeps the checkpoints on schedule. */
  lemma SavesAppend(saves: seq<Saved>, states: seq<Checkpoint>, f: nat, state: Checkpoint, save: Option<Saved>, saves': seq<Saved>)
    requires f > 0 && SavesMatch(saves, states) && SavedEpisodes(saves) == MultiplesIn(1, |states| + 1, f)
    requires save.Some? <==> (|states| + 1) % f == 0
    requires save.Some? ==> save.value == Saved(|states| + 1, state)
    requires saves' == if save.Some? then saves + [save.value] else saves
    ensures SavesMatch(saves', states + [state]) && SavedEpisodes(saves') == MultiplesIn(1, |states| + 2, f)
  {
    var states' := states + [state];
    forall k | 0 <= k < |saves'|
      ensures 1 <= saves'[k].episode <= |states'| && saves'[k].checkpoint == states'[saves'[k].episode - 1]
    {
      if k < |saves| {
        assert saves'[k] == saves[k];
        assert states'[saves[k].episode - 1] == states[saves[k].episode - 1];
      }
    }
    if save.Some? {
      assert SavedEpisodes(saves') == SavedEpisodes(saves) + [|states| + 1];
    } else {
      assert SavedEpisodes(saves') == SavedEpisodes(saves);
    }
  }

  /** The end-of-episode work of `train`: evaluation on schedule, the log row, a checkpoint on schedule. */
  method FinishEpisode(agent: Agent, evalEnv: Env, tc: TrainConfig, episode: nat, steps: nat,
                       originalReward: real, length: nat, avgLoss: real)
    returns (row: LogRow, save: Option<Saved>)
    requires agent.Valid() && tc.evalFreq > 0 && tc.saveFreq > 0
    requires episode % tc.evalFreq == 0 ==> tc.evalEpisodes > 0
    ensures row.episode == episode && row.steps == steps && row.epsilon == agent.epsilon
    ensures row.episodeReward == originalReward && row.episodeLength == length && row.loss == avgLoss
    ensures EvalLogged(row, evalEnv, agent.net, agent.qParams, tc.evalEpisodes, tc.evalFreq)
    ensures save.Some? <==> episode % tc.saveFreq == 0
    ensures save.Some? ==> save.value == Saved(episode, agent.Snapshot())
  {
    var evalSr: Option<real> := None;
    var evalAr: Option<real> := None;
    if episode % tc.evalFreq == 0 {
      var sr, ar := Evaluate(agent, evalEnv, tc.evalEpisodes);
      evalSr, evalAr := Some(sr), Some(ar);
    }
    row := LogRow(episode, steps, agent.epsilon, originalReward, length, avgLoss, evalSr, evalAr);
    save := None;
    if episode % tc.saveFreq == 0 {
      var c := agent.Save();
      save := Some(Saved(episode, c));
    }
  }

  /** What `train` has produced after some episodes: the log rows, the checkpoints, the step counter. */
  datatype Ledger = Ledger(rows: seq<LogRow>, saves: seq<Saved>, totalSteps: nat)

  /** The history beside it: the agent at the end of each episode, and how each episode was played. */
  datatype Past = Past(states: seq<Checkpoint>, episodes: seq<History>)

  /**
   * The invariant of the episode loop of `train`, `c` being the agent's state and
   * `pushed` the number of transitions its buffer has received: the rows so far
   * are the entries of their episodes, the checkpoints are on schedule, the
   * agent is where the last episode left it, its buffer has had one push per
   * step, and its update counter has risen once per reported loss.
   */
  ghost predicate Kept(S: Setting, tc: TrainConfig, l: Ledger, p: Past, c: Checkpoint, pushed: nat)
    requires tc.evalFreq > 0 && tc.saveFreq > 0
  {
    && RowsLogged(l.rows, p.states, p.episodes, S, tc)
    && l.totalSteps == StepsLogged(l.rows)
    && SavedEpisodes(l.saves) == MultiplesIn(1, |l.rows| + 1, tc.saveFreq)
    && SavesMatch(l.saves, p.states)
    && c == LastState(S.start, p.states)
    && pushed == S.stored + l.totalSteps
    && c.totalSteps == S.start.totalSteps + UpdatesRun(p.episodes)
  }

  /** The bookkeeping at the end of one episode keeps the loop invariant. */
  lemma KeptStep(S: Setting, tc: TrainConfig, l: Ledger, p: Past, c: Checkpoint, pushed: nat,
                 row: LogRow, save: Option<Saved>, h: History, state: Checkpoint, pushed': nat, l': Ledger, p': Past)
    requires tc.evalFreq > 0 && tc.saveFreq > 0 && Kept(S, tc, l, p, c, pushed)
    requires RowLogged(row, |l.rows|, l.totalSteps, LastState(S.start, p.states), h, state, S, tc)
    requires save.Some? <==> (|l.rows| + 1) % tc.saveFreq == 0
    requires save.Some? ==> save.value == Saved(|l.rows| + 1, state)
    requires pushed' == S.stored + row.steps
    requires l' == Ledger(l.rows + [row], if save.Some? then l.saves + [save.value] else l.saves, row.steps)
    requires p' == Past(p.states + [state], p.episodes + [h])
    ensures Kept(S, tc, l', p', state, pushed')
  {
    RowsLoggedAppend(l.rows, p.states, p.episodes, S, tc, row, h, state);
    SavesAppend(l.saves, p.states, tc.saveFreq, state, save, l'.saves);
    RowCounter(row, |l.rows|, l.totalSteps, LastState(S.start, p.states), h, state, S, tc);
    UpdatesRunAppend(p.episodes, h);
  }

  /** The agent's counter rose over a logged episode by the number of losses it reported. */
  lemma RowCounter(row: LogRow, k: nat, stepsBefore: nat, before: Checkpoint, h: History, state: Checkpoint,
                   S: Setting, tc: TrainConfig)
    requires tc.evalFreq > 0 && RowLogged(row, k, stepsBefore, before, h, state, S, tc)
    ensures state.totalSteps == before.totalSteps + |Reported(h.outcomes)|
    ensures row.steps == stepsBefore + |h.trace|
  {
  }

  lemma UpdatesRunAppend(hs: seq<History>, h: History)
    ensures UpdatesRun(hs + [h]) == UpdatesRun(hs) + |Reported(h.outcomes)|
  {
    assert (hs + [h])[..|hs|] == hs;
  }

  /**
   * One iteration of the episode loop of `train`: episode `k + 1`, played from
   * global step `stepsBefore` by the agent in state `before`, then its
   * evaluation, its row and its checkpoint.
   */
  method TrainRound(agent: Agent, env: Env, evalEnv: Env, tc: TrainConfig, rng: Randomness, ghost S: Setting,
                    k: nat, stepsBefore: nat, ghost before: Checkpoint)
    returns (row: LogRow, save: Option<Saved>, ghost h: History)
    requires agent.Valid() && tc.evalFreq > 0 && tc.saveFreq > 0
    requires (k + 1) % tc.evalFreq == 0 ==> tc.evalEpisodes > 0
    requires S.env == env && S.rules == RulesOf(agent, rng) && evalEnv == S.evalEnvs(k + 1)
    requires agent.Snapshot() == before && |agent.buffer.pushed| == S.stored + stepsBefore
    modifies agent, agent.buffer
    ensures agent.Valid()
    ensures old(agent.OnSchedule()) ==> agent.OnSchedule()
    ensures RowLogged(row, k, stepsBefore, before, h, agent.Snapshot(), S, tc)
    ensures save.Some? <==> (k + 1) % tc.saveFreq == 0
    ensures save.Some? ==> save.value == Saved(k + 1, agent.Snapshot())
    ensures |agent.buffer.pushed| == S.stored + row.steps
    ensures agent.totalSteps == old(agent.totalSteps) + |Reported(h.outcomes)|
  {
    var stepsAfter, originalReward, shapedReward, length, avgLoss;
    stepsAfter, originalReward, shapedReward, length, avgLoss, h := TrainEpisode(agent, env, k, rng, stepsBefore);
    row, save := FinishEpisode(agent, evalEnv, tc, k + 1, stepsAfter, originalReward, length, avgLoss);
    RowOfEpisode(S, tc, k, stepsBefore, before, h, agent.Snapshot(),
                 row, stepsAfter, originalReward, length, avgLoss);
  }

  /** An iteration of the episode loop of `train` together with what it adds to the ledger and the history. */
  method LogRound(agent: Agent, env: Env, evalEnv: Env, tc: TrainConfig, rng: Randomness,
                  ghost S: Setting, l: Ledger, ghost p: Past)
    returns (l': Ledger, ghost p': Past)
    requires agent.Valid() && tc.evalFreq > 0 && tc.saveFreq > 0
    requires |l.rows| < tc.numEpisodes && (tc.numEpisodes >= tc.evalFreq ==> tc.evalEpisodes > 0)
    requires S.env == env && S.rules == RulesOf(agent, rng) && evalEnv == S.evalEnvs(|l.rows| + 1)
    requires Kept(S, tc, l, p, agent.Snapshot(), |agent.buffer.pushed|)
    modifies agent, agent.buffer
    ensures agent.Valid()
    ensures old(agent.OnSchedule()) ==> agent.OnSchedule()
    ensures |l'.rows| == |l.rows| + 1
    ensures Kept(S, tc, l', p', agent.Snapshot(), |agent.buffer.pushed|)
  {
    if (|l.rows| + 1) % tc.evalFreq == 0 {
      MultipleAtLeast(|l.rows| + 1, tc.evalFreq);
    }
    var row: LogRow, save: Option<Saved>;
    ghost var h: History;
    ghost var c, pushed := agent.Snapshot(), |agent.buffer.pushed|;
    row, save, h := TrainRound(agent, env, evalEnv, tc, rng, S, |l.rows|, l.totalSteps, LastState(S.start, p.states));
    l' := Ledger(l.rows + [row], if save.Some? then l.saves + [save.value] else l.saves, row.steps);
    p' := Past(p.states + [agent.Snapshot()], p.episodes + [h]);
    KeptStep(S, tc, l, p, c, pushed, row, save, h, agent.Snapshot(), |agent.buffer.pushed|, l', p');
  }

  /** The number of episodes of the evaluation after the last training episode. */
  const FinalEvalEpisodes: nat := 100

  /**
   * `train(config)` after the set-up: episodes `1 .. num_episodes` on `env`, the
   * periodic evaluations on the fresh environments `evalEnvs(episode)`, the
   * checkpoints, then the final save and the 100-episode evaluation on `finalEnv`.
   */
  method Train(agent: Agent, env: Env, evalEnvs: nat -> Env, finalEnv: Env, tc: TrainConfig, rng: Randomness)
    returns (rows: seq<LogRow>, saves: seq<Saved>, finalModel: Checkpoint, finalSuccessRate: real,
             finalAvgReward: real, ghost states: seq<Checkpoint>, ghost episodes: seq<History>)
    requires agent.Valid() && tc.evalFreq > 0 && tc.saveFreq > 0
    requires tc.numEpisodes >= tc.evalFreq ==> tc.evalEpisodes > 0
    modifies agent, agent.buffer
    ensures agent.Valid()
    ensures old(agent.OnSchedule()) ==> agent.OnSchedule()
    ensures |rows| == tc.numEpisodes
    ensures RowsLogged(rows, states, episodes,
                       Setting(env, evalEnvs, RulesOf(agent, rng), |old(agent.buffer.pushed)|, old(agent.Snapshot())), tc)
    ensures SavedEpisodes(saves) == MultiplesIn(1, tc.numEpisodes + 1, tc.saveFreq)
    ensures SavesMatch(saves, states)
    ensures finalModel == agent.Snapshot() && finalModel == LastState(old(agent.Snapshot()), states)
    ensures agent.totalSteps == old(agent.totalSteps) + UpdatesRun(episodes)
    ensures |agent.buffer.pushed| == |old(agent.buffer.pushed)| + StepsLogged(rows)
    ensures finalSuccessRate == CountTrue(EpisodeSuccesses(finalEnv, GreedyPolicy(agent.net, agent.qParams), FinalEvalEpisodes)) as real / FinalEvalEpisodes as real
    ensures finalAvgReward == Mean(EpisodeReturns(finalEnv, GreedyPolicy(agent.net, agent.qParams), FinalEvalEpisodes))
  {
    ghost var S := Setting(env, evalEnvs, RulesOf(agent, rng), |agent.buffer.pushed|, agent.Snapshot());
    var l := Ledger([], [], 0);
    ghost var p := Past([], []);
    for episode := 1 to tc.numEpisodes + 1
      invariant agent.Valid()
      invariant old(agent.OnSchedule()) ==> agent.OnSchedule()
      invariant |l.rows| == episode - 1
      invariant Kept(S, tc, l, p, agent.Snapshot(), |agent.buffer.pushed|)
    {
      l, p := LogRound(agent, env, evalEnvs(episode), tc, rng, S, l, p);
    }
    rows, saves, states, episodes := l.rows, l.saves, p.states, p.episodes;
    finalModel := agent.Save();
    finalSuccessRate, finalAvgReward := Evaluate(agent, finalEnv, FinalEvalEpisodes);
  }

  /** `f"{config['experiment_name']}_seed{seed}"`: the run's directory name. */
  function ExperimentDirName(experimentName: string, seed: int): string
  {
    experimentName + "_seed" + PyStr.IntToString(seed)
  }
}
