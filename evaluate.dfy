/**
 * The evaluation script: `evaluate_model` plays greedy episodes of a saved model
 * on an unshaped environment, recording the first few as pictures; `main` picks
 * each run's configuration from its directory name, reads the seed and the gamma
 * back out of that name, and summarises the episodes.
 */
module Evaluate {
  import opened Wrappers
  import opened Numeric
  import opened Gym
  import opened DqnAgent
  import opened Episodes
  import opened PyStr
  import Train

  // ---------------------------------------------------------------------------
  // Recorded episodes.

  /** The pictures `get_frame()` shows before each action of the rest of an episode. */
  function RolloutFrames(env: Env, e: nat, policy: Obs -> nat, obs: Obs, taken: seq<nat>): (fs: seq<Frame>)
    ensures |fs| == |Rollout(env, e, policy, obs, taken)|
    ensures fs[0] == env.frame(e, taken)
    decreases env.maxSteps - |taken|
  {
    var a := policy(obs);
    var r := Step(env, e, taken + [a]);
    if r.Done() then [env.frame(e, taken)]
    else [env.frame(e, taken)] + RolloutFrames(env, e, policy, r.obs, taken + [a])
  }

  /** The pictures of a whole episode, one per step. */
  function EpisodeFrames(env: Env, e: nat, policy: Obs -> nat): seq<Frame>
  {
    RolloutFrames(env, e, policy, env.reset(e), [])
  }

  /** Frame `k` of a rollout is the picture after its first `k` actions. */
  lemma {:induction false} RolloutFramesAt(env: Env, e: nat, policy: Obs -> nat, obs: Obs, taken: seq<nat>, k: nat)
    requires k < |Rollout(env, e, policy, obs, taken)|
    ensures RolloutFrames(env, e, policy, obs, taken)[k]
      == env.frame(e, taken + ActionsOf(Rollout(env, e, policy, obs, taken))[..k])
    decreases env.maxSteps - |taken|
  {
    var a := policy(obs);
    var r := Step(env, e, taken + [a]);
    var ms := Rollout(env, e, policy, obs, taken);
    RolloutUnfold(env, e, policy, obs, taken);
    if k == 0 {
      assert taken + ActionsOf(ms)[..0] == taken;
    } else {
      var rest := Rollout(env, e, policy, r.obs, taken + [a]);
      RolloutFramesAt(env, e, policy, r.obs, taken + [a], k - 1);
      ActionsPrefixCons(Move(a, r), rest, k);
      Episodes.Associative(taken, [a], ActionsOf(rest)[..k - 1]);
    }
  }

  /** Frame `k` of an episode is the picture after its first `k` actions. */
  lemma EpisodeFramesAt(env: Env, e: nat, policy: Obs -> nat, k: nat)
    requires k < |Episode(env, e, policy)|
    ensures |EpisodeFrames(env, e, policy)| == |Episode(env, e, policy)|
    ensures EpisodeFrames(env, e, policy)[k] == env.frame(e, ActionsOf(Episode(env, e, policy))[..k])
  {
    RolloutFramesAt(env, e, policy, env.reset(e), [], k);
    assert [] + ActionsOf(Episode(env, e, policy))[..k] == ActionsOf(Episode(env, e, policy))[..k];
  }

  /** The picture taken before that action is the next frame of the episode. */
  lemma FramesStep(env: Env, e: nat, policy: Obs -> nat, obs: Obs, taken: seq<nat>, before: seq<Frame>,
                   frames: seq<Frame>, a: nat, r: StepResult<Obs>)
    requires EpisodeFrames(env, e, policy) == before + RolloutFrames(env, e, policy, obs, taken)
    requires frames == before + [env.frame(e, taken)]
    requires a == policy(obs) && r == Step(env, e, taken + [a])
    ensures !r.Done() ==> EpisodeFrames(env, e, policy) == frames + RolloutFrames(env, e, policy, r.obs, taken + [a])
    ensures r.Done() ==> EpisodeFrames(env, e, policy) == frames
  {
    if !r.Done() {
      Episodes.Associative(before, [env.frame(e, taken)], RolloutFrames(env, e, policy, r.obs, taken + [a]));
    }
  }

  /**
   * The `while not done` loop of `evaluate_model` for episode `ep`: the greedy
   * episode's return, its length and whether its last step reported `terminated`,
   * and, when `keep` (`record_episodes and ep < 5`), the picture before every action.
   */
  method RecordedEpisode(agent: Agent, env: Env, ep: nat, keep: bool)
    returns (episodeReward: real, episodeLength: nat, terminated: bool, frames: seq<Frame>)
    requires agent.Valid()
    ensures var ms := Episode(env, ep, Train.GreedyPolicy(agent.net, agent.qParams));
      && episodeReward == Return(ms) && episodeLength == |ms|
      && terminated == ms[|ms| - 1].result.terminated
    ensures terminated && episodeReward > 0.0 <==> Succeeded(Episode(env, ep, Train.GreedyPolicy(agent.net, agent.qParams)))
    ensures frames == if keep then EpisodeFrames(env, ep, Train.GreedyPolicy(agent.net, agent.qParams)) else []
  {
    ghost var policy := Train.GreedyPolicy(agent.net, agent.qParams);
    var s := Recorder(env.reset(ep), [], [], false, false, 0.0, 0);
    ghost var played: seq<Move> := [];
    RecordingStart(env, ep, policy, keep);
    while !s.done
      invariant Recording(env, ep, policy, keep, s, played)
      decreases if s.done then 0 else |Rollout(env, ep, policy, s.obs, s.taken)|
    {
      s, played := RecordStep(agent, env, ep, keep, policy, s, played);
    }
    RecordingDone(env, ep, policy, keep, s, played);
    episodeReward, episodeLength, terminated, frames := s.reward, s.length, s.terminated, s.frames;
  }

  /** The local variables of the `while not done` loop of `evaluate_model`. */
  datatype Recorder = Recorder(obs: Obs, taken: seq<nat>, frames: seq<Frame>, done: bool, terminated: bool,
                               reward: real, length: nat)

  /**
   * The loop state against the episode: while it runs, the moves so far and the
   * rest of the rollout make up the episode (and likewise the frames); once it
   * stops, the moves are the episode and `terminated` is its last step's. The
   * reward and the length are the running sums over the moves.
   */
  ghost predicate Recording(env: Env, ep: nat, policy: Obs -> nat, keep: bool, s: Recorder, played: seq<Move>)
  {
    && s.reward == Return(played) && s.length == |played|
    && (!s.done ==> Episode(env, ep, policy) == played + Rollout(env, ep, policy, s.obs, s.taken))
    && (!s.done && keep ==> EpisodeFrames(env, ep, policy) == s.frames + RolloutFrames(env, ep, policy, s.obs, s.taken))
    && (s.done ==> Episode(env, ep, policy) == played && played != [] && s.terminated == played[|played| - 1].result.terminated)
    && (s.done && keep ==> EpisodeFrames(env, ep, policy) == s.frames)
    && (!keep ==> s.frames == [])
  }

  /**
   * One pass through the loop body: the picture (when kept), the greedy action,
   * the step, and the running sums.
   */
  method RecordStep(agent: Agent, env: Env, ep: nat, keep: bool, ghost policy: Obs -> nat, s: Recorder, ghost played: seq<Move>)
    returns (s': Recorder, ghost played': seq<Move>)
    requires agent.Valid() && policy == Train.GreedyPolicy(agent.net, agent.qParams)
    requires !s.done && Recording(env, ep, policy, keep, s, played)
    ensures Recording(env, ep, policy, keep, s', played')
    ensures !s'.done ==> |Rollout(env, ep, policy, s'.obs, s'.taken)| < |Rollout(env, ep, policy, s.obs, s.taken)|
  {
    var frames := if keep then s.frames + [env.frame(ep, s.taken)] else s.frames;
    var action := agent.SelectAction(s.obs, true, 0.0, 0);
    var r := Step(env, ep, s.taken + [action]);
    RecordingStep(env, ep, policy, keep, s, played, action, r);
    s' := Recorder(r.obs, s.taken + [action], frames, r.terminated || r.truncated, r.terminated,
                   s.reward + r.reward, s.length + 1);
    played' := played + [Move(action, r)];
  }

  /** Before the first pass, nothing is played and the whole episode lies ahead. */
  lemma RecordingStart(env: Env, ep: nat, policy: Obs -> nat, keep: bool)
    ensures Recording(env, ep, policy, keep, Recorder(env.reset(ep), [], [], false, false, 0.0, 0), [])
  {
    assert [] + Episode(env, ep, policy) == Episode(env, ep, policy);
    assert [] + EpisodeFrames(env, ep, policy) == EpisodeFrames(env, ep, policy);
  }

  /** Once the loop stops, its state holds the episode's return, length, last `terminated` and pictures. */
  lemma RecordingDone(env: Env, ep: nat, policy: Obs -> nat, keep: bool, s: Recorder, played: seq<Move>)
    requires s.done && Recording(env, ep, policy, keep, s, played)
    ensures var ms := Episode(env, ep, policy);
      && s.reward == Return(ms) && s.length == |ms|
      && s.terminated == ms[|ms| - 1].result.terminated
    ensures s.terminated && s.reward > 0.0 <==> Succeeded(Episode(env, ep, policy))
    ensures s.frames == if keep then EpisodeFrames(env, ep, policy) else []
  {
  }

  /** One greedy step keeps the loop state in agreement with the episode, and shortens what is left of it. */
  lemma RecordingStep(env: Env, ep: nat, policy: Obs -> nat, keep: bool, s: Recorder, played: seq<Move>,
                      a: nat, r: StepResult<Obs>)
    requires !s.done && Recording(env, ep, policy, keep, s, played)
    requires a == policy(s.obs) && r == Step(env, ep, s.taken + [a])
    ensures Recording(env, ep, policy, keep,
                      Recorder(r.obs, s.taken + [a], if keep then s.frames + [env.frame(ep, s.taken)] else s.frames,
                               r.terminated || r.truncated, r.terminated, s.reward + r.reward, s.length + 1),
                      played + [Move(a, r)])
    ensures !r.Done() ==> |Rollout(env, ep, policy, r.obs, s.taken + [a])| < |Rollout(env, ep, policy, s.obs, s.taken)|
  {
    MovesStep(env, ep, policy, s.obs, s.taken, played, a, r);
    ReturnAppend(played, Move(a, r));
    if keep {
      FramesStep(env, ep, policy, s.obs, s.taken, s.frames, s.frames + [env.frame(ep, s.taken)], a, r);
    }
  }

  // ---------------------------------------------------------------------------
  // evaluate_model.

  /** One entry of the list `evaluate_model` returns. */
  datatype EpisodeResult = EpisodeResult(episode: nat, reward: real, length: nat, success: bool, frames: Option<seq<Frame>>)

  /** Only this many of the first episodes of a recording run keep their pictures. */
  const RecordedEpisodes: nat := 5

  /** What `evaluate_model` reports for episode `ep` of `env` played by `policy`. */
  function ResultOf(env: Env, policy: Obs -> nat, ep: nat, record: bool): EpisodeResult
  {
    var ms := Episode(env, ep, policy);
    EpisodeResult(ep, Return(ms), |ms|, Succeeded(ms),
      if record && ep < RecordedEpisodes then Some(EpisodeFrames(env, ep, policy)) else None)
  }

  /** The results of episodes `0 .. n - 1`. */
  function ResultsOf(env: Env, policy: Obs -> nat, n: nat, record: bool): (rs: seq<EpisodeResult>)
    ensures |rs| == n
  {
    seq(n, k requires 0 <= k < n => ResultOf(env, policy, k, record))
  }

  /** The results of one more episode extend the list by that episode's result. */
  lemma ResultsOfAppend(env: Env, policy: Obs -> nat, n: nat, record: bool)
    ensures ResultsOf(env, policy, n + 1, record) == ResultsOf(env, policy, n, record) + [ResultOf(env, policy, n, record)]
  {
    var rs, rs' := ResultsOf(env, policy, n, record), ResultsOf(env, policy, n + 1, record);
    assert forall k | 0 <= k < n :: rs'[k] == rs[k];
  }

  /**
   * What one result says: its number, a length within MiniGrid's step limit, a
   * success only with a positive return, and pictures (one per step) exactly for
   * the first five episodes of a recording run.
   */
  lemma ResultFacts(env: Env, policy: Obs -> nat, ep: nat, record: bool)
    ensures var r := ResultOf(env, policy, ep, record);
      && r.episode == ep
      && 1 <= r.length <= MaxInt(env.maxSteps, 1)
      && (r.success ==> r.reward > 0.0)
      && (r.frames.Some? <==> record && ep < RecordedEpisodes)
      && (r.frames.Some? ==> |r.frames.value| == r.length)
  {
    EpisodeLength(env, ep, policy);
  }

  /**
   * `evaluate_model(model_path, config, num_episodes, record_episodes)`: a fresh
   * agent built from `config` takes over the checkpoint `saved`, then plays
   * `num_episodes` greedy episodes of the unshaped environment `env`.
   */
  method EvaluateModel(nActions: nat, config: AgentConfig, net: QNet, optimise: Optimiser, initParams: Params,
                       initOpt: OptState, saved: Checkpoint, env: Env, numEpisodes: nat, record: bool)
    returns (results: seq<EpisodeResult>)
    requires nActions > 0 && config.batchSize > 0 && config.epsilonDecaySteps > 0 && config.bufferSize > 0
    requires config.useTargetNetwork ==> config.targetUpdateFreq > 0
    requires QNetShape(net, nActions)
    ensures results == ResultsOf(env, Train.GreedyPolicy(net, saved.qNetwork), numEpisodes, record)
  {
    var agent := new Agent(nActions, config, net, optimise, initParams, initOpt);
    agent.Load(saved);
    ghost var policy := Train.GreedyPolicy(net, saved.qNetwork);
    results := [];
    for ep := 0 to numEpisodes
      invariant agent.Valid() && agent.net == net && agent.qParams == saved.qNetwork
      invariant results == ResultsOf(env, policy, ep, record)
    {
      var result := PlayResult(agent, env, ep, record);
      ResultsOfAppend(env, policy, ep, record);
      results := results + [result];
    }
  }

  /** The body of the episode loop of `evaluate_model`: play episode `ep` and build its result entry. */
  method PlayResult(agent: Agent, env: Env, ep: nat, record: bool) returns (result: EpisodeResult)
    requires agent.Valid()
    ensures result == ResultOf(env, Train.GreedyPolicy(agent.net, agent.qParams), ep, record)
  {
    var keep := record && ep < RecordedEpisodes;
    var reward, length, terminated, frames := RecordedEpisode(agent, env, ep, keep);
    var success := terminated && reward > 0.0;
    result := EpisodeResult(ep, reward, length, success, if keep then Some(frames) else None);
  }

  // ---------------------------------------------------------------------------
  // The summary of one run.

  /** `[r["success"] for r in results]`. */
  function Successes(results: seq<EpisodeResult>): (bs: seq<bool>)
    ensures |bs| == |results|
  {
    seq(|results|, i requires 0 <= i < |results| => results[i].success)
  }

  /** `[r["reward"] for r in results]`. */
  function RewardsOf(results: seq<EpisodeResult>): (rs: seq<real>)
    ensures |rs| == |results|
  {
    seq(|results|, i requires 0 <= i < |results| => results[i].reward)
  }

  /** `[r["length"] for r in results]`. */
  function LengthsOf(results: seq<EpisodeResult>): (ls: seq<real>)
    ensures |ls| == |results|
  {
    seq(|results|, i requires 0 <= i < |results| => results[i].length as real)
  }

  /** One row of `evaluation_summary.csv`, before formatting. */
  datatype Summary = Summary(experiment: string, successRate: real, avgReward: real, avgLength: real)

  /** The `np.mean` aggregates `main` computes over the results of one run. */
  function Summarize(experiment: string, results: seq<EpisodeResult>): Summary
    requires |results| > 0
  {
    Summary(experiment, Mean(AsReals(Successes(results))), Mean(RewardsOf(results)), Mean(LengthsOf(results)))
  }

  /** The mean of the success flags is the fraction of successful episodes, in `[0, 1]`. */
  lemma SummaryRate(experiment: string, results: seq<EpisodeResult>)
    requires |results| > 0
    ensures Summarize(experiment, results).successRate == CountTrue(Successes(results)) as real / |results| as real
    ensures 0.0 <= Summarize(experiment, results).successRate <= 1.0
  {
    MeanOfFlags(Successes(results), |results|);
    MeanBounds(AsReals(Successes(results)), 0.0, 1.0);
  }

  /** The success flags of the results are the successes of the episodes, episode by episode. */
  lemma SuccessesOfResults(env: Env, policy: Obs -> nat, n: nat, record: bool)
    ensures Successes(ResultsOf(env, policy, n, record)) == EpisodeSuccesses(env, policy, n)
  {
    var bs, ss := Successes(ResultsOf(env, policy, n, record)), EpisodeSuccesses(env, policy, n);
    forall k | 0 <= k < n ensures bs[k] == ss[k] {
      EpisodeSuccessesAt(env, policy, n, k);
    }
  }

  /** The rewards of the results are the returns of the episodes, episode by episode. */
  lemma RewardsOfResults(env: Env, policy: Obs -> nat, n: nat, record: bool)
    ensures RewardsOf(ResultsOf(env, policy, n, record)) == EpisodeReturns(env, policy, n)
  {
    var rs, es := RewardsOf(ResultsOf(env, policy, n, record)), EpisodeReturns(env, policy, n);
    forall k | 0 <= k < n ensures rs[k] == es[k] {
      EpisodeReturnsAt(env, policy, n, k);
    }
  }

  /**
   * Evaluating a checkpoint afterwards reports what `evaluate` during training
   * reports for the same weights on the same environment: the same success rate
   * and the same mean return.
   */
  lemma SummaryAgreesWithTraining(experiment: string, env: Env, policy: Obs -> nat, n: nat, record: bool)
    requires n > 0
    ensures var s := Summarize(experiment, ResultsOf(env, policy, n, record));
      && s.successRate == CountTrue(EpisodeSuccesses(env, policy, n)) as real / n as real
      && s.avgReward == Mean(EpisodeReturns(env, policy, n))
  {
    SummaryRate(experiment, ResultsOf(env, policy, n, record));
    SuccessesOfResults(env, policy, n, record);
    RewardsOfResults(env, policy, n, record);
  }

  // ---------------------------------------------------------------------------
  // Reading a run's directory name.

  /** The configuration file `main` chooses for experiment directory `expName`. */
  function ConfigFor(expName: string): string
  {
    if Contains(expName, "ablation_no_target") then "ablation_no_target.yaml"
    else if Contains(expName, "ablation_gamma") then "ablation_gamma.yaml"
    else if Contains(expName, "reward_shaping") then "reward_shaping.yaml"
    else "default.yaml"
  }

  /** The characters of the `_seed{seed}` suffix a training run appends to its experiment name. */
  lemma SeedSuffixChars(seed: int)
    ensures var b := "_seed" + IntToString(seed);
      forall i | 0 <= i < |b| :: b[i] == '_' || b[i] == 's' || b[i] == 'e' || b[i] == 'd' || b[i] == '-' || IsDigit(b[i])
  {
    IntToStringChars(seed);
  }

  /** A training run's directory selects the configuration its experiment name selects. */
  lemma ConfigForDirName(name: string, seed: int)
    ensures ConfigFor(Train.ExperimentDirName(name, seed)) == ConfigFor(name)
  {
    var b := "_seed" + IntToString(seed);
    assert Train.ExperimentDirName(name, seed) == name + b;
    SeedSuffixChars(seed);
    ContainsBeforeSuffix(name, b, "ablation_no_target");
    ContainsBeforeSuffix(name, b, "ablation_gamma");
    ContainsBeforeSuffix(name, b, "reward_shaping");
  }

  /** `exp_name.split("seed")[-1].split("_")[0]`. */
  function SeedText(expName: string): string
  {
    SplitHead(SplitTail(expName, "seed"), "_")
  }

  /** The seed `main` evaluates with: read from the name when it holds an int there, else `seed` unchanged. */
  function SeedFor(expName: string, seed: int): int
  {
    if Contains(expName, "seed") then
      match ParseInt(SeedText(expName))
      case Some(v) => v
      case None => seed
    else seed
  }

  /** The seed read back from a training run's directory is the seed the run used. */
  lemma SeedForDirName(name: string, seed: int, configured: int)
    ensures SeedFor(Train.ExperimentDirName(name, seed), configured) == seed
  {
    SeedTextOfDirName(name, seed);
    ParseIntOfIntToString(seed);
  }

  /** The text `main` cuts out of a training run's directory name is the seed's digits. */
  lemma SeedTextOfDirName(name: string, seed: int)
    ensures Contains(Train.ExperimentDirName(name, seed), "seed")
    ensures SeedText(Train.ExperimentDirName(name, seed)) == IntToString(seed)
  {
    var digits := IntToString(seed);
    var x := name + "_";
    var dir := x + "seed" + digits;
    assert Train.ExperimentDirName(name, seed) == dir;
    BorderFreeByFirst("seed");
    DigitsHoldNoMarker(seed);
    SplitTailMarker(x, "seed", digits);
    assert OccursAt(dir, "seed", |x|) by { assert dir[|x|..|x| + 4] == "seed"; }
    ContainsAt(dir, "seed", |x|);
  }

  /** The decimal text of an int holds neither `seed` nor `_`. */
  lemma DigitsHoldNoMarker(seed: int)
    ensures !Contains(IntToString(seed), "seed") && !Contains(IntToString(seed), "_")
  {
    var digits := IntToString(seed);
    IntToStringChars(seed);
    assert [] + digits == digits;
    NoOccurrenceAcross([], digits, "seed");
    NoOccurrenceAcross([], digits, "_");
  }

  /** `exp_name.split("gamma")[-1].split("_seed")[0]`. */
  function GammaText(expName: string): string
  {
    SplitHead(SplitTail(expName, "gamma"), "_seed")
  }

  /**
   * The gamma `main` evaluates with: when the name holds `gamma` (exactly when
   * `split("gamma")` has more than one part) and the text after it parses as a
   * float, that value, else `gamma` unchanged. `parseFloat` is Python's `float()`.
   */
  function GammaFor(expName: string, parseFloat: string -> Option<real>, gamma: real): real
  {
    if Contains(expName, "gamma") then
      match parseFloat(GammaText(expName))
      case Some(g) => g
      case None => gamma
    else gamma
  }

  /** A name that holds `gamma` once, followed by `d`, reads `d` back as the text after it. */
  lemma GammaMarked(prefix: string, d: string)
    requires !Contains(d, "gamma")
    ensures Contains(prefix + "gamma" + d, "gamma")
    ensures SplitTail(prefix + "gamma" + d, "gamma") == d
  {
    var dir := prefix + "gamma" + d;
    BorderFreeByFirst("gamma");
    SplitTailMarker(prefix, "gamma", d);
    assert OccursAt(dir, "gamma", |prefix|) by { assert dir[|prefix|..|prefix| + 5] == "gamma"; }
    ContainsAt(dir, "gamma", |prefix|);
  }

  /** The `_seed{seed}` suffix brings no `gamma` into a name that has none. */
  lemma NoGammaInSuffix(g: string, seed: int)
    requires !Contains(g, "gamma")
    ensures !Contains(g + "_seed" + IntToString(seed), "gamma")
  {
    var b := "_seed" + IntToString(seed);
    SeedSuffixChars(seed);
    NoOccurrenceAcross(g, b, "gamma");
    assert g + b == g + "_seed" + IntToString(seed);
  }

  /** Cutting at the first `_seed` gives back a text that holds none. */
  lemma SeedMarked(g: string, digits: string)
    requires !Contains(g, "_seed")
    ensures SplitHead(g + "_seed" + digits, "_seed") == g
  {
    BorderFreeByFirst("_seed");
    SplitHeadMarker(g, "_seed", digits);
  }

  /**
   * For a run named `prefix + "gamma" + g`, with `g` holding neither `gamma` nor
   * `_seed`, the gamma text read back from its directory is `g`.
   */
  lemma GammaForDirName(prefix: string, g: string, seed: int, parseFloat: string -> Option<real>, gamma: real)
    requires !Contains(g, "gamma") && !Contains(g, "_seed")
    ensures GammaText(Train.ExperimentDirName(prefix + "gamma" + g, seed)) == g
    ensures GammaFor(Train.ExperimentDirName(prefix + "gamma" + g, seed), parseFloat, gamma)
      == match parseFloat(g) case Some(v) => v case None => gamma
  {
    var d := g + "_seed" + IntToString(seed);
    assert Train.ExperimentDirName(prefix + "gamma" + g, seed) == prefix + "gamma" + d;
    NoGammaInSuffix(g, seed);
    GammaMarked(prefix, d);
    SeedMarked(g, IntToString(seed));
  }
}
