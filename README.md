# minigrid-dqn, modelled in Dafny

The repository trains a Deep Q-Network (DQN) agent on MiniGrid grid worlds. This
project models its core control logic. The agent keeps an ε-greedy
exploration rate that decays linearly to a floor, an update counter, a replay
buffer and a target network copied every few updates. Training can add a
potential-based reward-shaping bonus (Ng et al. 1999), `r + γΦ(s') − Φ(s)`,
where Φ is the scaled closeness of the agent to the goal cell. The training
loop acts ε-greedily, calls `update` on every fourth global step (which learns
only once the buffer holds a batch), logs one CSV row per episode and evaluates
and checkpoints on a schedule. The evaluation script replays saved
checkpoints greedily and reads the seed and γ back from directory names. The
plotting script smooths curves, averages them across seeds and groups runs by
name.

Modules, one per source file plus shared pieces:

- `Wrappers` (`wrappers.dfy`): `Option`.
- `Numeric` (`numeric.dfy`): sums, means, counts and powers over `real`.
- `PyStr` (`pystr.dfy`): the Python string rules the scripts rely on: `in`,
  `split(sep)[0]`, `split(sep)[-1]`, `rsplit(sep, 1)[0]`, `f"{n}"` and `int()`.
- `Gym` (`gym.dfy`): the environment as a transition oracle. MiniGrid's
  `max_steps` truncates every episode.
- `DqnAgent` (`dqn_agent.dfy`): `src/dqn_agent.py`. Classes `ReplayBuffer` and
  `Agent`; the bootstrap target, the loss and the ε schedule as functions.
- `EnvUtils` (`env_utils.dfy`): `src/env_utils.py`. The class
  `RewardShapingWrapper`, the goal scan over an `array2`, the potential and its
  telescoping sum, and `ObsPreprocessWrapper`'s remap.
- `Episodes` (`episodes.dfy`): the greedy episode as a function of the
  environment and the policy. Training evaluation and `evaluate_model` share it.
- `Train` (`train.dfy`): `src/train.py`. `evaluate`, the episode/step loop, the
  CSV rows and the checkpoint schedule.
- `Evaluate` (`evaluate.dfy`): `src/evaluate.py`. `evaluate_model`, the summary
  means, and reading a run's configuration, seed and γ from its name.
- `Visualize` (`visualize.dfy`): `src/visualize.py`. `load_training_log`,
  `smooth`, the curve averaging and the three name groupings.

Imperative source stays imperative. The agent, the buffer and the shaping
wrapper are classes whose methods change their fields under `modifies`. The
episode, training, evaluation and grouping loops are `while`/`for` loops.
Each loop is proved against a specification function or against a predicate
tying the loop's state to its history (the moves played, the agent's state
after each move and the losses reported). The properties the source promises
are lemmas about those functions and predicates.

## Model

| member | source | states |
|---|---|---|
| DqnAgent.Agent.constructor | src/dqn_agent.py:15-42 | ε starts at `epsilon_start` with decay `(start − end)/decay_steps`; the target network is a copy of the live one; the counter is 0; the buffer is empty |
| DqnAgent.DecayRate | src/dqn_agent.py:27 | the per-update decay is non-negative when `start ≥ end` |
| DqnAgent.DecayRateSpans | src/dqn_agent.py:27 | `decay_steps` decays together make up exactly `start − end` |
| DqnAgent.EpsilonStep | src/dqn_agent.py:91 | one step gives `max(end, ε − decay)`: never below the floor, and either the floor or exactly `decay` lower |
| DqnAgent.EpsilonClosedForm | src/dqn_agent.py:91 | after k updates ε equals `max(end, start − k·decay)` |
| DqnAgent.EpsilonAboveFloor | src/dqn_agent.py:91 | ε never goes below `epsilon_end` |
| DqnAgent.EpsilonNonIncreasing | src/dqn_agent.py:91 | ε never rises from one update to the next |
| DqnAgent.EpsilonStaysAtFloor | src/dqn_agent.py:91 | once ε equals the floor it stays there |
| DqnAgent.EpsilonReachesFloor | src/dqn_agent.py:24-27 | after exactly `decay_steps` updates ε equals `epsilon_end` |
| DqnAgent.EpsilonSettled | src/dqn_agent.py:90-91 | an agent on schedule that has made at least `decay_steps` updates has ε at the floor |
| DqnAgent.ArgMax | src/dqn_agent.py:52 | `argmax` is a valid index of a maximal value, and the first such index (torch.argmax's rule: the first maximal index) |
| DqnAgent.MaxOf | src/dqn_agent.py:78 | `max(dim=1)` is at least every entry and equals one of them |
| DqnAgent.GreedyAction | src/dqn_agent.py:51-52 | the greedy action is the argmax of the live network's Q-values |
| DqnAgent.Agent.SelectAction | src/dqn_agent.py:44-52 | the action is below `n_actions`; when exploring and the draw is below ε it is the random action; with `evaluate=True` or a draw at or above ε it is a maximal Q-value's index, whatever ε is |
| DqnAgent.Agent.StoreTransition | src/dqn_agent.py:54-56 | the transition is appended to the buffer's history and the buffer keeps the newest `capacity` items |
| DqnAgent.ReplayBuffer.constructor | src/dqn_agent.py:39 | a new buffer is empty with the given capacity |
| DqnAgent.ReplayBuffer.Push | src/dqn_agent.py:56 | the buffer holds the last `capacity` of all transitions pushed |
| DqnAgent.ReplayBuffer.Length | src/dqn_agent.py:60 | the length is the number pushed, capped at the capacity |
| DqnAgent.WindowPush | src/dqn_agent.py:56 | pushing onto the window equals the window of the extended history |
| DqnAgent.WindowActions | src/dqn_agent.py:56 | stored actions stay below `n_actions` after a push |
| DqnAgent.Sample | src/dqn_agent.py:64 | the batch has `batch_size` entries, each one of the buffer's items, chosen by the random indices |
| DqnAgent.TargetSource | src/dqn_agent.py:77-80 | the bootstrap network is the target network iff `use_target_network`, else the live one |
| DqnAgent.BootstrapTarget | src/dqn_agent.py:81 | `done = 1` gives the reward alone; `done = 0` gives `reward + γ·q` for some next Q-value q, and with γ ≥ 0 one at least every `reward + γ·q'` (the max over actions) |
| DqnAgent.Targets | src/dqn_agent.py:76-81 | one bootstrap target per batch entry, from that entry's reward, next state and done flag |
| DqnAgent.Predictions | src/dqn_agent.py:73 | the gathered Q-value of each entry's own action |
| DqnAgent.SquaredErrors | src/dqn_agent.py:84 | the squared difference entry by entry |
| DqnAgent.MseLossNonNegative | src/dqn_agent.py:84 | the mean squared error is non-negative |
| DqnAgent.Agent.BatchTargets | src/dqn_agent.py:76-81 | the targets use the network `use_target_network` selects, with the agent's γ |
| DqnAgent.Agent.BatchLoss | src/dqn_agent.py:84 | the loss of a batch is non-negative |
| DqnAgent.Agent.Advance | src/dqn_agent.py:89-95 | the counter rises by one, ε steps down to the floor, and the target network becomes the live one exactly when the target network is used and the new counter is a multiple of the period |
| DqnAgent.Agent.Update | src/dqn_agent.py:58-97 | no loss iff the buffer holds fewer than `batch_size` items, and then ε, the counter and both networks are unchanged; otherwise the loss is the batch's MSE (≥ 0), the optimiser is applied to the bootstrap targets, the counter rises by one, ε steps and the target syncs on multiples; without a target network it never changes |
| DqnAgent.Agent.Snapshot | src/dqn_agent.py:103-109 | the checkpoint holds both networks, the optimiser state, ε and the counter |
| DqnAgent.Agent.Save | src/dqn_agent.py:99-109 | the saved checkpoint is the agent's snapshot |
| DqnAgent.Agent.Load | src/dqn_agent.py:111-118 | after loading, the agent's snapshot is the checkpoint; it is on schedule iff the checkpoint's ε is the schedule's value at its counter |
| DqnAgent.SaveThenLoad | src/dqn_agent.py:99-118 | saving one agent and loading into another restores ε, the counter and both networks exactly |
| EnvUtils.ScanForGoal | src/env_utils.py:33-40 | the nested scan finds the first `goal` cell in column-major order, or reports that there is none |
| EnvUtils.FirstGoalUnique | src/env_utils.py:34-40 | the first goal cell in scan order is unique |
| EnvUtils.LookedUpGoalUnique | src/env_utils.py:32-43 | the looked-up goal, first goal or fallback `(width−2, height−2)`, is determined by the grid |
| EnvUtils.RewardShapingWrapper.constructor | src/env_utils.py:17-24 | γ and the scale are stored; the potential, goal and distance start unset |
| EnvUtils.RewardShapingWrapper.GetGoalPos | src/env_utils.py:30-44 | a cached goal is returned unchanged; otherwise the grid's goal (or the fallback) is cached with `max_distance = (width−2)+(height−2)` |
| EnvUtils.RewardShapingWrapper.PotentialAt | src/env_utils.py:46-50 | the potential of a position under the cached (or freshly looked-up) goal |
| EnvUtils.PotentialAtGoal | src/env_utils.py:46-50 | Φ(goal) = scale |
| EnvUtils.PotentialBounds | src/env_utils.py:46-50 | with scale ≥ 0 and distance at most `max(max_distance, 1)`, 0 ≤ Φ ≤ scale |
| EnvUtils.PotentialMonotone | src/env_utils.py:49-50 | a position nearer the goal never has a lower potential |
| EnvUtils.RewardShapingWrapper.Reset | src/env_utils.py:52-56 | the goal cache is cleared and reloaded from the grid; the previous potential is Φ(start); observation and info pass through |
| EnvUtils.RewardShapingWrapper.Step | src/env_utils.py:58-73 | reward becomes `r + (γΦ(s') − Φ(s))`; info gains `original_reward`, `shaped_reward`, `shaping_bonus`; observation, `terminated` and `truncated` pass through; the previous potential becomes Φ(s') |
| EnvUtils.ShapingTerms | src/env_utils.py:66 | the shaping bonuses of a potential trace, one per step |
| EnvUtils.Telescoping | src/env_utils.py:66-67 | `Σ γ^(t−1)·shaping_t = γ^T·Φ(s_T) − Φ(s_0)` |
| EnvUtils.TelescopingUndiscounted | src/env_utils.py:66-67 | for γ = 1 the plain sum of bonuses is `Φ(s_T) − Φ(s_0)` |
| EnvUtils.ShapedReturn | src/env_utils.py:52-73 | over the steps since the last reset, the wrapper's discounted bonuses telescope to `γ^T·Φ(now) − Φ(start)` |
| EnvUtils.Preprocess | src/env_utils.py:82-91 | shape `(H,W,C)` becomes `(C,H,W)` with `out[c][h][w] = obs[h][w][c]/255` |
| EnvUtils.PreprocessInUnitRange | src/env_utils.py:82-87 | byte inputs land in `[0, 1]` |
| EnvUtils.PreprocessRestores | src/env_utils.py:89-91 | the remap loses nothing: transposing back and scaling by 255 gives the bytes |
| Gym.Step | src/train.py:117 | once `max_steps` actions are taken, the step is truncated and ends the episode; the reward, observation and `terminated` are the environment's |
| Episodes.Rollout | src/train.py:41-45 | the greedy rollout is non-empty, answers each action by the environment, ends at its first done step, and stays within `max_steps` |
| Episodes.RolloutConsistent | src/train.py:41-45 | every move of the rollout is the policy's action on the previous observation and the environment's answer |
| Episodes.EpisodeLength | src/evaluate.py:34-41 | an episode takes between 1 and `max(max_steps, 1)` steps |
| Episodes.ReturnAppend | src/train.py:44 | the return grows by each step's reward |
| Train.GreedyEpisode | src/train.py:37-49 | the loop's return is the greedy episode's return; the episode counts as a success iff it ended `terminated` with a positive return |
| Train.GreedyEpisodes | src/train.py:36-49 | `total_rewards` is the episodes' returns in order; `successes` counts the successful ones |
| Train.Evaluate | src/train.py:30-52 | the success rate is `successes / num_episodes` and lies in `[0, 1]`; the average reward is the mean return; actions are greedy on an unshaped environment |
| Train.DoneFlag | src/train.py:118-124 | the stored done flag is 1.0 iff the step terminated or truncated, else 0.0 |
| Train.OriginalRewards | src/train.py:121-122 | one original reward per step: `info["original_reward"]`, or the step reward when absent |
| Train.TransitionsAt | src/train.py:116-132 | transition i stores the previous observation, the action, the received reward, the next observation and the done flag |
| Train.TrainStep | src/train.py:116-126 | the action is the ε-greedy choice of the agent as it stood: the random action when the draw is below ε, else the live network's first best action; the transition carries the received reward and done flag; when the global counter is a multiple of 4 and the buffer holds a batch, the loss is that batch's MSE (≥ 0), the optimiser is applied to it, the update counter rises by one, ε steps and the target syncs on schedule; otherwise no loss is reported and the agent's state is unchanged |
| Train.MovedMeans | src/train.py:126-130 | a move reports a loss iff the global counter is a multiple of 4 and the buffer holds a batch; a move without a loss leaves the agent unchanged; a loss is non-negative and adds exactly one to the update counter, with ε then at the floor or exactly `decay` lower |
| Train.PlayStep | src/train.py:116-135 | one pass of the step loop extends the trace by one valid, environment-answered move chosen ε-greedily by the agent as it stood, pushes its transition, records the agent's new state and the loss reported, and keeps the running sums and counts equal to those of the trace |
| Train.PlayEpisode | src/train.py:115-135 | the loop plays one episode to its done step and pushes one transition per step; every move is the ε-greedy choice of the agent as it stood before that move; every change of the agent follows the every-fourth-step update rule with the buffer length of that step; the update counter rises by exactly the number of losses reported |
| Train.AverageLoss | src/train.py:137 | `episode_loss / max(loss_count, 1)`: 0 with no loss, else the mean loss |
| Train.TrainEpisode | src/train.py:106-137 | the episode is played with valid, ε-greedy actions and the update rule step by step; its length, shaped and original returns are the sums over its moves; the step counter advances by the length; the update counter rises by the number of losses reported; the average loss is the mean of those losses, 0 without any |
| Train.MultiplesInExactly | src/train.py:185-186 | the checkpointed episodes are exactly the multiples of `save_freq` in range, in increasing order |
| Train.ProgressMeans | src/train.py:115-135 | a trace is played iff every step answers the actions so far, only the last may be done, and every action is valid |
| Train.FinishEpisode | src/train.py:150-186 | the CSV row holds the episode, the counter, ε, the original return, the length and the average loss; eval columns are filled iff `episode % eval_freq == 0`; a checkpoint is saved iff `episode % save_freq == 0` |
| Train.RowsLoggedAt | src/train.py:173-182 | row k belongs to episode k+1: its step count is the steps before it plus its length, its original return, length and average loss are those of the episode's own trace and reported losses, its ε is the agent's after the episode, and that trace was played from the agent's state at the end of episode k |
| Train.TrainRound | src/train.py:106-186 | one iteration of the outer loop plays episode k from the agent's current state and writes its row and, on schedule, its checkpoint; the buffer grows by the episode's length and the update counter by its losses |
| Train.LogRound | src/train.py:106-186 | appending one round's row, checkpoint and end state keeps the whole log, the checkpoint schedule, the buffer size and the update counter consistent with the episodes played |
| Train.Train | src/train.py:106-195 | `num_episodes` rows, each the record of its own episode; checkpoints exactly at the multiples of `save_freq`, each the agent's state after that episode; the final model is the state after the last episode; the update counter rose by the number of losses reported; one transition pushed per step; a 100-episode greedy final evaluation |
| Evaluate.RolloutFrames | src/evaluate.py:35-36 | one picture per step, the first before any action |
| Evaluate.EpisodeFramesAt | src/evaluate.py:35-36 | picture k is taken after the episode's first k actions |
| Evaluate.RecordedEpisode | src/evaluate.py:34-43 | `episode_reward` is the greedy episode's return and `episode_length` its length; success iff the last step `terminated` with a positive return; pictures only when kept |
| Evaluate.RecordStep | src/evaluate.py:35-41 | one pass of the loop keeps the recorder in step with the greedy episode and shortens what is left of it |
| Evaluate.PlayResult | src/evaluate.py:28-50 | the results entry of one episode is its number, return, length, success and frames |
| Evaluate.ResultFacts | src/evaluate.py:43-50 | each entry carries its number, a length within `max_steps`, success only with a positive return, and frames (one per step) iff recording and `ep < 5` |
| Evaluate.EvaluateModel | src/evaluate.py:17-53 | the results are those of episodes 0..n−1 in order, played greedily by the loaded checkpoint's network |
| Evaluate.ResultsOfAppend | src/evaluate.py:44-50 | the results of one more episode extend the list by that episode's entry |
| Evaluate.SummaryRate | src/evaluate.py:124 | the mean of the success flags is successes / episodes, in `[0, 1]` |
| Evaluate.SuccessesOfResults | src/evaluate.py:124 | the success flags of the results are the episodes' successes |
| Evaluate.RewardsOfResults | src/evaluate.py:125 | the rewards of the results are the episodes' returns |
| Evaluate.SummaryAgreesWithTraining | src/evaluate.py:124-125 | the post-hoc success rate and mean reward equal what training's `evaluate` reports for the same weights and environment |
| Evaluate.ConfigForDirName | src/evaluate.py:87-95 | the `_seed{n}` suffix never changes which configuration (no-target, then gamma, then shaping, else default) a run's name selects |
| Evaluate.SeedTextOfDirName | src/evaluate.py:101-102 | a training directory's name contains `seed`, and the text cut after the last `seed` up to the first `_` is the seed's digits |
| Evaluate.SeedForDirName | src/evaluate.py:101-106 | the seed read back from a directory name is the seed the run was trained with |
| Evaluate.GammaForDirName | src/evaluate.py:108-115 | for a run named `…gamma g`, the γ text is `g` and γ becomes `float(g)`, or stays as configured when that fails |
| Visualize.LoadTrainingLog | src/visualize.py:14-33 | the loop reads the rows as the row-by-row reading does, failing at the first row that does not parse |
| Visualize.ReadRowsSucceeds | src/visualize.py:19-26 | reading succeeds iff every row parses |
| Visualize.ReadRowsAt | src/visualize.py:20-22 | one episode, reward and loss per row, read by `int()`/`float()`; an empty loss reads as 0 |
| Visualize.Filled | src/visualize.py:23-26 | the rows whose eval column is non-empty, in order |
| Visualize.ReadRowsEval | src/visualize.py:23-26 | eval points are recorded exactly for the rows with a non-empty eval column, each paired with that row's episode |
| Visualize.SmoothMovingAverage | src/visualize.py:36-41 | input shorter than the window comes back unchanged; otherwise `len − window + 1` values, the k-th the mean of `data[k..k+window)` |
| Visualize.SmoothBounds | src/visualize.py:36-41 | smoothing keeps values within any bounds of the input |
| Visualize.MinLength | src/visualize.py:60 | `min_len` is at most every log's length and equals one of them |
| Visualize.CurvesAligned | src/visualize.py:60-61 | after truncation to `min_len`, every smoothed curve has the same length |
| Visualize.MeanCurveBounds | src/visualize.py:61-62 | the mean curve lies within any bounds of the rewards |
| Visualize.EvalSrGroups | src/visualize.py:76-79 | `all_srs` groups every eval point of every log by episode |
| Visualize.GroupedKeys | src/visualize.py:79 | `setdefault(...).append` creates a key for exactly the keys seen |
| Visualize.GroupedValues | src/visualize.py:79 | each key's list holds its values in order |
| Visualize.MeanPointsFacts | src/visualize.py:80-81 | the mean curve lists every episode seen once in ascending order, each with the mean of its values |
| Visualize.MeanPointsBounds | src/visualize.py:80-81 | with success rates in `[0, 1]`, the mean points lie in `[0, 1]` |
| Visualize.BaseNameOfDirName | src/visualize.py:117 | `rsplit("_seed", 1)[0]` of a training directory recovers the experiment name |
| Visualize.GroupByBase | src/visualize.py:111-118 | the loop groups success rates by base name |
| Visualize.GroupMeanBounds | src/visualize.py:123-125 | each group's mean lies within the bounds of the rates |
| Visualize.GammaKeyOfDirName | src/visualize.py:161-167 | a gamma-ablation directory's key is `float()` of its γ text |
| Visualize.GammaPointsKeys | src/visualize.py:161-170 | every γ key comes from a run whose name contains `ablation_gamma` and whose γ text parsed |
| Visualize.GroupByGamma | src/visualize.py:156-170 | the loop groups success rates by parsed γ, skipping runs outside the ablation or with unparseable γ |
| Visualize.TargetArmConfig | src/visualize.py:210-213 | a run goes to "Without" iff `evaluate.py` picks the no-target configuration for it; a run in "With" is evaluated with the reward-shaping one |
| Visualize.ArmRatesFrom | src/visualize.py:210-213 | every rate in an arm is the success rate of a run classified to that arm |
| Visualize.GroupByArm | src/visualize.py:205-213 | the loop builds the two arms' lists in row order |
| Visualize.ArmMeanBounds | src/visualize.py:216 | an empty arm shows 0; otherwise the mean rate lies in `[0, 1]` |
| PyStr.SplitHead | src/evaluate.py:102 | `split(sep)[0]`: the prefix before the first separator, the whole text when there is none |
| PyStr.SplitTail | src/evaluate.py:102 | `split(sep)[-1]`: a suffix without the separator, the whole text when there is none |
| PyStr.SplitTailAfterLast | src/evaluate.py:102 | for a separator without a border (`"seed"`, `"gamma"`, `"_seed"`, `"_"`), `split(sep)[-1]` is exactly the text after the last occurrence that `rfind` returns |
| PyStr.RSplitHead | src/visualize.py:117 | `rsplit(sep, 1)[0]`: the prefix before the last separator, the whole text when there is none |
| PyStr.ParseIntOfIntToString | src/evaluate.py:104 | `int(f"{n}") == n` |

## Left out

- The Q-network (`src/network.py` is not part of this model) is an opaque function from parameters and a state to Q-values. `QNetShape` only says it returns `n_actions` values.
- The Adam step, backpropagation and `zero_grad` (src/dqn_agent.py:85-87) are one opaque function from parameters, optimiser state, batch and targets to new parameters and state.
- Tensor conversion and device placement are not modelled.
- Floats are Dafny `real`. float32/float64 rounding is not modelled, so "ε reaches the floor after exactly `decay_steps` updates" holds exactly only in this idealisation.
- Randomness: `np.random.random()`, `np.random.randint` and buffer sampling are oracle parameters (a draw, an action reduced modulo `n_actions`, indices reduced modulo the buffer length), not a PRNG.
- `set_seed` and the fixed seeding before evaluation are left out for the same reason.
- The replay buffer: `src/replay_buffer.py` is not part of this model. The buffer is a FIFO window of `capacity` items; sampling with or without replacement is not modelled.
- `Gym.Step`: the MiniGrid environment (`gym.make`, grid internals, `ImgObsWrapper`) is a transition oracle indexed by episode and actions so far, with MiniGrid's `max_steps` truncation written out. The agent position and grid the wrapper reads are parameters.
- `make_env` (src/env_utils.py:94-107) only wires wrappers together.
- The evaluation environments are oracle parameters: `evaluate` builds them without shaping.
- All file and console I/O is left out. This covers the CSV and TensorBoard writers, `torch.save`/`torch.load`, `final_results.txt`, `evaluation_summary.csv`, `print` status lines (including the `log_freq` line), the matplotlib plots, frame `.npy` files and GIF writing (`generate_gif`).
- A checkpoint is a value passed from `Save` to `Load`.
- `float()` is an oracle parameter `parseFloat`.
- The `.4f`/`.6f` formatting of CSV fields is not modelled: a logged row holds the raw values.
- The summary rows' `success_rate` is taken as already-parsed reals.
- `PyStr.ParseInt` models `int()` on ASCII text only: Unicode digits and Unicode whitespace are not modelled.
- `np.std`, and the error bars drawn from it, are left out.
- The order of plotted groups (`sorted(groups.items())`, `sorted(gamma_results.keys())`) is not modelled. The groupings are maps.
- `Visualize.MeanPoints` orders the episodes with the ghost function `SortedInts`; the compiled `sorted(all_srs.keys())` has no method of its own.
- The directory listing and the `exp_name in d.name` filter in `plot_training_curves` are not modelled: the logs are given as a sequence.
- The `all(m == 0 for m in means)` plot guard only decides whether a figure is drawn, so it is not modelled.
- `Train.Evaluate`: requires `num_episodes > 0`. The source divides by `num_episodes` and raises on zero; the model excludes that case instead of modelling the exception.
- `Evaluate.SummaryRate`: requires a non-empty result list, where `np.mean` of an empty list gives NaN with a warning.
- `Visualize.SmoothMovingAverage`: requires `window > 0`. `np.ones(0) / 0` is not modelled.
- `Evaluate.ConfigFor`, `Evaluate.SeedFor` and `Evaluate.GammaFor` return a file name, a seed and a γ. `load_config` and the writes into the config dictionary are not modelled.
- `Train.ExperimentDirName` is the `f"{name}_seed{seed}"` rule of src/train.py:62. Output and log directory paths are not modelled.
- `DqnAgent.Agent.constructor`: requires `epsilon_decay_steps > 0` and, when the target network is used, `target_update_freq > 0`. The source divides by the first at src/dqn_agent.py:27 and takes the counter modulo the second at src/dqn_agent.py:94, raising `ZeroDivisionError` on zero; the model excludes those configurations instead of modelling the exception. `n_actions > 0` comes from MiniGrid's action space, and `batch_size > 0` and `buffer_size > 0` rest on `src/replay_buffer.py`, which is not part of this model.
- `Train.Train`/`Train.FinishEpisode`: require `eval_freq > 0` and `save_freq > 0`. The source takes the episode number modulo them at src/train.py:151 and src/train.py:185 and raises `ZeroDivisionError` on zero; the model excludes that case.
- `EnvUtils.RewardShapingWrapper.Step`: requires `prev_potential` to be set, that is, `reset` called first; `EnvUtils.ShapedReturn` requires the same. A `step` before any `reset` raises in the source: `prev_potential` starts as `None` (src/env_utils.py:21) and the subtraction at src/env_utils.py:66 raises `TypeError`, after the inner environment's own reset-order check. Every caller in the training and evaluation scripts resets first, so the model leaves out that exception.
- `PyStr.SplitTail`: for a separator with a border (such as `"aa"`), the contract does not fix which occurrence the last piece follows. `PyStr.SplitTailAfterLast` pins it down for separators without one, which are the only ones the scripts split on.
- `Train.PlayEpisode`: the per-move record `Moved` states the counter, ε and target network after an update, but not which batch was sampled or what the optimiser returned. `Train.TrainStep` states both for each single step.
- `Train.Train`: the TensorBoard scalars and the `recent_rewards`/`recent_losses` lists only feed output. The row list is modelled instead.
