/**
 * The DQN agent: an epsilon-greedy policy over a Q-network, a replay buffer, an
 * optional target network synchronised every `target_update_freq` updates, and the
 * bookkeeping of `update` (the guard, the bootstrap target, the update counter and
 * the linear epsilon decay). Networks and the optimiser are opaque functions; what
 * the model keeps exactly is the control logic around them.
 */
module DqnAgent {
  import opened Wrappers
  import opened Numeric
  import opened Gym

  /** Network weights, flattened. */
  type Params = seq<real>

  /** The optimiser's own state (Adam's moment estimates), flattened. */
  type OptState = seq<real>

  /** The forward pass of the Q-network: one value per action. */
  type QNet = (Params, Obs) -> seq<real>

  /**
   * `zero_grad`, `backward` and `step` on the MSE between the predictions for
   * `batch` and `targets`: the new parameters and optimiser state.
   */
  type Optimiser = (Params, OptState, seq<Transition>, seq<real>) -> (Params, OptState)

  /** What `store_transition` hands to the buffer; `done` is `float(done)`. */
  datatype Transition = Transition(state: Obs, action: nat, reward: real, nextState: Obs, done: real)

  /** The `agent` section of the configuration. */
  datatype AgentConfig = AgentConfig(
    gamma: real,
    batchSize: nat,
    useTargetNetwork: bool,
    targetUpdateFreq: nat,
    epsilonStart: real,
    epsilonEnd: real,
    epsilonDecaySteps: nat,
    lr: real,
    bufferSize: nat)

  /** The dictionary `save` writes and `load` reads. */
  datatype Checkpoint = Checkpoint(
    qNetwork: Params,
    targetNetwork: Params,
    optimizer: OptState,
    epsilon: real,
    totalSteps: nat)

  // ---------------------------------------------------------------------------
  // Greedy choice.

  /** `argmax`: the first index holding the largest value. */
  function ArgMax(xs: seq<real>): (k: nat)
    requires |xs| > 0
    ensures k < |xs|
    ensures forall i | 0 <= i < |xs| :: xs[i] <= xs[k]
    ensures forall i | 0 <= i < k :: xs[i] < xs[k]
    decreases |xs|
  {
    if |xs| == 1 then 0
    else
      var k := ArgMax(xs[..|xs| - 1]);
      assert forall i | 0 <= i < |xs| - 1 :: xs[..|xs| - 1][i] == xs[i];
      if xs[|xs| - 1] > xs[k] then |xs| - 1 else k
  }

  /** `max(dim=1)[0]` of one row: the largest value. */
  function MaxOf(xs: seq<real>): (m: real)
    requires |xs| > 0
    ensures forall i | 0 <= i < |xs| :: xs[i] <= m
    ensures exists i | 0 <= i < |xs| :: xs[i] == m
  {
    xs[ArgMax(xs)]
  }

  /** The greedy action of a row of Q-values, with 0 for the empty row no network produces. */
  function GreedyAction(qs: seq<real>): (a: nat)
    ensures |qs| > 0 ==> a == ArgMax(qs)
  {
    if |qs| == 0 then 0 else ArgMax(qs)
  }

  /** Every forward pass yields exactly one value per action. */
  ghost predicate QNetShape(net: QNet, nActions: nat)
  {
    forall p: Params, o: Obs :: |net(p, o)| == nActions
  }

  // ---------------------------------------------------------------------------
  // The regression target and the loss.

  /** `reward + gamma * max_a Q(next_state, a) * (1 - done)`. */
  function BootstrapTarget(reward: real, gamma: real, nextQ: seq<real>, done: real): (y: real)
    requires |nextQ| > 0
    ensures done == 1.0 ==> y == reward
    ensures done == 0.0 ==> exists a | 0 <= a < |nextQ| :: y == reward + gamma * nextQ[a]
    ensures done == 0.0 && gamma >= 0.0 ==> forall a | 0 <= a < |nextQ| :: reward + gamma * nextQ[a] <= y
  {
    var m := MaxOf(nextQ);
    assert done == 0.0 && gamma >= 0.0 ==> forall a | 0 <= a < |nextQ| :: gamma * nextQ[a] <= gamma * m;
    reward + gamma * m * (1.0 - done)
  }

  /** The parameters the target is computed with: the target network's iff it is used. */
  function TargetSource(useTargetNetwork: bool, qParams: Params, targetParams: Params): (p: Params)
    ensures useTargetNetwork ==> p == targetParams
    ensures !useTargetNetwork ==> p == qParams
  {
    if useTargetNetwork then targetParams else qParams
  }

  /** The bootstrap target of every transition of a batch. */
  function Targets(net: QNet, params: Params, batch: seq<Transition>, gamma: real): (ys: seq<real>)
    requires forall k | 0 <= k < |batch| :: |net(params, batch[k].nextState)| > 0
    ensures |ys| == |batch|
    ensures forall k | 0 <= k < |batch| ::
      ys[k] == BootstrapTarget(batch[k].reward, gamma, net(params, batch[k].nextState), batch[k].done)
  {
    seq(|batch|, k requires 0 <= k < |batch| =>
      BootstrapTarget(batch[k].reward, gamma, net(params, batch[k].nextState), batch[k].done))
  }

  /** `q_network(states).gather(1, actions)`: the value of the action taken. */
  function Predictions(net: QNet, params: Params, batch: seq<Transition>): (qs: seq<real>)
    requires forall k | 0 <= k < |batch| :: batch[k].action < |net(params, batch[k].state)|
    ensures |qs| == |batch|
    ensures forall k | 0 <= k < |batch| :: qs[k] == net(params, batch[k].state)[batch[k].action]
  {
    seq(|batch|, k requires 0 <= k < |batch| => net(params, batch[k].state)[batch[k].action])
  }

  function SquaredErrors(xs: seq<real>, ys: seq<real>): (es: seq<real>)
    requires |xs| == |ys|
    ensures |es| == |xs|
    ensures forall i | 0 <= i < |xs| :: es[i] == (xs[i] - ys[i]) * (xs[i] - ys[i])
  {
    seq(|xs|, i requires 0 <= i < |xs| => (xs[i] - ys[i]) * (xs[i] - ys[i]))
  }

  /** `nn.MSELoss()`: the mean squared difference. */
  function MseLoss(xs: seq<real>, ys: seq<real>): (l: real)
    requires |xs| == |ys| > 0
  {
    Mean(SquaredErrors(xs, ys))
  }

  /** The loss is never negative. */
  lemma MseLossNonNegative(xs: seq<real>, ys: seq<real>)
    requires |xs| == |ys| > 0
    ensures MseLoss(xs, ys) >= 0.0
  {
    var es := SquaredErrors(xs, ys);
    forall i | 0 <= i < |es| ensures es[i] >= 0.0 {
      var d := xs[i] - ys[i];
      assert es[i] == d * d;
    }
    SumNonNegative(es);
    var n := |es| as real;
    assert Sum(es) == MseLoss(xs, ys) * n;
  }

  // ---------------------------------------------------------------------------
  // The exploration schedule.

  /** `epsilon_decay = (epsilon_start - epsilon_end) / epsilon_decay_steps`. */
  function DecayRate(start: real, end: real, steps: nat): (d: real)
    requires steps > 0
    ensures start >= end ==> d >= 0.0
  {
    (start - end) / steps as real
  }

  /** `epsilon_decay_steps` steps of the decay rate span the whole range of the schedule. */
  lemma DecayRateSpans(start: real, end: real, steps: nat)
    requires steps > 0
    ensures DecayRate(start, end, steps) * steps as real == start - end
  {
  }

  /** `max(epsilon_end, epsilon - epsilon_decay)`. */
  function EpsilonStep(epsilon: real, end: real, decay: real): (e: real)
    ensures e >= end
    ensures e == end || e == epsilon - decay
  {
    MaxReal(end, epsilon - decay)
  }

  /** Epsilon after `k` updates that passed the guard, starting from `start`. */
  function EpsilonAfter(start: real, end: real, decay: real, k: nat): real
  {
    if k == 0 then start else EpsilonStep(EpsilonAfter(start, end, decay, k - 1), end, decay)
  }

  /** The schedule in closed form: `max(end, start - k * decay)`. */
  lemma {:induction false} EpsilonClosedForm(start: real, end: real, decay: real, k: nat)
    requires start >= end && decay >= 0.0
    ensures EpsilonAfter(start, end, decay, k) == MaxReal(end, start - k as real * decay)
  {
    if k > 0 {
      EpsilonClosedForm(start, end, decay, k - 1);
      assert start - k as real * decay == (start - (k - 1) as real * decay) - decay;
    }
  }

  /** Epsilon never drops below its floor. */
  lemma {:induction false} EpsilonAboveFloor(start: real, end: real, decay: real, k: nat)
    requires start >= end
    ensures EpsilonAfter(start, end, decay, k) >= end
  {
  }

  /** Each update lowers epsilon or leaves it where it is. */
  lemma EpsilonNonIncreasing(start: real, end: real, decay: real, k: nat)
    requires start >= end && decay >= 0.0
    ensures EpsilonAfter(start, end, decay, k + 1) <= EpsilonAfter(start, end, decay, k)
  {
    EpsilonAboveFloor(start, end, decay, k);
  }

  /** Once epsilon sits at the floor it stays there. */
  lemma {:induction false} EpsilonStaysAtFloor(start: real, end: real, decay: real, j: nat, k: nat)
    requires decay >= 0.0 && j <= k
    requires EpsilonAfter(start, end, decay, j) == end
    ensures EpsilonAfter(start, end, decay, k) == end
    decreases k - j
  {
    if j < k {
      EpsilonStaysAtFloor(start, end, decay, j, k - 1);
    }
  }

  /** After exactly `epsilon_decay_steps` updates epsilon equals `epsilon_end`. */
  lemma EpsilonReachesFloor(start: real, end: real, steps: nat)
    requires steps > 0 && start >= end
    ensures EpsilonAfter(start, end, DecayRate(start, end, steps), steps) == end
  {
    var d := DecayRate(start, end, steps);
    DecayRateSpans(start, end, steps);
    EpsilonClosedForm(start, end, d, steps);
    assert start - steps as real * d == end;
  }

  // ---------------------------------------------------------------------------
  // The replay buffer.

  /** The last `capacity` elements of `s`: what a FIFO buffer of that size holds. */
  function Window<T>(s: seq<T>, capacity: nat): (w: seq<T>)
    ensures |w| == if |s| <= capacity then |s| else capacity
    ensures w == s[|s| - |w|..]
  {
    if |s| <= capacity then s else s[|s| - capacity..]
  }

  /** Pushing onto a full window drops its oldest element. */
  lemma WindowPush<T>(s: seq<T>, t: T, capacity: nat)
    requires capacity > 0
    ensures Window(Window(s, capacity) + [t], capacity) == Window(s + [t], capacity)
  {
    var w := Window(s, capacity);
    if |s| >= capacity {
      assert (w + [t])[1..] == (s + [t])[|s| + 1 - capacity..];
    }
  }

  /** Every stored action indexes a Q-value row of `nActions` entries. */
  predicate ActionsBelow(items: seq<Transition>, nActions: nat)
  {
    forall i | 0 <= i < |items| :: items[i].action < nActions
  }

  /** Eviction keeps the bound on the actions stored. */
  lemma WindowActions(items: seq<Transition>, t: Transition, capacity: nat, nActions: nat)
    requires ActionsBelow(items, nActions) && t.action < nActions
    ensures ActionsBelow(Window(items + [t], capacity), nActions)
  {
    var s := items + [t];
    var w := Window(s, capacity);
    forall i | 0 <= i < |w| ensures w[i].action < nActions {
      assert w[i] == s[|s| - |w| + i];
    }
  }

  /** `buffer.sample(n)`: `n` transitions drawn from the buffer at the indices `pick` names. */
  function Sample(items: seq<Transition>, n: nat, pick: nat -> nat): (batch: seq<Transition>)
    requires |items| > 0
    ensures |batch| == n
    ensures forall k | 0 <= k < n :: batch[k] in items
    ensures forall k | 0 <= k < n :: batch[k] == items[pick(k) % |items|]
  {
    seq(n, k requires 0 <= k < n => items[pick(k) % |items|])
  }

  /** A fixed-capacity buffer of transitions that evicts the oldest one when full. */
  class ReplayBuffer {
    const capacity: nat
    var items: seq<Transition>
    /** Everything ever pushed, oldest first. */
    ghost var pushed: seq<Transition>

    ghost predicate Valid()
      reads this
    {
      capacity > 0 && items == Window(pushed, capacity)
    }

    constructor (capacity: nat)
      requires capacity > 0
      ensures Valid() && this.capacity == capacity
      ensures items == [] && pushed == []
    {
      this.capacity := capacity;
      items := [];
      pushed := [];
    }

    /** `len(buffer)`. */
    function Length(): (n: nat)
      reads this
      requires Valid()
      ensures n <= capacity
      ensures n == if |pushed| <= capacity then |pushed| else capacity
    {
      |items|
    }

    method Push(t: Transition)
      requires Valid()
      modifies this
      ensures Valid()
      ensures pushed == old(pushed) + [t]
      ensures items == Window(old(items) + [t], capacity)
    {
      WindowPush(pushed, t, capacity);
      if |items| == capacity {
        items := items[1..] + [t];
      } else {
        items := items + [t];
      }
      pushed := pushed + [t];
    }
  }

  // ---------------------------------------------------------------------------
  // The agent.

  class Agent {
    const nActions: nat
    const config: AgentConfig
    const net: QNet
    const optimise: Optimiser
    const epsilonDecay: real
    const buffer: ReplayBuffer

    var epsilon: real
    var qParams: Params
    var targetParams: Params
    var optState: OptState
    var totalSteps: nat

    ghost predicate Valid()
      reads this, buffer
    {
      && nActions > 0
      && config.batchSize > 0
      && config.epsilonDecaySteps > 0
      && (config.useTargetNetwork ==> config.targetUpdateFreq > 0)
      && QNetShape(net, nActions)
      && buffer.Valid()
      && buffer.capacity == config.bufferSize
      && ActionsBelow(buffer.items, nActions)
    }

    /** Epsilon is where the schedule puts it after `totalSteps` updates. */
    ghost predicate OnSchedule()
      reads this
    {
      epsilon == EpsilonAfter(config.epsilonStart, config.epsilonEnd, epsilonDecay, totalSteps)
    }

    /** `DQNAgent(obs_shape, n_actions, config)`; `initParams` is the fresh network's weights. */
    constructor (nActions: nat, config: AgentConfig, net: QNet, optimise: Optimiser,
                 initParams: Params, initOpt: OptState)
      requires nActions > 0 && config.batchSize > 0 && config.epsilonDecaySteps > 0 && config.bufferSize > 0
      requires config.useTargetNetwork ==> config.targetUpdateFreq > 0
      requires QNetShape(net, nActions)
      ensures Valid() && fresh(buffer) && OnSchedule()
      ensures epsilonDecay == DecayRate(config.epsilonStart, config.epsilonEnd, config.epsilonDecaySteps)
      ensures this.nActions == nActions && this.config == config && this.net == net && this.optimise == optimise
      ensures epsilon == config.epsilonStart && totalSteps == 0
      ensures qParams == initParams && targetParams == qParams && optState == initOpt
      ensures buffer.items == []
    {
      this.nActions := nActions;
      this.config := config;
      this.net := net;
      this.optimise := optimise;
      epsilonDecay := DecayRate(config.epsilonStart, config.epsilonEnd, config.epsilonDecaySteps);
      buffer := new ReplayBuffer(config.bufferSize);
      epsilon := config.epsilonStart;
      qParams := initParams;
      targetParams := initParams;
      optState := initOpt;
      totalSteps := 0;
    }

    /**
     * `select_action(state, evaluate)`; `draw` is `np.random.random()` and
     * `randomAction` the value behind `np.random.randint(n_actions)`.
     */
    method SelectAction(state: Obs, evaluate: bool, draw: real, randomAction: nat) returns (a: nat)
      requires Valid()
      ensures a < nActions
      ensures !evaluate && draw < epsilon ==> a == randomAction % nActions
      ensures evaluate || draw >= epsilon ==> a == GreedyAction(net(qParams, state))
      ensures evaluate || draw >= epsilon ==>
        forall i | 0 <= i < nActions :: net(qParams, state)[i] <= net(qParams, state)[a]
    {
      if !evaluate && draw < epsilon {
        a := randomAction % nActions;
      } else {
        a := ArgMax(net(qParams, state));
      }
    }

    method StoreTransition(state: Obs, action: nat, reward: real, nextState: Obs, done: real)
      requires Valid() && action < nActions
      modifies buffer
      ensures Valid()
      ensures buffer.pushed == old(buffer.pushed) + [Transition(state, action, reward, nextState, done)]
      ensures buffer.items == Window(old(buffer.items) + [Transition(state, action, reward, nextState, done)], buffer.capacity)
    {
      var t := Transition(state, action, reward, nextState, done);
      WindowActions(buffer.items, t, buffer.capacity, nActions);
      buffer.Push(t);
    }

    /** The bootstrap targets `update` regresses `batch` onto, from the current weights. */
    function BatchTargets(batch: seq<Transition>): (ys: seq<real>)
      reads this, buffer
      requires Valid()
      ensures |ys| == |batch|
      ensures forall k | 0 <= k < |batch| :: ys[k] == BootstrapTarget(batch[k].reward, config.gamma,
        net(TargetSource(config.useTargetNetwork, qParams, targetParams), batch[k].nextState), batch[k].done)
    {
      Targets(net, TargetSource(config.useTargetNetwork, qParams, targetParams), batch, config.gamma)
    }

    /** The loss `update` reports for `batch`: the MSE between Q(s, a) and the targets. */
    function BatchLoss(batch: seq<Transition>): (l: real)
      reads this, buffer
      requires Valid() && |batch| > 0 && ActionsBelow(batch, nActions)
      ensures l >= 0.0
    {
      var predictions := Predictions(net, qParams, batch);
      MseLossNonNegative(predictions, BatchTargets(batch));
      MseLoss(predictions, BatchTargets(batch))
    }

    /**
     * The bookkeeping after an optimiser step: one more on the counter, one epsilon
     * decay step and, on every `target_update_freq`-th update, a copy of the live
     * weights into the target network.
     */
    method Advance()
      requires Valid()
      modifies this
      ensures Valid()
      ensures qParams == old(qParams) && optState == old(optState)
      ensures totalSteps == old(totalSteps) + 1
      ensures epsilon == EpsilonStep(old(epsilon), config.epsilonEnd, epsilonDecay)
      ensures targetParams == if config.useTargetNetwork && totalSteps % config.targetUpdateFreq == 0
                              then qParams else old(targetParams)
      ensures old(OnSchedule()) ==> OnSchedule()
    {
      totalSteps := totalSteps + 1;
      epsilon := EpsilonStep(epsilon, config.epsilonEnd, epsilonDecay);
      if config.useTargetNetwork && totalSteps % config.targetUpdateFreq == 0 {
        targetParams := qParams;
      }
    }

    /**
     * `update()`: nothing happens while the buffer holds fewer than `batch_size`
     * transitions; otherwise one optimiser step on a sampled batch, then `Advance`.
     * `pick` stands for the sampler's random indices.
     */
    method Update(pick: nat -> nat) returns (loss: Option<real>)
      requires Valid()
      modifies this
      ensures Valid()
      ensures loss.None? <==> |buffer.items| < config.batchSize
      ensures loss.None? ==>
        && epsilon == old(epsilon) && totalSteps == old(totalSteps)
        && qParams == old(qParams) && targetParams == old(targetParams) && optState == old(optState)
      ensures loss.Some? ==>
        var batch := Sample(buffer.items, config.batchSize, pick);
        && loss.value == old(BatchLoss(batch))
        && (qParams, optState) == optimise(old(qParams), old(optState), batch, old(BatchTargets(batch)))
        && totalSteps == old(totalSteps) + 1
        && epsilon == EpsilonStep(old(epsilon), config.epsilonEnd, epsilonDecay)
        && targetParams == if config.useTargetNetwork && totalSteps % config.targetUpdateFreq == 0
                           then qParams else old(targetParams)
      ensures loss.Some? ==> loss.value >= 0.0
      ensures !config.useTargetNetwork ==> targetParams == old(targetParams)
      ensures old(OnSchedule()) ==> OnSchedule()
    {
      if |buffer.items| < config.batchSize {
        return None;
      }
      var batch := Sample(buffer.items, config.batchSize, pick);
      var targets := BatchTargets(batch);
      loss := Some(BatchLoss(batch));
      var next := optimise(qParams, optState, batch, targets);
      qParams, optState := next.0, next.1;
      Advance();
    }

    /** What a checkpoint of this agent holds. */
    function Snapshot(): (c: Checkpoint)
      reads this
      ensures c.epsilon == epsilon && c.totalSteps == totalSteps
      ensures c.qNetwork == qParams && c.targetNetwork == targetParams && c.optimizer == optState
    {
      Checkpoint(qParams, targetParams, optState, epsilon, totalSteps)
    }

    /** `save(path)`, with the file left out: the dictionary written. */
    method Save() returns (c: Checkpoint)
      ensures c == Snapshot()
    {
      c := Checkpoint(qParams, targetParams, optState, epsilon, totalSteps);
    }

    /** `load(path)`, with the file left out: the agent takes over every saved field. */
    method Load(c: Checkpoint)
      requires Valid()
      modifies this
      ensures Valid()
      ensures Snapshot() == c
      ensures OnSchedule() <==> c.epsilon == EpsilonAfter(config.epsilonStart, config.epsilonEnd, epsilonDecay, c.totalSteps)
    {
      qParams := c.qNetwork;
      targetParams := c.targetNetwork;
      optState := c.optimizer;
      epsilon := c.epsilon;
      totalSteps := c.totalSteps;
    }
  }

  /** Saving one agent and loading the result into another restores every saved field. */
  method SaveThenLoad(source: Agent, dest: Agent)
    requires source.Valid() && dest.Valid()
    modifies dest
    ensures dest.Snapshot() == old(source.Snapshot())
    ensures dest.epsilon == old(source.epsilon) && dest.totalSteps == old(source.totalSteps)
    ensures dest.qParams == old(source.qParams) && dest.targetParams == old(source.targetParams)
  {
    var c := source.Save();
    dest.Load(c);
  }

  /** An agent still on its schedule has reached `epsilon_end` after `epsilon_decay_steps` updates. */
  lemma EpsilonSettled(a: Agent)
    requires a.Valid() && a.OnSchedule()
    requires a.epsilonDecay == DecayRate(a.config.epsilonStart, a.config.epsilonEnd, a.config.epsilonDecaySteps)
    requires a.config.epsilonStart >= a.config.epsilonEnd
    requires a.totalSteps >= a.config.epsilonDecaySteps
    ensures a.epsilon == a.config.epsilonEnd
  {
    var c := a.config;
    EpsilonReachesFloor(c.epsilonStart, c.epsilonEnd, c.epsilonDecaySteps);
    EpsilonStaysAtFloor(c.epsilonStart, c.epsilonEnd, a.epsilonDecay, c.epsilonDecaySteps, a.totalSteps);
  }
}
