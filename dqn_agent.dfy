/** The DQN agent's control logic: epsilon-greedy action choice, storing experience, one
    training step (TD targets, fit, epsilon decay, target-network refresh), reset and dispose.
    The neural network is abstract: `predict` maps weights and a state to Q-values, and the
    fit is an arbitrary function supplied per training step. */
module Dqn {
  import opened Common
  import opened Types
  import opened ReplayMemory

  /** The parameters of one network, opaque to the agent. */
  datatype Weights = Weights(params: seq<real>)

  /** A network's forward pass: the Q-value vector for a state under the given weights. */
  type Network = (Weights, State) -> seq<real>

  /** What one `fit` call does to the online weights, given the batch states and targets. */
  type FitOracle = (Weights, seq<State>, seq<seq<real>>) -> Weights

  /** Where inside the training body an exception is raised, if anywhere. It is always caught. */
  datatype Fault =
    | NoFault
    | FailBeforeFit   // building tensors, predicting or fitting throws; nothing is updated
    | FailAfterFit    // the fit has run, then reading the loss throws; epsilon and counter stay
    | FailAtSync      // copying the weights into the target network throws

  /** The network built from the configuration outputs one Q-value per action. */
  ghost predicate OutputsActions(predict: Network, actionSize: nat) {
    forall w: Weights, s: State :: |predict(w, s)| == actionSize
  }

  /** `Math.max(...s)` for a non-empty vector. */
  function MaxOf(s: seq<real>): (m: real)
    requires |s| > 0
    ensures m in s
    ensures forall i :: 0 <= i < |s| ==> s[i] <= m
  {
    if |s| == 1 then s[0]
    else
      var rest := MaxOf(s[1..]);
      if s[0] >= rest then s[0] else rest
  }

  /** `k` is the position the argmax loop returns: a maximum, and no earlier entry is as large. */
  predicate IsFirstArgMax(q: seq<real>, k: int) {
    0 <= k < |q| &&
    (forall j :: 0 <= j < |q| ==> q[j] <= q[k]) &&
    (forall j :: 0 <= j < k ==> q[j] < q[k])
  }

  /** The strict `>` comparison starting from index 0 determines the result uniquely. */
  lemma FirstArgMaxUnique(q: seq<real>, k1: int, k2: int)
    requires IsFirstArgMax(q, k1) && IsFirstArgMax(q, k2)
    ensures k1 == k2
  {
    assert q[k1] == q[k2] by {
      assert q[k1] <= q[k2] && q[k2] <= q[k1];
    }
    assert !(k1 < k2) && !(k2 < k1);
  }

  /** The exploitation branch of `getAction`: index of the largest Q-value, lowest on ties;
      0 for an empty vector. */
  method ArgMax(q: seq<real>) returns (maxIndex: nat)
    ensures q == [] ==> maxIndex == 0
    ensures q != [] ==> IsFirstArgMax(q, maxIndex)
  {
    maxIndex := 0;
    var i := 1;
    while i < |q|
      invariant 1 <= i <= Max(|q|, 1)
      invariant q != [] ==> maxIndex < i
      invariant q == [] ==> maxIndex == 0
      invariant forall j :: 0 <= j < i && j < |q| ==> q[j] <= q[maxIndex]
      invariant forall j :: 0 <= j < maxIndex ==> q[j] < q[maxIndex]
    {
      if q[i] > q[maxIndex] {
        maxIndex := i;
      }
      i := i + 1;
    }
  }

  /** The value the target row holds at the taken action. */
  function TdTarget(exp: Experience, gamma: real, nextQ: seq<real>): real
    requires |nextQ| > 0
  {
    if exp.done then exp.reward else exp.reward + gamma * MaxOf(nextQ)
  }

  /** The training label for one sampled experience: the online prediction `q`, with the
      entry of the taken action replaced by its TD target. */
  function TargetRow(q: seq<real>, exp: Experience, gamma: real, nextQ: seq<real>): (row: seq<real>)
    requires 0 <= exp.action < |q| && |nextQ| > 0
    ensures |row| == |q|
    ensures forall j :: 0 <= j < |q| && j != exp.action ==> row[j] == q[j]
    ensures exp.done ==> row[exp.action] == exp.reward
    ensures !exp.done ==> row[exp.action] == exp.reward + gamma * MaxOf(nextQ)
  {
    q[exp.action := TdTarget(exp, gamma, nextQ)]
  }

  /** With a non-negative discount, the target of a non-terminal transition is the best
      one-step return over all next actions. */
  lemma TdTargetIsBestReturn(exp: Experience, gamma: real, nextQ: seq<real>)
    requires |nextQ| > 0 && gamma >= 0.0 && !exp.done
    ensures forall j :: 0 <= j < |nextQ| ==> TdTarget(exp, gamma, nextQ) >= exp.reward + gamma * nextQ[j]
    ensures exists j :: 0 <= j < |nextQ| && TdTarget(exp, gamma, nextQ) == exp.reward + gamma * nextQ[j]
  {
    var m := MaxOf(nextQ);
    forall j | 0 <= j < |nextQ|
      ensures gamma * m >= gamma * nextQ[j]
    {
      ScaleMonotone(gamma, nextQ[j], m);
    }
    var k :| 0 <= k < |nextQ| && nextQ[k] == m;
  }

  lemma ScaleMonotone(c: real, x: real, y: real)
    requires c >= 0.0 && x <= y
    ensures c * x <= c * y
  {
    assert c * y - c * x == c * (y - x);
  }

  /** Every sampled action indexes a Q-value row. For any other action the old Q-value read
      for the log line is `undefined`, and formatting it throws, so the step fails. */
  predicate ActionsFit(batch: seq<Experience>, actionSize: nat) {
    forall i :: 0 <= i < |batch| ==> 0 <= batch[i].action < actionSize
  }

  /** Every sampled state and next state has the network's input width: `tf.tensor2d` and
      `predict` reject a batch with any other row length. */
  predicate StatesFit(batch: seq<Experience>, inputSize: nat) {
    forall i :: 0 <= i < |batch| ==> |batch[i].state| == inputSize && |batch[i].nextState| == inputSize
  }

  function States(batch: seq<Experience>): seq<State> {
    seq(|batch|, i requires 0 <= i < |batch| => batch[i].state)
  }

  /** The targets passed to `fit`: one row per sampled experience, from the online network's
      prediction on its state and the target network's prediction on its next state. */
  function TargetRows(batch: seq<Experience>, predict: Network, online: Weights, target: Weights,
                      gamma: real, actionSize: nat): seq<seq<real>>
    requires actionSize >= 1 && OutputsActions(predict, actionSize) && ActionsFit(batch, actionSize)
  {
    seq(|batch|, i requires 0 <= i < |batch| =>
      TargetRow(predict(online, batch[i].state), batch[i], gamma, predict(target, batch[i].nextState)))
  }

  /** The epsilon update after a fit: multiply by the decay only while above the minimum. */
  function Decayed(epsilon: real, minEpsilon: real, decay: real): real {
    if epsilon > minEpsilon then epsilon * decay else epsilon
  }

  /** With a decay factor in [0, 1], epsilon never grows. */
  lemma DecayNeverIncreases(epsilon: real, minEpsilon: real, decay: real)
    requires 0.0 <= decay <= 1.0 && epsilon >= 0.0
    ensures Decayed(epsilon, minEpsilon, decay) <= epsilon
  {
    if epsilon > minEpsilon {
      assert epsilon - epsilon * decay == epsilon * (1.0 - decay);
    }
  }

  /** There is no clamp, but epsilon can undershoot the minimum by at most one step: it never
      falls below `minEpsilon * decay` once it starts at or above that value. */
  lemma DecayFloor(epsilon: real, minEpsilon: real, decay: real)
    requires decay >= 0.0 && epsilon >= minEpsilon * decay
    ensures Decayed(epsilon, minEpsilon, decay) >= minEpsilon * decay
  {
    if epsilon > minEpsilon {
      assert epsilon * decay - minEpsilon * decay == (epsilon - minEpsilon) * decay;
    }
  }

  /** With the documented defaults, a value just above the minimum decays to below it. */
  lemma DecayUndershootsMinimum()
    ensures DefaultMinEpsilon < 0.01001
    ensures Decayed(0.01001, DefaultMinEpsilon, DefaultEpsilonDecay) < DefaultMinEpsilon
  {
  }

  /** Epsilon after `n` successful training steps. */
  function DecayedTimes(epsilon: real, minEpsilon: real, decay: real, n: nat): real {
    if n == 0 then epsilon else Decayed(DecayedTimes(epsilon, minEpsilon, decay, n - 1), minEpsilon, decay)
  }

  /** Over any number of training steps epsilon stays between its start and one decay step
      below the minimum. */
  lemma {:induction false} DecayedTimesBounds(epsilon: real, minEpsilon: real, decay: real, n: nat)
    requires 0.0 <= decay <= 1.0 && minEpsilon >= 0.0 && epsilon >= minEpsilon * decay
    ensures minEpsilon * decay <= DecayedTimes(epsilon, minEpsilon, decay, n) <= epsilon
  {
    if n > 0 {
      DecayedTimesBounds(epsilon, minEpsilon, decay, n - 1);
      var e := DecayedTimes(epsilon, minEpsilon, decay, n - 1);
      ProductNonNegative(minEpsilon, decay);
      DecayFloor(e, minEpsilon, decay);
      DecayNeverIncreases(e, minEpsilon, decay);
    }
  }

  lemma ProductNonNegative(a: real, b: real)
    requires a >= 0.0 && b >= 0.0
    ensures a * b >= 0.0
  {
  }

  /** Whether the target network is refreshed when the counter reaches `counter`. A frequency
      of 0 never refreshes: `counter % 0` is NaN in JavaScript, which is never `=== 0`. */
  predicate SyncAt(counter: nat, frequency: nat) {
    frequency > 0 && counter % frequency == 0
  }

  /** The number of refreshes among training steps `1..n`. */
  function SyncsUpTo(n: nat, frequency: nat): nat {
    if n == 0 then 0 else SyncsUpTo(n - 1, frequency) + (if SyncAt(n, frequency) then 1 else 0)
  }

  /** Starting from a fresh counter, `n` completed training steps refresh the target network
      exactly `n / frequency` times, and never with a frequency of 0. */
  lemma {:induction false} SyncCadence(n: nat, frequency: nat)
    ensures frequency > 0 ==> SyncsUpTo(n, frequency) == n / frequency
    ensures frequency == 0 ==> SyncsUpTo(n, frequency) == 0
  {
    if frequency > 0 {
      SyncsAreMultiples(n, frequency);
      MultiplesUpToIsQuotient(n, frequency);
    } else if n > 0 {
      SyncCadence(n - 1, frequency);
    }
  }

  lemma {:induction false} SyncsAreMultiples(n: nat, frequency: nat)
    requires frequency > 0
    ensures SyncsUpTo(n, frequency) == MultiplesUpTo(n, frequency)
  {
    if n > 0 {
      SyncsAreMultiples(n - 1, frequency);
    }
  }

  /** The learner fields a training step can change. */
  datatype LearnerState = LearnerState(online: Weights, target: Weights, epsilon: real, counter: nat)

  /** The agent's fixed training parameters, as the constructor resolved them. */
  datatype Hyper = Hyper(predict: Network, inputSize: nat, actionSize: nat, gamma: real, epsilonDecay: real,
                         minEpsilon: real, batchSize: nat, targetUpdateFrequency: nat)

  ghost predicate ValidHyper(h: Hyper) {
    h.actionSize >= 1 && OutputsActions(h.predict, h.actionSize)
  }

  /** Whether a training step on a memory holding `buffer` gets as far as the fit: the memory
      holds a full batch, the networks have not been released (a released network's `predict`
      throws), the batch is not empty (`tf.tensor2d([])` throws), every state has the input
      width, every action indexes a Q-value row, and nothing else throws first. */
  predicate ReachesFit(h: Hyper, disposed: bool, buffer: seq<Experience>, draws: seq<real>, fault: Fault)
    requires ValidDraws(draws, Min(h.batchSize, |buffer|))
  {
    var batch := SampleOf(buffer, h.batchSize, draws);
    |buffer| >= h.batchSize && !disposed && fault != FailBeforeFit && batch != []
    && StatesFit(batch, h.inputSize) && ActionsFit(batch, h.actionSize)
  }

  /** The learner state after one training step from `s`. The fit receives the batch states and
      their TD-target rows; a completed step decays epsilon, counts itself and refreshes the
      target network on the cadence; every exception is swallowed. */
  function TrainStep(h: Hyper, disposed: bool, s: LearnerState, buffer: seq<Experience>, draws: seq<real>,
                     fit: FitOracle, fault: Fault): LearnerState
    requires ValidHyper(h) && ValidDraws(draws, Min(h.batchSize, |buffer|))
  {
    if !ReachesFit(h, disposed, buffer, draws, fault) then s
    else
      var batch := SampleOf(buffer, h.batchSize, draws);
      var online := fit(s.online, States(batch), TargetRows(batch, h.predict, s.online, s.target, h.gamma, h.actionSize));
      if fault == FailAfterFit then s.(online := online)
      else
        var counter := s.counter + 1;
        var target := if SyncAt(counter, h.targetUpdateFrequency) && fault != FailAtSync then online else s.target;
        LearnerState(online, target, Decayed(s.epsilon, h.minEpsilon, h.epsilonDecay), counter)
  }

  /** A training step counts at most once, never raises epsilon, and either keeps the target
      network or makes it the new online network; a step that counts nothing leaves epsilon and
      the target alone, and one that does not reach the fit (in particular on released
      networks) changes nothing. */
  lemma TrainStepBounds(h: Hyper, disposed: bool, s: LearnerState, buffer: seq<Experience>, draws: seq<real>,
                        fit: FitOracle, fault: Fault)
    requires ValidHyper(h) && ValidDraws(draws, Min(h.batchSize, |buffer|))
    requires 0.0 <= h.epsilonDecay <= 1.0 && s.epsilon >= 0.0
    ensures var t := TrainStep(h, disposed, s, buffer, draws, fit, fault);
      (t.counter == s.counter || t.counter == s.counter + 1)
      && t.epsilon <= s.epsilon
      && (t.target == s.target || t.target == t.online)
      && (t.counter == s.counter ==> t.epsilon == s.epsilon && t.target == s.target)
      && (!ReachesFit(h, disposed, buffer, draws, fault) ==> t == s)
      && (disposed ==> t == s)
  {
    DecayNeverIncreases(s.epsilon, h.minEpsilon, h.epsilonDecay);
  }

  class DQNAgent {
    const config: DQNConfig
    const predict: Network
    const actionSize: nat
    const gamma: real
    const epsilonDecay: real
    const minEpsilon: real
    const batchSize: nat
    const targetUpdateFrequency: nat

    var online: Weights
    var target: Weights
    var memory: ReplayBuffer
    var epsilon: real
    var trainStepCounter: nat
    var networksDisposed: bool

    ghost predicate Valid()
      reads this, memory
    {
      memory.Valid() && ValidHyper(Params())
    }

    function Snapshot(): LearnerState
      reads this
    {
      LearnerState(online, target, epsilon, trainStepCounter)
    }

    function Params(): Hyper {
      Hyper(predict, config.inputSize, actionSize, gamma, epsilonDecay, minEpsilon, batchSize, targetUpdateFrequency)
    }

    /** Both networks are built from the configuration (`onlineInit`, `targetInit` are their
        initial weights); the target network is then overwritten with the online weights. */
    constructor (config: DQNConfig, predict: Network, onlineInit: Weights, targetInit: Weights)
      requires config.actionSize >= 1 && OutputsActions(predict, config.actionSize)
      ensures Valid() && fresh(memory)
      ensures this.config == config && this.predict == predict
      ensures actionSize == config.actionSize
      ensures gamma == config.gamma.GetOr(DefaultGamma)
      ensures epsilon == config.epsilon.GetOr(DefaultEpsilon)
      ensures epsilonDecay == config.epsilonDecay.GetOr(DefaultEpsilonDecay)
      ensures minEpsilon == config.minEpsilon.GetOr(DefaultMinEpsilon)
      ensures batchSize == config.batchSize.GetOr(DefaultBatchSize)
      ensures targetUpdateFrequency == config.targetUpdateFrequency.GetOr(DefaultTargetUpdateFrequency)
      ensures online == onlineInit && target == online
      ensures memory.buffer == [] && memory.capacity == config.memorySize.GetOr(DefaultMemorySize)
      ensures trainStepCounter == 0 && !networksDisposed
    {
      this.config := config;
      this.predict := predict;
      actionSize := config.actionSize;
      gamma := config.gamma.GetOr(DefaultGamma);
      epsilon := config.epsilon.GetOr(DefaultEpsilon);
      epsilonDecay := config.epsilonDecay.GetOr(DefaultEpsilonDecay);
      minEpsilon := config.minEpsilon.GetOr(DefaultMinEpsilon);
      batchSize := config.batchSize.GetOr(DefaultBatchSize);
      targetUpdateFrequency := config.targetUpdateFrequency.GetOr(DefaultTargetUpdateFrequency);
      online := onlineInit;
      target := targetInit;
      trainStepCounter := 0;
      networksDisposed := false;
      memory := new ReplayBuffer(config.memorySize.GetOr(DefaultMemorySize));
      new;
      var _ := UpdateTargetModel();
    }

    /** Epsilon-greedy choice. `explore` is the first `Math.random()` draw; `pick` is the second,
        drawn only when exploring. Exploiting throws in `predict`, giving `None`, after `dispose`
        or for a state whose length is not the network's input width. */
    method GetAction(state: State, explore: real, pick: real) returns (action: Option<int>)
      requires Valid()
      requires 0.0 <= explore < 1.0 && 0.0 <= pick < 1.0
      ensures action.Some? ==> 0 <= action.value < actionSize
      ensures explore < epsilon ==> action == Some(DrawIndex(pick, actionSize))
      ensures explore >= epsilon && (networksDisposed || |state| != config.inputSize) ==> action == None
      ensures explore >= epsilon && !networksDisposed && |state| == config.inputSize ==>
                action.Some? && IsFirstArgMax(predict(online, state), action.value)
    {
      if explore < epsilon {
        action := Some(DrawIndex(pick, actionSize));
      } else if networksDisposed || |state| != config.inputSize {
        action := None;
      } else {
        var qValues := predict(online, state);
        var maxIndex := ArgMax(qValues);
        action := Some(maxIndex);
      }
    }

    method Remember(exp: Experience)
      requires Valid()
      modifies memory
      ensures Valid()
      ensures memory.capacity == old(memory.capacity)
      ensures memory.buffer == Added(old(memory.buffer), memory.capacity, exp)
    {
      memory.Add(exp);
    }

    /** Copies the online weights into the target network. After `dispose` reading the released
        weights throws: `thrown`, with the target kept. */
    method UpdateTargetModel() returns (thrown: bool)
      modifies this
      ensures thrown == old(networksDisposed)
      ensures target == if thrown then old(target) else old(online)
      ensures online == old(online) && epsilon == old(epsilon) && trainStepCounter == old(trainStepCounter)
      ensures memory == old(memory) && networksDisposed == old(networksDisposed)
    {
      if networksDisposed {
        return true;
      }
      target := online;
      thrown := false;
    }

    /** One training step. `draws` are the sampling draws, `fit` what fitting does to the online
        weights, `fault` where the body throws. The exception is always swallowed. */
    method Train(draws: seq<real>, fit: FitOracle, fault: Fault)
      requires Valid()
      requires ValidDraws(draws, Min(batchSize, |memory.buffer|))
      modifies this
      ensures Valid()
      ensures memory == old(memory) && memory.buffer == old(memory.buffer)
      ensures networksDisposed == old(networksDisposed)
      ensures Snapshot() == TrainStep(Params(), networksDisposed, old(Snapshot()), memory.buffer, draws, fit, fault)
    {
      if memory.Size() < batchSize {
        return;
      }
      var batch := memory.Sample(batchSize, draws);
      if networksDisposed || fault == FailBeforeFit || batch == []
         || !StatesFit(batch, config.inputSize) || !ActionsFit(batch, actionSize) {
        return;
      }
      var targets := TargetRows(batch, predict, online, target, gamma, actionSize);
      online := fit(online, States(batch), targets);
      if fault == FailAfterFit {
        return;
      }
      if epsilon > minEpsilon {
        epsilon := epsilon * epsilonDecay;
      }
      trainStepCounter := trainStepCounter + 1;
      if SyncAt(trainStepCounter, targetUpdateFrequency) && fault != FailAtSync {
        var _ := UpdateTargetModel();
      }
    }

    /** Restores epsilon, replaces the memory with an empty one and zeroes the counter. The
        networks are kept. */
    method Reset()
      requires Valid()
      modifies this
      ensures Valid() && fresh(memory)
      ensures epsilon == config.epsilon.GetOr(1.0)
      ensures memory.buffer == [] && memory.capacity == config.memorySize.GetOr(DefaultCapacity)
      ensures trainStepCounter == 0
      ensures online == old(online) && target == old(target) && networksDisposed == old(networksDisposed)
    {
      epsilon := config.epsilon.GetOr(1.0);
      memory := new ReplayBuffer(config.memorySize.GetOr(DefaultCapacity));
      trainStepCounter := 0;
    }

    /** Releases both networks and replaces the memory with one of capacity 0. A second call
        throws when it releases the already released online network, before the memory is
        replaced: `thrown`, with nothing changed. */
    method Dispose() returns (thrown: bool)
      requires Valid()
      modifies this
      ensures Valid() && networksDisposed
      ensures thrown == old(networksDisposed)
      ensures thrown ==> memory == old(memory) && memory.buffer == old(memory.buffer)
      ensures !thrown ==> fresh(memory) && memory.buffer == [] && memory.capacity == 0
      ensures Snapshot() == old(Snapshot())
    {
      if networksDisposed {
        return true;
      }
      networksDisposed := true;
      memory := new ReplayBuffer(0);
      thrown := false;
    }
  }
}
