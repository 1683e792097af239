/** The supervised-style training loop: each step asks the agent for an action on the
    environment's state, rewards +1 for the correct action and -1 otherwise, stores and trains,
    reports the step, and saves periodic and best checkpoints to the Hub. The checkpoint saver
    itself is an abstract call recorded in the trace. */
module Trainer {
  import opened Common
  import opened Types
  import opened Decimal
  import opened ReplayMemory
  import opened Dqn

  const DefaultMaxSteps: nat := 100
  const DefaultCheckpointEvery: nat := 10
  const BestName: string := "best"

  /** What `getEnvStep` returns. */
  datatype EnvStep = EnvStep(state: State, correctAction: int, nextState: State)

  /** The per-step random draws and training behaviour handed to the agent. */
  datatype StepOracle = StepOracle(explore: real, pick: real, sample: seq<real>, fit: FitOracle, fault: Fault)

  datatype TrainOptions = TrainOptions(
    config: DQNConfig,
    maxSteps: nat,
    checkpointEvery: nat,
    repoId: Option<string>,
    token: Option<string>,
    hasOnStep: bool)              // the optional `onStep` callback is set
  {
    /** Both credentials present and non-empty. */
    predicate HasCredentials() {
      Truthy(repoId) && Truthy(token)
    }
  }

  /** The options with every optional field left unset. */
  function DefaultOptions(config: DQNConfig): TrainOptions {
    TrainOptions(config, DefaultMaxSteps, DefaultCheckpointEvery, None, None, false)
  }

  /** The calls the loop makes, besides those into the environment and the agent's action choice. */
  datatype TrainerCall =
    | Remember(exp: Experience)
    | Train
    | OnStep(step: nat, reward: real, action: int, state: State)
    | SaveCheckpoint(repoId: string, token: string, name: string)
    | DisposeAgent

  /** The name of the periodic checkpoint after step `k`. */
  function StepName(k: nat): string {
    "step-" + NatToDecimal(k)
  }

  /** Periodic checkpoints of different steps never share a name, and none is called `best`. */
  lemma StepNamesDistinct(a: nat, b: nat)
    ensures StepName(a) == StepName(b) <==> a == b
    ensures StepName(a) != BestName
  {
    if StepName(a) == StepName(b) {
      assert NatToDecimal(a) == StepName(a)[5..] == StepName(b)[5..] == NatToDecimal(b);
      NatToDecimalInjective(a, b);
    }
    assert |StepName(a)| > |BestName|;
  }

  /** +1 for the correct action, -1 otherwise. */
  function Reward(action: int, correctAction: int): real {
    if action == correctAction then 1.0 else -1.0
  }

  /** Strictly better than the best so far; `None` stands for -Infinity. */
  predicate Beats(reward: real, best: Option<real>) {
    best.None? || reward > best.value
  }

  /** Whether step `k` saves a periodic checkpoint. */
  predicate PeriodicSave(opts: TrainOptions, k: nat) {
    opts.checkpointEvery != 0 && k % opts.checkpointEvery == 0 && opts.HasCredentials()
  }

  function SaveCall(opts: TrainOptions, name: string): TrainerCall {
    SaveCheckpoint(opts.repoId.GetOr(""), opts.token.GetOr(""), name)
  }

  /** The calls of step `k` after the action is chosen, given the best reward before it. */
  function StepCalls(opts: TrainOptions, k: nat, e: EnvStep, action: int, best: Option<real>): seq<TrainerCall> {
    var reward := Reward(action, e.correctAction);
    [Remember(Experience(e.state, action, reward, e.nextState, false)), Train]
    + (if opts.hasOnStep then [OnStep(k, reward, action, e.state)] else [])
    + (if PeriodicSave(opts, k) then [SaveCall(opts, StepName(k))] else [])
    + (if opts.HasCredentials() && Beats(reward, best) then [SaveCall(opts, BestName)] else [])
  }

  /** Within a step, `remember` and `train` come first; the periodic save, when due, follows
      any report; the best save, when earned, is last. */
  lemma StepOrder(opts: TrainOptions, k: nat, e: EnvStep, action: int, best: Option<real>)
    ensures var calls := StepCalls(opts, k, e, action, best);
      var bestSaved := opts.HasCredentials() && Beats(Reward(action, e.correctAction), best);
      |calls| >= 2
      && calls[0] == Remember(Experience(e.state, action, Reward(action, e.correctAction), e.nextState, false))
      && calls[1] == Train
      && (SaveCall(opts, BestName) in calls <==> bestSaved)
      && (bestSaved ==> calls[|calls| - 1] == SaveCall(opts, BestName))
      && (SaveCall(opts, StepName(k)) in calls <==> PeriodicSave(opts, k))
      && (PeriodicSave(opts, k) ==> calls[|calls| - 1 - (if bestSaved then 1 else 0)] == SaveCall(opts, StepName(k)))
  {
    StepNamesDistinct(k, k);
  }

  /** The best reward after the steps whose actions are `actions` (step `i + 1` took `actions[i]`). */
  function BestAfter(opts: TrainOptions, env: nat -> EnvStep, actions: seq<int>): Option<real>
    decreases |actions|
  {
    if actions == [] then None
    else
      var k := |actions|;
      var best := BestAfter(opts, env, actions[..k - 1]);
      var reward := Reward(actions[k - 1], env(k).correctAction);
      if opts.HasCredentials() && Beats(reward, best) then Some(reward) else best
  }

  /** The calls of the steps whose actions are `actions`. */
  function Trace(opts: TrainOptions, env: nat -> EnvStep, actions: seq<int>): seq<TrainerCall>
    decreases |actions|
  {
    if actions == [] then []
    else
      var k := |actions|;
      Trace(opts, env, actions[..k - 1])
        + StepCalls(opts, k, env(k), actions[k - 1], BestAfter(opts, env, actions[..k - 1]))
  }

  /** One more step extends the trace by that step's calls. */
  lemma TraceStep(opts: TrainOptions, env: nat -> EnvStep, actions: seq<int>, action: int)
    ensures var k := |actions| + 1;
      var reward := Reward(action, env(k).correctAction);
      var best := BestAfter(opts, env, actions);
      Trace(opts, env, actions + [action]) == Trace(opts, env, actions) + StepCalls(opts, k, env(k), action, best)
      && BestAfter(opts, env, actions + [action])
         == if opts.HasCredentials() && Beats(reward, best) then Some(reward) else best
  {
    assert (actions + [action])[..|actions|] == actions;
  }

  /** The step number a call reports, if it is an `onStep` call. */
  function ReportOf(c: TrainerCall): seq<nat> {
    match c
    case OnStep(k, _, _, _) => [k]
    case _ => []
  }

  /** 1 for a periodic checkpoint save, else 0. */
  function PeriodicOf(c: TrainerCall): nat {
    if c.SaveCheckpoint? && c.name != BestName then 1 else 0
  }

  /** 1 for a `best` checkpoint save, else 0. */
  function BestOf(c: TrainerCall): nat {
    if c.SaveCheckpoint? && c.name == BestName then 1 else 0
  }

  /** The step numbers of the `onStep` reports in a trace, in order. */
  function Reports(calls: seq<TrainerCall>): seq<nat> {
    FlatMap(ReportOf, calls)
  }

  /** The periodic checkpoints saved in a trace. */
  function PeriodicSaves(calls: seq<TrainerCall>): nat {
    SumMap(PeriodicOf, calls)
  }

  /** The `best` checkpoints saved in a trace. */
  function BestSaves(calls: seq<TrainerCall>): nat {
    SumMap(BestOf, calls)
  }

  lemma CountsAppend(a: seq<TrainerCall>, b: seq<TrainerCall>)
    ensures Reports(a + b) == Reports(a) + Reports(b)
    ensures PeriodicSaves(a + b) == PeriodicSaves(a) + PeriodicSaves(b)
    ensures BestSaves(a + b) == BestSaves(a) + BestSaves(b)
  {
    FlatMapAppend(ReportOf, a, b);
    SumMapAppend(PeriodicOf, a, b);
    SumMapAppend(BestOf, a, b);
  }

  lemma StepCounts(opts: TrainOptions, k: nat, e: EnvStep, action: int, best: Option<real>)
    ensures var calls := StepCalls(opts, k, e, action, best);
      Reports(calls) == (if opts.hasOnStep then [k] else [])
      && PeriodicSaves(calls) == (if PeriodicSave(opts, k) then 1 else 0)
      && BestSaves(calls) == (if opts.HasCredentials() && Beats(Reward(action, e.correctAction), best) then 1 else 0)
  {
    var reward := Reward(action, e.correctAction);
    var learn := [Remember(Experience(e.state, action, reward, e.nextState, false)), Train];
    var report := if opts.hasOnStep then [OnStep(k, reward, action, e.state)] else [];
    var periodic := if PeriodicSave(opts, k) then [SaveCall(opts, StepName(k))] else [];
    var bestSave := if opts.HasCredentials() && Beats(reward, best) then [SaveCall(opts, BestName)] else [];
    assert StepCalls(opts, k, e, action, best) == learn + report + periodic + bestSave;
    CountsAppend4(learn, report, periodic, bestSave);
    LearnCounts(learn[0], learn[1]);
    OneCall(OnStep(k, reward, action, e.state));
    StepNamesDistinct(k, k);
    OneCall(SaveCall(opts, StepName(k)));
    OneCall(SaveCall(opts, BestName));
    assert Reports(report) == (if opts.hasOnStep then [k] else []);
    assert PeriodicSaves(report) == 0 && BestSaves(report) == 0;
    assert Reports(periodic) == [] && BestSaves(periodic) == 0;
    assert PeriodicSaves(periodic) == (if PeriodicSave(opts, k) then 1 else 0);
    assert Reports(bestSave) == [] && PeriodicSaves(bestSave) == 0;
    assert BestSaves(bestSave) == (if opts.HasCredentials() && Beats(reward, best) then 1 else 0);
  }

  lemma CountsAppend4(a: seq<TrainerCall>, b: seq<TrainerCall>, c: seq<TrainerCall>, d: seq<TrainerCall>)
    ensures Reports(a + b + c + d) == Reports(a) + Reports(b) + Reports(c) + Reports(d)
    ensures PeriodicSaves(a + b + c + d) == PeriodicSaves(a) + PeriodicSaves(b) + PeriodicSaves(c) + PeriodicSaves(d)
    ensures BestSaves(a + b + c + d) == BestSaves(a) + BestSaves(b) + BestSaves(c) + BestSaves(d)
  {
    CountsAppend(a + b + c, d);
    CountsAppend(a + b, c);
    CountsAppend(a, b);
  }

  /** What a single call adds to each count. */
  lemma OneCall(c: TrainerCall)
    ensures Reports([c]) == ReportOf(c)
    ensures PeriodicSaves([c]) == PeriodicOf(c)
    ensures BestSaves([c]) == BestOf(c)
  {
    FlatMapOne(ReportOf, c);
    SumMapOne(PeriodicOf, c);
    SumMapOne(BestOf, c);
  }

  /** `remember` and `train` add to no count. */
  lemma LearnCounts(x: TrainerCall, y: TrainerCall)
    requires x.Remember? && y.Train?
    ensures Reports([x, y]) == [] && PeriodicSaves([x, y]) == 0 && BestSaves([x, y]) == 0
  {
    CountsAppend([x], [y]);
    assert [x] + [y] == [x, y];
    OneCall(x);
    OneCall(y);
  }

  /** `onStep` is called once per step, with the steps numbered 1, 2, ... in order. */
  lemma {:induction false} OneReportPerStep(opts: TrainOptions, env: nat -> EnvStep, actions: seq<int>)
    ensures Reports(Trace(opts, env, actions)) == if opts.hasOnStep then seq(|actions|, i => i + 1) else []
    decreases |actions|
  {
    if actions != [] {
      var k := |actions|;
      var prev := actions[..k - 1];
      var calls := StepCalls(opts, k, env(k), actions[k - 1], BestAfter(opts, env, prev));
      assert Trace(opts, env, actions) == Trace(opts, env, prev) + calls;
      OneReportPerStep(opts, env, prev);
      CountsAppend(Trace(opts, env, prev), calls);
      StepCounts(opts, k, env(k), actions[k - 1], BestAfter(opts, env, prev));
      if opts.hasOnStep {
        CountUpAppend(k - 1);
      }
    }
  }

  lemma CountUpAppend(n: nat)
    ensures seq(n, i => i + 1) + [n + 1] == seq(n + 1, i => i + 1)
  {
  }

  /** Over `n` steps, one periodic checkpoint is saved per multiple of `checkpointEvery`, so
      `n / checkpointEvery` of them; none without credentials or with `checkpointEvery == 0`. */
  lemma {:induction false} PeriodicSchedule(opts: TrainOptions, env: nat -> EnvStep, actions: seq<int>)
    ensures PeriodicSaves(Trace(opts, env, actions))
            == if opts.checkpointEvery != 0 && opts.HasCredentials() then |actions| / opts.checkpointEvery else 0
  {
    PeriodicCount(opts, env, actions);
    if opts.checkpointEvery != 0 && opts.HasCredentials() {
      MultiplesUpToIsQuotient(|actions|, opts.checkpointEvery);
    }
  }

  lemma {:induction false} PeriodicCount(opts: TrainOptions, env: nat -> EnvStep, actions: seq<int>)
    ensures PeriodicSaves(Trace(opts, env, actions))
            == if opts.checkpointEvery != 0 && opts.HasCredentials() then MultiplesUpTo(|actions|, opts.checkpointEvery) else 0
    decreases |actions|
  {
    if actions != [] {
      var k := |actions|;
      var prev := actions[..k - 1];
      PeriodicCount(opts, env, prev);
      CountsAppend(Trace(opts, env, prev), StepCalls(opts, k, env(k), actions[k - 1], BestAfter(opts, env, prev)));
      StepCounts(opts, k, env(k), actions[k - 1], BestAfter(opts, env, prev));
    }
  }

  /** A step saves `step-<k>` exactly when `checkpointEvery` is non-zero, divides `k`, and both
      credentials are present; the name belongs to that step alone. */
  lemma PeriodicSaveAt(opts: TrainOptions, env: nat -> EnvStep, actions: seq<int>, k: nat)
    requires 1 <= k <= |actions|
    ensures SaveCall(opts, StepName(k)) in Trace(opts, env, actions) <==> PeriodicSave(opts, k)
  {
    PeriodicSaveIn(opts, env, actions, k);
  }

  lemma {:induction false} PeriodicSaveIn(opts: TrainOptions, env: nat -> EnvStep, actions: seq<int>, k: nat)
    ensures SaveCall(opts, StepName(k)) in Trace(opts, env, actions) <==> 1 <= k <= |actions| && PeriodicSave(opts, k)
    decreases |actions|
  {
    if actions != [] {
      var n := |actions|;
      var prev := actions[..n - 1];
      PeriodicSaveIn(opts, env, prev, k);
      var calls := StepCalls(opts, n, env(n), actions[n - 1], BestAfter(opts, env, prev));
      if k == n {
        StepOrder(opts, n, env(n), actions[n - 1], BestAfter(opts, env, prev));
      } else {
        StepNameOnlyInOwnStep(opts, n, env(n), actions[n - 1], BestAfter(opts, env, prev), k);
      }
      assert Trace(opts, env, actions) == Trace(opts, env, prev) + calls;
    }
  }

  /** A step's calls hold no periodic save named after another step. */
  lemma StepNameOnlyInOwnStep(opts: TrainOptions, n: nat, e: EnvStep, action: int, best: Option<real>, k: nat)
    requires k != n
    ensures SaveCall(opts, StepName(k)) !in StepCalls(opts, n, e, action, best)
  {
    var reward := Reward(action, e.correctAction);
    StepNamesDistinct(k, n);
    var learn := [Remember(Experience(e.state, action, reward, e.nextState, false)), Train];
    var report := if opts.hasOnStep then [OnStep(n, reward, action, e.state)] else [];
    var periodic := if PeriodicSave(opts, n) then [SaveCall(opts, StepName(n))] else [];
    var bestSave := if opts.HasCredentials() && Beats(reward, best) then [SaveCall(opts, BestName)] else [];
    assert StepCalls(opts, n, e, action, best) == learn + report + periodic + bestSave;
  }

  /** The save budget left: a best of -Infinity can still improve twice (to -1, then to 1), a
      best of -1 once, and a best of 1 never, since rewards are only 1 or -1. */
  function Budget(best: Option<real>): nat {
    if best.None? then 2 else if best.value < 1.0 then 1 else 0
  }

  lemma {:induction false} BestSavesWithinBudget(opts: TrainOptions, env: nat -> EnvStep, actions: seq<int>)
    ensures BestSaves(Trace(opts, env, actions)) + Budget(BestAfter(opts, env, actions)) <= 2
    ensures BestAfter(opts, env, actions).Some? ==> BestAfter(opts, env, actions).value in {1.0, -1.0}
    decreases |actions|
  {
    if actions != [] {
      var k := |actions|;
      var prev := actions[..k - 1];
      BestSavesWithinBudget(opts, env, prev);
      CountsAppend(Trace(opts, env, prev), StepCalls(opts, k, env(k), actions[k - 1], BestAfter(opts, env, prev)));
      StepCounts(opts, k, env(k), actions[k - 1], BestAfter(opts, env, prev));
    }
  }

  /** However long the run, at most two `best` checkpoints are saved. */
  lemma AtMostTwoBestSaves(opts: TrainOptions, env: nat -> EnvStep, actions: seq<int>)
    ensures BestSaves(Trace(opts, env, actions)) <= 2
  {
    BestSavesWithinBudget(opts, env, actions);
  }

  /** A reward equal to the best so far is not an improvement: ties never save. */
  lemma TiesNeverSave(opts: TrainOptions, k: nat, e: EnvStep, action: int, best: Option<real>)
    requires best == Some(Reward(action, e.correctAction))
    ensures SaveCall(opts, BestName) !in StepCalls(opts, k, e, action, best)
  {
  }

  /** A hook of the loop that rejects, if any: the `onStep` callback or one of the checkpoint saves. */
  datatype HookFault = NoHookFault | OnStepThrows | PeriodicSaveThrows | BestSaveThrows

  /** Whether step `k` throws: its failing hook is one the step actually calls. */
  predicate StepThrows(opts: TrainOptions, k: nat, e: EnvStep, action: int, best: Option<real>, f: HookFault) {
    match f
    case NoHookFault => false
    case OnStepThrows => opts.hasOnStep
    case PeriodicSaveThrows => PeriodicSave(opts, k)
    case BestSaveThrows => opts.HasCredentials() && Beats(Reward(action, e.correctAction), best)
  }

  /** The calls a throwing step makes, up to and including the hook that throws. */
  function ThrownCalls(opts: TrainOptions, k: nat, e: EnvStep, action: int, best: Option<real>, f: HookFault)
    : seq<TrainerCall>
  {
    var reward := Reward(action, e.correctAction);
    var learn := [Remember(Experience(e.state, action, reward, e.nextState, false)), Train];
    var report := if opts.hasOnStep then [OnStep(k, reward, action, e.state)] else [];
    var periodic := if PeriodicSave(opts, k) then [SaveCall(opts, StepName(k))] else [];
    match f
    case OnStepThrows => learn + report
    case PeriodicSaveThrows => learn + report + periodic
    case _ => StepCalls(opts, k, e, action, best)
  }

  /** A throwing step makes a prefix of its normal calls, and the last call made is the hook that
      throws: nothing after it runs. */
  lemma ThrownCallsPrefix(opts: TrainOptions, k: nat, e: EnvStep, action: int, best: Option<real>, f: HookFault)
    requires StepThrows(opts, k, e, action, best, f)
    ensures var t := ThrownCalls(opts, k, e, action, best, f);
      var c := StepCalls(opts, k, e, action, best);
      1 <= |t| <= |c| && t == c[..|t|]
      && (f == OnStepThrows ==> t[|t| - 1] == OnStep(k, Reward(action, e.correctAction), action, e.state))
      && (f == PeriodicSaveThrows ==> t[|t| - 1] == SaveCall(opts, StepName(k)))
      && (f == BestSaveThrows ==> t == c && t[|t| - 1] == SaveCall(opts, BestName))
  {
    var reward := Reward(action, e.correctAction);
    var learn := [Remember(Experience(e.state, action, reward, e.nextState, false)), Train];
    var report := if opts.hasOnStep then [OnStep(k, reward, action, e.state)] else [];
    var periodic := if PeriodicSave(opts, k) then [SaveCall(opts, StepName(k))] else [];
    var bestSave := if opts.HasCredentials() && Beats(reward, best) then [SaveCall(opts, BestName)] else [];
    var c := learn + report + periodic + bestSave;
    assert StepCalls(opts, k, e, action, best) == c;
    if f == OnStepThrows {
      assert c == (learn + report) + (periodic + bestSave);
    } else if f == PeriodicSaveThrows {
      assert c == (learn + report + periodic) + bestSave;
    }
  }

  /** Every step of the run so far ran normally: neither `getEnvStep` nor a hook threw. */
  predicate NoHookThrows(opts: TrainOptions, env: nat -> EnvStep, envFails: nat -> bool, hooks: nat -> HookFault,
                         actions: seq<int>)
  {
    forall i :: 0 <= i < |actions| ==>
      !envFails(i + 1) && !StepThrows(opts, i + 1, env(i + 1), actions[i], BestAfter(opts, env, actions[..i]), hooks(i + 1))
  }

  lemma NoHookThrowsStep(opts: TrainOptions, env: nat -> EnvStep, envFails: nat -> bool, hooks: nat -> HookFault,
                         actions: seq<int>, action: int)
    requires NoHookThrows(opts, env, envFails, hooks, actions)
    requires !envFails(|actions| + 1)
    requires !StepThrows(opts, |actions| + 1, env(|actions| + 1), action, BestAfter(opts, env, actions), hooks(|actions| + 1))
    ensures NoHookThrows(opts, env, envFails, hooks, actions + [action])
  {
    var next := actions + [action];
    forall i | 0 <= i < |next|
      ensures !envFails(i + 1) && !StepThrows(opts, i + 1, env(i + 1), next[i], BestAfter(opts, env, next[..i]), hooks(i + 1))
    {
      if i < |actions| {
        assert next[..i] == actions[..i];
        assert next[i] == actions[i];
      } else {
        assert next[..i] == actions;
      }
    }
  }

  /** How a run that throws ends. Either the step after the last action chosen throws before
      any call is recorded (`getEnvStep` throws, or the agent exploits on a state of the wrong
      width and `predict` throws), or the last step's hook throws after that step's earlier
      calls. Every earlier step ran normally, and the agent is never disposed. */
  predicate Aborted(opts: TrainOptions, env: nat -> EnvStep, envFails: nat -> bool, hooks: nat -> HookFault,
                    actions: seq<int>, calls: seq<TrainerCall>)
  {
    (|actions| < opts.maxSteps
     && (envFails(|actions| + 1) || |env(|actions| + 1).state| != opts.config.inputSize)
     && NoHookThrows(opts, env, envFails, hooks, actions)
     && calls == Trace(opts, env, actions))
    || (1 <= |actions| &&
        var n := |actions|;
        var prev := actions[..n - 1];
        var best := BestAfter(opts, env, prev);
        !envFails(n) && NoHookThrows(opts, env, envFails, hooks, prev)
        && StepThrows(opts, n, env(n), actions[n - 1], best, hooks(n))
        && calls == Trace(opts, env, prev) + ThrownCalls(opts, n, env(n), actions[n - 1], best, hooks(n)))
  }

  /** The agent's part of a step: choose an action, reward it, store the transition (never
      terminal) and train. `None` when choosing the action throws: the agent exploits on a state
      whose width is not the network's input, and nothing else happens. */
  method AgentStep(agent: DQNAgent, e: EnvStep, o: StepOracle) returns (chosen: Option<int>)
    requires agent.Valid() && !agent.networksDisposed
    requires 0.0 <= o.explore < 1.0 && 0.0 <= o.pick < 1.0 && ValidDraws(o.sample, agent.batchSize)
    modifies agent, agent.memory
    ensures agent.Valid() && agent.memory == old(agent.memory) && !agent.networksDisposed
    ensures chosen.None? <==> o.explore >= old(agent.epsilon) && |e.state| != agent.config.inputSize
    ensures chosen.None? ==> agent.Snapshot() == old(agent.Snapshot()) && agent.memory.buffer == old(agent.memory.buffer)
    ensures chosen.Some? ==> 0 <= chosen.value < agent.actionSize
    ensures o.explore < old(agent.epsilon) ==> chosen == Some(DrawIndex(o.pick, agent.actionSize))
    ensures o.explore >= old(agent.epsilon) && chosen.Some? ==>
              IsFirstArgMax(agent.predict(old(agent.online), e.state), chosen.value)
    ensures chosen.Some? ==>
              agent.memory.buffer
              == Added(old(agent.memory.buffer), agent.memory.capacity,
                       Experience(e.state, chosen.value, Reward(chosen.value, e.correctAction), e.nextState, false))
    ensures chosen.Some? ==>
              agent.Snapshot()
              == TrainStep(agent.Params(), false, old(agent.Snapshot()), agent.memory.buffer, o.sample, o.fit, o.fault)
  {
    chosen := agent.GetAction(e.state, o.explore, o.pick);
    if chosen.None? {
      return;
    }
    var action := chosen.value;
    var reward := if action == e.correctAction then 1.0 else -1.0;
    var done := false;
    var exp := Experience(e.state, action, reward, e.nextState, done);
    agent.Remember(exp);
    agent.Train(o.sample, o.fit, o.fault);
  }

  /** The rest of step `step` once the agent has remembered and trained: the report, the
      periodic save and the best save, with the best reward updated; the step stops at the hook
      `f` names if it is called. */
  method AfterTraining(opts: TrainOptions, step: nat, e: EnvStep, action: int, bestReward: Option<real>, f: HookFault)
    returns (made: seq<TrainerCall>, newBest: Option<real>, thrown: bool)
    ensures thrown == StepThrows(opts, step, e, action, bestReward, f)
    ensures made == if thrown then ThrownCalls(opts, step, e, action, bestReward, f)
                    else StepCalls(opts, step, e, action, bestReward)
    ensures !thrown ==> newBest == if opts.HasCredentials() && Beats(Reward(action, e.correctAction), bestReward)
                                   then Some(Reward(action, e.correctAction)) else bestReward
  {
    var reward := if action == e.correctAction then 1.0 else -1.0;
    made := [Remember(Experience(e.state, action, reward, e.nextState, false)), Train];
    newBest := bestReward;
    thrown := false;
    if opts.hasOnStep {
      made := made + [OnStep(step, reward, action, e.state)];
      if f == OnStepThrows {
        thrown := true;
        return;
      }
    }
    if opts.checkpointEvery != 0 && step % opts.checkpointEvery == 0 && Truthy(opts.repoId) && Truthy(opts.token) {
      made := made + [SaveCheckpoint(opts.repoId.value, opts.token.value, "step-" + NatToDecimal(step))];
      if f == PeriodicSaveThrows {
        thrown := true;
        return;
      }
    }
    if Beats(reward, bestReward) && Truthy(opts.repoId) && Truthy(opts.token) {
      newBest := Some(reward);
      made := made + [SaveCheckpoint(opts.repoId.value, opts.token.value, BestName)];
      thrown := f == BestSaveThrows;
    }
  }

  /** The whole loop. The agent is built from the configuration, and `oracle(k)` supplies the
      draws and training behaviour of step `k`; `envFails(k)` says whether `getEnvStep` throws at
      step `k` and `hooks(k)` which hook of step `k` rejects. The actions the agent picks come
      back in `actions`; `completed` says whether the loop ran to the end. */
  method TrainAgent(opts: TrainOptions, predict: Network, onlineInit: Weights, targetInit: Weights,
                    env: nat -> EnvStep, oracle: nat -> StepOracle, envFails: nat -> bool, hooks: nat -> HookFault)
    returns (actions: seq<int>, calls: seq<TrainerCall>, completed: bool)
    requires opts.config.actionSize >= 1 && OutputsActions(predict, opts.config.actionSize)
    requires forall k :: 0.0 <= oracle(k).explore < 1.0 && 0.0 <= oracle(k).pick < 1.0
    requires forall k :: ValidDraws(oracle(k).sample, opts.config.batchSize.GetOr(DefaultBatchSize))
    ensures |actions| <= opts.maxSteps
    ensures forall i :: 0 <= i < |actions| ==> 0 <= actions[i] < opts.config.actionSize
    ensures completed ==> |actions| == opts.maxSteps && NoHookThrows(opts, env, envFails, hooks, actions)
                          && calls == Trace(opts, env, actions) + [DisposeAgent]
    ensures !completed ==> Aborted(opts, env, envFails, hooks, actions, calls)
  {
    var agent := new DQNAgent(opts.config, predict, onlineInit, targetInit);
    var bestReward: Option<real> := None;
    actions := [];
    calls := [];
    var step: nat := 1;
    while step <= opts.maxSteps
      invariant 1 <= step <= opts.maxSteps + 1
      invariant |actions| == step - 1
      invariant forall i :: 0 <= i < |actions| ==> 0 <= actions[i] < opts.config.actionSize
      invariant fresh(agent) && fresh(agent.memory) && agent.Valid() && !agent.networksDisposed
      invariant agent.config == opts.config && agent.actionSize == opts.config.actionSize
      invariant agent.batchSize == opts.config.batchSize.GetOr(DefaultBatchSize)
      invariant bestReward == BestAfter(opts, env, actions)
      invariant calls == Trace(opts, env, actions)
      invariant NoHookThrows(opts, env, envFails, hooks, actions)
      decreases opts.maxSteps + 1 - step
    {
      if envFails(step) {
        completed := false;
        return;
      }
      var e := env(step);
      var o := oracle(step);
      var chosen := AgentStep(agent, e, o);
      if chosen.None? {
        completed := false;
        return;
      }
      var action := chosen.value;
      var made, thrown;
      made, bestReward, thrown := AfterTraining(opts, step, e, action, bestReward, hooks(step));
      if thrown {
        assert (actions + [action])[..|actions|] == actions;
        actions := actions + [action];
        calls := calls + made;
        completed := false;
        return;
      }
      TraceStep(opts, env, actions, action);
      NoHookThrowsStep(opts, env, envFails, hooks, actions, action);
      actions := actions + [action];
      calls := calls + made;
      step := step + 1;
    }
    var _ := agent.Dispose();
    calls := calls + [DisposeAgent];
    completed := true;
  }
}
