/** The environment driver: one `step` observes, asks the agent for an action, applies it,
    stores the transition, trains, optionally saves a best checkpoint and handles the episode
    end. The environment and agent callbacks are recorded as a call trace; the values they
    return are parameters of each step. */
module IgnitionEnvDriver {
  import opened Common
  import opened Types

  const DefaultStepIntervalMs: nat := 100

  /** One call the driver makes into its configuration or its agent, or into the host timer. */
  datatype Call =
    | GetObservation
    | GetAction(state: State)
    | ApplyAction(action: int)
    | ComputeReward
    | IsDone
    | Remember(exp: Experience)
    | Train
    | SaveBest(repoId: string, token: string, reward: real, step: nat)
    | OnReset
    | SetInterval(periodMs: nat)
    | ClearInterval

  /** The values the callbacks return during one step. `resetObservation` is what
      `getObservation` returns after `onReset`, used only when the episode ends. */
  datatype StepInput = StepInput(action: int, nextState: State, reward: real, done: bool, resetObservation: State)

  /** The fixed parts of the driver's configuration that decide which calls a step makes. */
  datatype Hooks = Hooks(
    agentSavesBest: bool,     // the agent has a `maybeSaveBestCheckpoint` member
    hasOnReset: bool,         // the optional `onReset` callback is set
    hfRepoId: Option<string>,
    hfToken: Option<string>)
  {
    /** The best-checkpoint hook runs only with the member and both credentials non-empty. */
    predicate SavesBest() {
      agentSavesBest && Truthy(hfRepoId) && Truthy(hfToken)
    }
  }

  /** The calls of the episode-boundary handling: `onReset` (when set) and a fresh observation. */
  function ResetCalls(hooks: Hooks): seq<Call> {
    (if hooks.hasOnReset then [OnReset] else []) + [GetObservation]
  }

  /** The calls one step makes, in order, from state `state` as step number `step`. */
  function StepCalls(hooks: Hooks, state: State, step: nat, input: StepInput): seq<Call> {
    FixedCalls(state, input)
    + (if hooks.SavesBest() then [SaveBest(hooks.hfRepoId.value, hooks.hfToken.value, input.reward, step)] else [])
    + (if input.done then ResetCalls(hooks) else [])
  }

  /** The seven calls every step starts with. */
  function FixedCalls(state: State, input: StepInput): seq<Call> {
    [GetAction(state), ApplyAction(input.action), GetObservation, ComputeReward, IsDone,
     Remember(Experience(state, input.action, input.reward, input.nextState, input.done)), Train]
  }

  /** A step asks for the action in the state it holds, applies it, observes, scores, checks
      for the end, stores the transition from the pre-step state and trains, in that order;
      the best-checkpoint hook runs exactly when its member and both credentials are present,
      and `onReset` exactly when the episode ends and the callback is set. */
  lemma StepOrder(hooks: Hooks, state: State, step: nat, input: StepInput)
    ensures var calls := StepCalls(hooks, state, step, input);
      |calls| >= 7
      && calls[..7] == [GetAction(state), ApplyAction(input.action), GetObservation, ComputeReward,
                        IsDone, Remember(Experience(state, input.action, input.reward, input.nextState, input.done)),
                        Train]
      && (SaveBest(hooks.hfRepoId.GetOr(""), hooks.hfToken.GetOr(""), input.reward, step) in calls <==> hooks.SavesBest())
      && (OnReset in calls <==> input.done && hooks.hasOnReset)
  {
    var calls := StepCalls(hooks, state, step, input);
    assert calls[..7] == FixedCalls(state, input);
  }

  /** A step that throws at call `i` has made exactly the first `i + 1` calls of a normal step,
      the last being the call that threw; in particular no `onReset` runs before the failure
      unless the failing call is `onReset` itself or the observation after it. */
  lemma ThrownStepPrefix(hooks: Hooks, state: State, step: nat, input: StepInput, i: nat)
    requires i < |StepCalls(hooks, state, step, input)|
    ensures var calls := StepCalls(hooks, state, step, input);
      var made := calls[..i + 1];
      (i < 7 ==> made == FixedCalls(state, input)[..i + 1])
      && (OnReset in made ==> input.done && hooks.hasOnReset && i >= |calls| - 2)
  {
    var calls := StepCalls(hooks, state, step, input);
    var fixed := FixedCalls(state, input);
    var save := if hooks.SavesBest() then [SaveBest(hooks.hfRepoId.value, hooks.hfToken.value, input.reward, step)] else [];
    var tail := if input.done then ResetCalls(hooks) else [];
    assert calls == fixed + save + tail;
    var made := calls[..i + 1];
    if i < 7 {
      assert made == fixed[..i + 1];
    }
    if OnReset in made {
      var j :| 0 <= j < |made| && made[j] == OnReset;
      assert calls[j] == OnReset;
      assert OnReset !in fixed + save;
      assert j >= |fixed| + |save|;
      assert tail != [] && input.done && hooks.hasOnReset;
      assert |tail| == 2;
    }
  }

  /** The state the driver holds after a step. */
  function NextCurrentState(input: StepInput): State {
    if input.done then input.resetObservation else input.nextState
  }

  /** The calls of `inputs.len` consecutive steps, the first numbered `step + 1`. */
  function RunCalls(hooks: Hooks, state: State, step: nat, inputs: seq<StepInput>): seq<Call>
    decreases |inputs|
  {
    if inputs == [] then []
    else StepCalls(hooks, state, step + 1, inputs[0]) + RunCalls(hooks, NextCurrentState(inputs[0]), step + 1, inputs[1..])
  }

  /** The number of `onReset` calls in a trace. */
  function CountResets(calls: seq<Call>): nat {
    multiset(calls)[OnReset]
  }

  /** The number of steps that report the end of an episode. */
  function CountDone(inputs: seq<StepInput>): nat {
    if inputs == [] then 0 else (if inputs[0].done then 1 else 0) + CountDone(inputs[1..])
  }

  lemma StepResets(hooks: Hooks, state: State, step: nat, input: StepInput)
    ensures CountResets(StepCalls(hooks, state, step, input)) == if input.done && hooks.hasOnReset then 1 else 0
  {
    var fixed := FixedCalls(state, input);
    var save := if hooks.SavesBest() then [SaveBest(hooks.hfRepoId.value, hooks.hfToken.value, input.reward, step)] else [];
    var tail := if input.done then ResetCalls(hooks) else [];
    assert multiset(fixed + save + tail) == multiset(fixed) + multiset(save) + multiset(tail);
    FixedCallsNoReset(state, input);
    assert multiset(save)[OnReset] == 0;
    assert multiset(tail)[OnReset] == if input.done && hooks.hasOnReset then 1 else 0;
  }

  lemma FixedCallsNoReset(state: State, input: StepInput)
    ensures multiset(FixedCalls(state, input))[OnReset] == 0
  {
    assert OnReset !in FixedCalls(state, input);
  }

  /** Every episode end triggers `onReset` exactly once: over any run of steps the number of
      `onReset` calls equals the number of steps that reported done (when the callback is set). */
  lemma {:induction false} ResetsMatchEpisodeEnds(hooks: Hooks, state: State, step: nat, inputs: seq<StepInput>)
    ensures CountResets(RunCalls(hooks, state, step, inputs)) == if hooks.hasOnReset then CountDone(inputs) else 0
    decreases |inputs|
  {
    if inputs != [] {
      var first := StepCalls(hooks, state, step + 1, inputs[0]);
      var rest := RunCalls(hooks, NextCurrentState(inputs[0]), step + 1, inputs[1..]);
      assert RunCalls(hooks, state, step, inputs) == first + rest;
      assert multiset(first + rest) == multiset(first) + multiset(rest);
      ResetsMatchEpisodeEnds(hooks, NextCurrentState(inputs[0]), step + 1, inputs[1..]);
      StepResets(hooks, state, step + 1, inputs[0]);
    }
  }

  class IgnitionEnv {
    const hooks: Hooks
    const stepIntervalMs: Option<nat>

    var currentState: State
    var stepCount: nat
    /** The running timer: present after `start()`, cleared by `stop()`. The period stands in
        for the host's timer handle. */
    var intervalId: Option<nat>
    /** Every call made so far, oldest first. */
    var calls: seq<Call>

    /** `firstObservation` is what `getObservation` returns at construction. */
    constructor (hooks: Hooks, stepIntervalMs: Option<nat>, firstObservation: State)
      ensures this.hooks == hooks && this.stepIntervalMs == stepIntervalMs
      ensures currentState == firstObservation && stepCount == 0 && intervalId == None
      ensures calls == [GetObservation]
    {
      this.hooks := hooks;
      this.stepIntervalMs := stepIntervalMs;
      currentState := firstObservation;
      stepCount := 0;
      intervalId := None;
      calls := [GetObservation];
    }

    /** `failAt`, when present, is the position in the step's call list of a callback that
        throws; the step stops there, and `thrown` reports it. The counter has already moved on,
        but the state the driver holds is only replaced when the step finishes. */
    method Step(input: StepInput, failAt: Option<nat>) returns (thrown: bool)
      modifies this
      ensures stepCount == old(stepCount) + 1
      ensures thrown <==> failAt.Some? && failAt.value < |StepCalls(hooks, old(currentState), stepCount, input)|
      ensures calls == old(calls) + (if thrown then StepCalls(hooks, old(currentState), stepCount, input)[..failAt.value + 1]
                                     else StepCalls(hooks, old(currentState), stepCount, input))
      ensures currentState == if thrown then old(currentState) else NextCurrentState(input)
      ensures intervalId == old(intervalId)
    {
      stepCount := stepCount + 1;
      var state := currentState;
      var made: seq<Call> := [GetAction(state)];
      var action := input.action;
      made := made + [ApplyAction(action)];
      made := made + [GetObservation, ComputeReward, IsDone];
      var nextState, reward, done := input.nextState, input.reward, input.done;
      var experience := Experience(state, action, reward, nextState, done);
      made := made + [Remember(experience), Train];
      if hooks.SavesBest() {
        made := made + [SaveBest(hooks.hfRepoId.value, hooks.hfToken.value, reward, stepCount)];
      }
      if done {
        made := made + ResetCalls(hooks);
      }
      assert made == StepCalls(hooks, state, stepCount, input);
      if failAt.Some? && failAt.value < |made| {
        calls := calls + made[..failAt.value + 1];
        return true;
      }
      currentState := if done then input.resetObservation else nextState;
      calls := calls + made;
      thrown := false;
    }

    /** The timer period `start()` uses. */
    function Period(): nat
      reads this
    {
      stepIntervalMs.GetOr(DefaultStepIntervalMs)
    }

    method Start(auto: bool := true)
      modifies this
      ensures !auto ==> intervalId == old(intervalId) && calls == old(calls)
      ensures auto ==> intervalId == Some(Period()) && calls == old(calls) + [SetInterval(Period())]
      ensures currentState == old(currentState) && stepCount == old(stepCount)
    {
      if !auto {
        return;
      }
      var interval := Period();
      calls := calls + [SetInterval(interval)];
      intervalId := Some(interval);
    }

    method Stop()
      modifies this
      ensures intervalId == None
      ensures calls == old(calls) + (if old(intervalId).Some? then [ClearInterval] else [])
      ensures currentState == old(currentState) && stepCount == old(stepCount)
    {
      if intervalId.Some? {
        calls := calls + [ClearInterval];
        intervalId := None;
      }
    }

    /** `observation` is what `getObservation` returns after `onReset`. `failAt`, when present,
        is the position in the reset's call list of a callback that throws; the reset stops
        there and `thrown` reports it, with the state and the counter untouched. */
    method Reset(observation: State, failAt: Option<nat>) returns (thrown: bool)
      modifies this
      ensures thrown <==> failAt.Some? && failAt.value < |ResetCalls(hooks)|
      ensures calls == old(calls) + (if thrown then ResetCalls(hooks)[..failAt.value + 1] else ResetCalls(hooks))
      ensures thrown ==> currentState == old(currentState) && stepCount == old(stepCount)
      ensures !thrown ==> currentState == observation && stepCount == 0
      ensures intervalId == old(intervalId)
    {
      var made: seq<Call> := [];
      if hooks.hasOnReset {
        made := made + [OnReset];
      }
      made := made + [GetObservation];
      if failAt.Some? && failAt.value < |made| {
        calls := calls + made[..failAt.value + 1];
        return true;
      }
      calls := calls + made;
      currentState := observation;
      stepCount := 0;
      thrown := false;
    }
  }
}
