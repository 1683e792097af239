/** The target-chasing demo's training store: one record of training state, changed only by
    its actions. Each action merges the fields it names into the record and keeps the rest. */
module DemoTrainingStore {

  /** A JavaScript number that may be -Infinity (the initial best reward). */
  datatype ExtReal = NegInf | Finite(value: real)

  /** A setter argument: a plain value, or a function of the field's previous value. */
  datatype Update<!T> = Assign(value: T) | Apply(f: T -> T)

  /** The value a setter stores given the field's previous value. */
  function Updated<T>(u: Update<T>, previous: T): T {
    match u
    case Assign(v) => v
    case Apply(f) => f(previous)
  }

  /** A functional setter whose function ignores its argument is the plain setter. */
  lemma ConstantUpdateIsAssign<T>(v: T, previous: T)
    ensures Updated(Apply(_ => v), previous) == Updated(Assign(v), previous)
  {
  }

  datatype TrainingState = TrainingState(
    isTraining: bool,
    isTrainingInProgress: bool,
    episodeCount: int,
    reward: real,
    bestReward: ExtReal,
    episodeSteps: int,
    reachedTarget: bool,
    episodeTime: real,
    episodeStartTime: int,
    successCount: int,
    difficulty: int,
    lastAction: int,
    targetPosition: (real, real, real))

  /** The state the store is created with; `now` is `Date.now()` at creation. */
  function InitialState(now: int): (s: TrainingState)
    ensures !s.isTraining && !s.isTrainingInProgress && !s.reachedTarget
    ensures s.episodeCount == 0 && s.episodeSteps == 0 && s.successCount == 0 && s.difficulty == 0
    ensures s.reward == 0.0 && s.bestReward == NegInf && s.episodeTime == 0.0
    ensures s.lastAction == -1 && s.episodeStartTime == now && s.targetPosition == (0.0, 10.0, 0.0)
  {
    TrainingState(false, false, 0, 0.0, NegInf, 0, false, 0.0, now, 0, 0, -1, (0.0, 10.0, 0.0))
  }

  /** The state after `resetEpisode` at time `now`. */
  function EpisodeReset(s: TrainingState, now: int): TrainingState {
    s.(episodeSteps := 0, reachedTarget := false, episodeCount := s.episodeCount + 1,
       episodeTime := 0.0, episodeStartTime := now)
  }

  /** The state after `incrementEpisodeCount`. */
  function EpisodeCounted(s: TrainingState): TrainingState {
    s.(episodeCount := s.episodeCount + 1)
  }

  /** `resetEpisode` counts one episode, like `incrementEpisodeCount`, and otherwise clears only
      the per-episode fields: the training flags, rewards, counters other than the episode
      count, difficulty, last action and target are kept. */
  lemma EpisodeResetCountsOnce(s: TrainingState, now: int)
    ensures EpisodeReset(s, now).episodeCount == EpisodeCounted(s).episodeCount == s.episodeCount + 1
    ensures EpisodeReset(s, now) == EpisodeCounted(s).(episodeSteps := 0, reachedTarget := false,
                                                       episodeTime := 0.0, episodeStartTime := now)
    ensures var r := EpisodeReset(s, now);
      r.isTraining == s.isTraining && r.isTrainingInProgress == s.isTrainingInProgress
      && r.reward == s.reward && r.bestReward == s.bestReward && r.successCount == s.successCount
      && r.difficulty == s.difficulty && r.lastAction == s.lastAction && r.targetPosition == s.targetPosition
  {
  }

  /** The state after `n` episode resets, the last at time `now`. */
  function ResetsAt(s: TrainingState, n: nat, now: int): TrainingState {
    if n == 0 then s else EpisodeReset(ResetsAt(s, n - 1, now), now)
  }

  /** A run of `n >= 1` resets counts `n` episodes and leaves a fresh episode behind. */
  lemma {:induction false} ResetsCountEpisodes(s: TrainingState, n: nat, now: int)
    requires n >= 1
    ensures ResetsAt(s, n, now) == EpisodeReset(s, now).(episodeCount := s.episodeCount + n)
  {
    if n > 1 {
      ResetsCountEpisodes(s, n - 1, now);
    }
  }

  class TrainingStore {
    var state: TrainingState

    constructor (now: int)
      ensures state == InitialState(now)
    {
      state := InitialState(now);
    }

    method SetIsTraining(value: bool)
      modifies this
      ensures state == old(state).(isTraining := value)
    {
      state := state.(isTraining := value);
    }

    method SetIsTrainingInProgress(value: bool)
      modifies this
      ensures state == old(state).(isTrainingInProgress := value)
    {
      state := state.(isTrainingInProgress := value);
    }

    method SetEpisodeCount(value: Update<int>)
      modifies this
      ensures state == old(state).(episodeCount := Updated(value, old(state.episodeCount)))
    {
      state := state.(episodeCount := Updated(value, state.episodeCount));
    }

    method SetReward(value: real)
      modifies this
      ensures state == old(state).(reward := value)
    {
      state := state.(reward := value);
    }

    method SetBestReward(value: ExtReal)
      modifies this
      ensures state == old(state).(bestReward := value)
    {
      state := state.(bestReward := value);
    }

    method SetEpisodeSteps(value: Update<int>)
      modifies this
      ensures state == old(state).(episodeSteps := Updated(value, old(state.episodeSteps)))
    {
      state := state.(episodeSteps := Updated(value, state.episodeSteps));
    }

    method SetReachedTarget(value: bool)
      modifies this
      ensures state == old(state).(reachedTarget := value)
    {
      state := state.(reachedTarget := value);
    }

    method SetEpisodeTime(value: real)
      modifies this
      ensures state == old(state).(episodeTime := value)
    {
      state := state.(episodeTime := value);
    }

    method SetEpisodeStartTime(value: int)
      modifies this
      ensures state == old(state).(episodeStartTime := value)
    {
      state := state.(episodeStartTime := value);
    }

    method SetSuccessCount(value: Update<int>)
      modifies this
      ensures state == old(state).(successCount := Updated(value, old(state.successCount)))
    {
      state := state.(successCount := Updated(value, state.successCount));
    }

    method SetDifficulty(value: Update<int>)
      modifies this
      ensures state == old(state).(difficulty := Updated(value, old(state.difficulty)))
    {
      state := state.(difficulty := Updated(value, state.difficulty));
    }

    method SetLastAction(value: int)
      modifies this
      ensures state == old(state).(lastAction := value)
    {
      state := state.(lastAction := value);
    }

    method SetTargetPosition(value: (real, real, real))
      modifies this
      ensures state == old(state).(targetPosition := value)
    {
      state := state.(targetPosition := value);
    }

    /** `now` is `Date.now()` at the call. */
    method ResetEpisode(now: int)
      modifies this
      ensures state == EpisodeReset(old(state), now)
    {
      state := state.(episodeSteps := 0, reachedTarget := false, episodeCount := state.episodeCount + 1,
                      episodeTime := 0.0, episodeStartTime := now);
    }

    method IncrementEpisodeCount()
      modifies this
      ensures state == EpisodeCounted(old(state))
    {
      state := state.(episodeCount := state.episodeCount + 1);
    }
  }
}
