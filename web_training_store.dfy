/** The web demo's training store: counters, flags, elapsed time and a bounded window of the
    most recent rewards. Each action changes only the field it names. */
module WebTrainingStore {
  import opened Common

  /** `addReward` keeps this many previous rewards before appending the new one. */
  const KeptRewards: nat := 30

  datatype WebState = WebState(
    episodeCount: int,
    successCount: int,
    rewards: seq<real>,
    collected: bool,
    isTraining: bool,
    elapsedTime: real,
    progressToTarget: real)

  function InitialState(): (s: WebState)
    ensures s.episodeCount == 0 && s.successCount == 0 && s.rewards == []
    ensures !s.collected && !s.isTraining && s.elapsedTime == 0.0 && s.progressToTarget == 0.0
  {
    WebState(0, 0, [], false, false, 0.0, 0.0)
  }

  /** The reward list after `addReward(r)`: `slice(-30)` of the old list, then `r`. */
  function RewardWindow(rewards: seq<real>, r: real): (w: seq<real>)
    ensures |w| == Min(KeptRewards, |rewards|) + 1 && |w| <= KeptRewards + 1
    ensures w[|w| - 1] == r
    ensures w[..|w| - 1] == rewards[|rewards| - (|w| - 1)..]
  {
    LastN(rewards, KeptRewards) + [r]
  }

  /** The window is the last 31 rewards ever added, oldest first. */
  lemma RewardWindowIsLast31(rewards: seq<real>, r: real)
    ensures RewardWindow(rewards, r) == LastN(rewards + [r], KeptRewards + 1)
  {
    var w := RewardWindow(rewards, r);
    var l := LastN(rewards + [r], KeptRewards + 1);
    assert |w| == |l|;
    forall i | 0 <= i < |w|
      ensures w[i] == l[i]
    {
      if i < |w| - 1 {
        assert w[i] == rewards[|rewards| - (|w| - 1) + i];
        assert l[i] == (rewards + [r])[|rewards| + 1 - |l| + i];
      }
    }
  }

  /** The reward list after adding every reward of `rs`, first to last. */
  function AddRewards(rewards: seq<real>, rs: seq<real>): seq<real>
    decreases |rs|
  {
    if rs == [] then rewards else AddRewards(RewardWindow(rewards, rs[0]), rs[1..])
  }

  /** After any non-empty run of `addReward` calls the list is the last 31 rewards of the whole
      history, whatever the list held before. */
  lemma {:induction false} AddRewardsKeepsLast31(rewards: seq<real>, rs: seq<real>)
    requires rs != []
    ensures AddRewards(rewards, rs) == LastN(rewards + rs, KeptRewards + 1)
    decreases |rs|
  {
    var w := RewardWindow(rewards, rs[0]);
    RewardWindowIsLast31(rewards, rs[0]);
    assert AddRewards(rewards, rs) == AddRewards(w, rs[1..]);
    if |rs| == 1 {
      assert rs[1..] == [];
      assert rewards + rs == rewards + [rs[0]];
    } else {
      AddRewardsKeepsLast31(w, rs[1..]);
      WindowOfRest(rewards, rs[0], rs[1..]);
      HeadTail(rs);
    }
  }

  /** Windowing after the first reward and again after the rest is windowing the whole. */
  lemma WindowOfRest(rewards: seq<real>, r: real, rest: seq<real>)
    ensures LastN(LastN(rewards + [r], KeptRewards + 1) + rest, KeptRewards + 1)
            == LastN(rewards + ([r] + rest), KeptRewards + 1)
  {
    LastNOfAppend(rewards + [r], rest, KeptRewards + 1);
    assert rewards + [r] + rest == rewards + ([r] + rest);
  }

  class WebTrainingStore {
    var state: WebState

    /** The reward list never exceeds 31 entries. */
    ghost predicate Valid()
      reads this
    {
      |state.rewards| <= KeptRewards + 1
    }

    constructor ()
      ensures Valid() && state == InitialState()
    {
      state := InitialState();
    }

    method IncrementElapsedTime(delta: real)
      modifies this
      requires Valid()
      ensures Valid()
      ensures state == old(state).(elapsedTime := old(state.elapsedTime) + delta)
    {
      state := state.(elapsedTime := state.elapsedTime + delta);
    }

    method SetCollected(value: bool)
      modifies this
      requires Valid()
      ensures Valid()
      ensures state == old(state).(collected := value)
    {
      state := state.(collected := value);
    }

    method AddReward(reward: real)
      modifies this
      ensures Valid()
      ensures state == old(state).(rewards := RewardWindow(old(state.rewards), reward))
    {
      state := state.(rewards := LastN(state.rewards, KeptRewards) + [reward]);
    }

    method IncrementEpisode()
      modifies this
      requires Valid()
      ensures Valid()
      ensures state == old(state).(episodeCount := old(state.episodeCount) + 1)
    {
      state := state.(episodeCount := state.episodeCount + 1);
    }

    method IncrementSuccess()
      modifies this
      requires Valid()
      ensures Valid()
      ensures state == old(state).(successCount := old(state.successCount) + 1)
    {
      state := state.(successCount := state.successCount + 1);
    }

    method SetTraining(isTraining: bool)
      modifies this
      requires Valid()
      ensures Valid()
      ensures state == old(state).(isTraining := isTraining)
    {
      state := state.(isTraining := isTraining);
    }

    method SetElapsedTime(time: real)
      modifies this
      requires Valid()
      ensures Valid()
      ensures state == old(state).(elapsedTime := time)
    {
      state := state.(elapsedTime := time);
    }

    method SetProgressToTarget(progress: real)
      modifies this
      requires Valid()
      ensures Valid()
      ensures state == old(state).(progressToTarget := progress)
    {
      state := state.(progressToTarget := progress);
    }
  }
}
