/** The vectorized environments the trainer composes: a plain environment,
    the BufferingWrapper that records every finished trajectory, and the
    RewardVecEnvWrapper that substitutes a reward function for the
    environment's reward. Only their effect on the recorded trajectories and
    on the rewards seen above them is modelled. */
module Envs {
  import opened Results
  import opened Trajectories

  datatype VecEnv =
    | BaseVecEnv(id: nat)
    | Buffering(wrapper: BufferingWrapper)
    | RewardWrapped(inner: VecEnv, rewardFn: RewardFn)

  /** The rewards seen by whoever steps `v`: a reward wrapper replaces them,
      a buffering wrapper passes on those of the environment it wraps. */
  function EmittedRewards(v: VecEnv): RewardOrigin
  {
    match v
    case BaseVecEnv(_) => EnvironmentReward
    case Buffering(w) => w.recordedRewards
    case RewardWrapped(_, fn) => LearnedReward(fn)
  }

  /** The buffering wrapper that records the steps taken on `v`: the
      outermost one, reached through reward wrappers. */
  function Recorder(v: VecEnv): Option<BufferingWrapper>
  {
    match v
    case BaseVecEnv(_) => None
    case Buffering(w) => Some(w)
    case RewardWrapped(inner, _) => Recorder(inner)
  }

  /** The objects stepping `v` may change. */
  function RecorderFrame(v: VecEnv): set<object>
  {
    if Recorder(v).Some? then {Recorder(v).value} else {}
  }

  ghost predicate RecorderValid(v: VecEnv)
    reads RecorderFrame(v)
  {
    Recorder(v).Some? ==> Recorder(v).value.Valid()
  }

  /** `wrappers.BufferingWrapper`: finished trajectories are kept, with the
      rewards of the wrapped environment, until popped. */
  class BufferingWrapper {
    const venv: VecEnv
    /** The rewards of `venv`, which is what this wrapper records. */
    const recordedRewards: RewardOrigin
    /** The trajectories recorded and not yet popped, oldest first. */
    var trajectories: seq<Trajectory>
    /** Every trajectory ever recorded, oldest first, popped or not. */
    ghost var recordedLog: seq<Trajectory>

    /** The buffer holds the most recent recordings, each with the rewards
        of the wrapped environment. */
    ghost predicate Valid()
      reads this
    {
      && recordedRewards == EmittedRewards(venv)
      && AllRewardsFrom(trajectories, recordedRewards)
      && |trajectories| <= |recordedLog|
      && trajectories == recordedLog[|recordedLog| - |trajectories|..]
    }

    constructor (venv: VecEnv)
      ensures this.venv == venv && trajectories == [] && recordedLog == [] && Valid()
    {
      this.venv := venv;
      recordedRewards := EmittedRewards(venv);
      trajectories := [];
      recordedLog := [];
    }

    /** `n_transitions`: the number of buffered transitions, which is zero
        exactly when every buffered trajectory is empty. */
    function NTransitions(): (n: nat)
      reads this
      ensures n == 0 <==> forall i :: 0 <= i < |trajectories| ==> Len(trajectories[i]) == 0
    {
      TotalLengthBounds(trajectories);
      TotalLength(trajectories)
    }

    /** The effect of stepping the wrapped environment through `episodes`. */
    method Record(episodes: seq<Trajectory>)
      requires Valid() && AllRewardsFrom(episodes, recordedRewards)
      modifies this
      ensures Valid()
      ensures trajectories == old(trajectories) + episodes
      ensures recordedLog == old(recordedLog) + episodes
    {
      trajectories := trajectories + episodes;
      recordedLog := recordedLog + episodes;
    }

    /** `pop_trajectories()`: hands over the buffered trajectories, oldest
        first, and empties the buffer. */
    method PopTrajectories() returns (popped: seq<Trajectory>)
      requires Valid()
      modifies this
      ensures Valid()
      ensures popped == old(trajectories) && trajectories == []
      ensures recordedLog == old(recordedLog)
      ensures AllRewardsFrom(popped, EmittedRewards(venv))
    {
      popped := trajectories;
      trajectories := [];
    }
  }
}
