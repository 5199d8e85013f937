/** The trajectory generators of `imitation.policies.trainer`: a generator
    that samples from a fixed collection, and one that trains a
    stable-baselines algorithm on a substituted reward and hands out the
    trajectories its environment recorded, with the environment's own
    rewards. Both select their result with the step-quota selector. */
module Trainer {
  import opened Results
  import opened Trajectories
  import opened StepQuota
  import opened Rng
  import opened Envs
  import opened Agents

  /** A reward source: a reward function, or a reward model whose `predict`
      method serves as one. */
  datatype RewardSource = FromFn(fn: RewardFn) | FromNet(net: RewardNet)

  /** The reward function the trainer substitutes for the environment's. */
  function AsRewardFn(src: RewardSource): RewardFn
  {
    match src
    case FromFn(fn) => fn
    case FromNet(net) => NetPredict(net)
  }

  // ---------------------------------------------------------------------
  // Fixed dataset
  // ---------------------------------------------------------------------

  /** Sampling from a fixed collection: the selector applied to a shuffle of
      the whole collection. Whatever the generator draws, it fails exactly
      when the collection holds fewer than `steps` steps (or is empty while
      `steps <= 0`), and otherwise returns a prefix of a permutation of the
      collection that reaches the quota. */
  lemma DatasetSampleIsPrefixOfPermutation(stored: seq<Trajectory>, stream: nat -> nat, k: nat, steps: int)
    ensures var perm := Shuffled(stored, stream, k);
      var r := GetTrajectories(perm, steps);
      && multiset(perm) == multiset(stored)
      && (r.Err? <==> TotalLength(stored) < steps || (stored == [] && steps <= 0))
      && (r.Ok? ==> r.value == perm[..|r.value|] && TotalLength(r.value) >= steps)
  {
    var perm := Shuffled(stored, stream, k);
    ShuffledPermutes(stored, stream, k);
    TotalLengthPermutation(perm, stored);
    if GetTrajectories(perm, steps).Ok? {
      SelectionReachesQuota(perm, steps);
    }
  }

  /** `TrajectoryDataset`: a loaded collection of trajectories and its own
      random generator. */
  class TrajectoryDataset {
    var logger: Logger
    /** `_trajectories`, as loaded. */
    var trajectories: seq<Trajectory>
    const rng: Random

    /** `TrajectoryDataset(path, seed, custom_logger)`; `loaded` is what
        `types.load(path)` returns and `streamOf` maps a seed to what
        `random.Random(seed)` draws. */
    constructor (loaded: seq<Trajectory>, seed: int, streamOf: int -> (nat -> nat), customLogger: Logger?)
      ensures trajectories == loaded
      ensures fresh(rng) && rng.seed == seed && rng.stream == streamOf(seed) && rng.draws == 0
      ensures customLogger != null ==> logger == customLogger
      ensures customLogger == null ==> fresh(logger) && logger.messages == []
    {
      if customLogger != null {
        logger := customLogger;
      } else {
        logger := new Logger();
      }
      trajectories := loaded;
      rng := new Random(seed, streamOf);
    }

    /** `sample(steps)`: shuffles a copy of the collection with the
        generator, which advances, and selects from it. The collection itself
        is left as it was. */
    method Sample(steps: int) returns (r: Result<seq<Trajectory>>)
      modifies rng
      ensures trajectories == old(trajectories)
      ensures rng.draws == old(rng.draws) + ShuffleDraws(|trajectories|)
      ensures r == GetTrajectories(Shuffled(trajectories, rng.stream, old(rng.draws)), steps)
    {
      var stored := trajectories;
      var copy := new Trajectory[|stored|](i requires 0 <= i < |stored| => stored[i]);
      assert copy[..] == stored;
      rng.Shuffle(copy);
      r := GetTrajectories(copy[..], steps);
    }

    /** `train(steps, **kwargs)`: a fixed dataset has nothing to train. */
    method Train(steps: int, kwargs: Kwargs)
      ensures unchanged(this, rng)
    {
    }

    /** The `logger` setter. */
    method SetLogger(value: Logger)
      modifies this
      ensures logger == value && trajectories == old(trajectories)
    {
      logger := value;
    }
  }

  /** Two datasets created from the same data with the same seed draw the
      same shuffle, so their first samples agree; each is the selection from
      the shuffle the seed's own stream yields. */
  method SameSeedSameSample(loaded: seq<Trajectory>, seed: int, streamOf: int -> (nat -> nat), steps: int)
    returns (first: Result<seq<Trajectory>>, second: Result<seq<Trajectory>>)
    ensures first == second
    ensures first == GetTrajectories(Shuffled(loaded, streamOf(seed), 0), steps)
    ensures first.Err? <==> TotalLength(loaded) < steps || (loaded == [] && steps <= 0)
  {
    var a := new TrajectoryDataset(loaded, seed, streamOf, null);
    var b := new TrajectoryDataset(loaded, seed, streamOf, null);
    first := a.Sample(steps);
    second := b.Sample(steps);
    DatasetSampleIsPrefixOfPermutation(loaded, streamOf(seed), 0, steps);
  }

  // ---------------------------------------------------------------------
  // Agent trainer
  // ---------------------------------------------------------------------

  /** The list `sample` hands to the selector: the drained trajectories most
      recent first, followed, only when they fall short of `steps`, by the
      trajectories drained after the top-up rollout. */
  function Candidates(drained: seq<Trajectory>, steps: int, additional: seq<Trajectory>): (r: seq<Trajectory>)
    ensures |drained| <= |r|
    ensures forall i :: 0 <= i < |drained| ==> r[i] == drained[|drained| - 1 - i]
    ensures r[|drained|..] == if TotalLength(drained) < steps then additional else []
  {
    if TotalLength(drained) < steps then Reverse(drained) + additional else Reverse(drained)
  }

  /** What the top-up rollout guarantees: when the drained trajectories fall
      short, the additional ones hold at least the shortfall. */
  predicate TopUpSuffices(drained: seq<Trajectory>, steps: int, additional: seq<Trajectory>)
  {
    TotalLength(drained) < steps ==> TotalLength(additional) >= steps - TotalLength(drained)
  }

  /** Given a sufficient top-up, sampling from an agent fails only in one
      case: nothing was drained and `steps <= 0`, where the selector meets an
      empty list. */
  lemma AgentSampleFailsOnlyWhenEmpty(drained: seq<Trajectory>, steps: int, additional: seq<Trajectory>)
    requires TopUpSuffices(drained, steps, additional)
    ensures GetTrajectories(Candidates(drained, steps, additional), steps).Err? <==> drained == [] && steps <= 0
  {
    TotalLengthReverse(drained);
    TotalLengthAppend(Reverse(drained), additional);
  }

  /** When the buffer already holds enough, the result is made of the most
      recently recorded trajectories, newest first. */
  lemma AgentSampleTakesMostRecent(drained: seq<Trajectory>, steps: int, additional: seq<Trajectory>)
    requires drained != [] && TotalLength(drained) >= steps
    ensures var r := GetTrajectories(Candidates(drained, steps, additional), steps);
      && r.Ok?
      && forall i :: 0 <= i < |r.value| ==> r.value[i] == drained[|drained| - 1 - i]
  {
    TotalLengthReverse(drained);
  }

  /** A selection from `front + back`, where `front` alone falls short,
      reaches past all of `front`. */
  lemma SelectionExtendsPastShortFront(front: seq<Trajectory>, back: seq<Trajectory>, steps: int)
    requires TotalLength(front) < steps <= TotalLength(front + back)
    ensures var r := GetTrajectories(front + back, steps);
      && r.Ok?
      && |front| < |r.value|
      && r.value == front + back[..|r.value| - |front|]
  {
    var cands := front + back;
    SelectionReachesQuota(cands, steps);
    var sel := GetTrajectories(cands, steps).value;
    var n := |sel|;
    if n <= |front| {
      assert sel == front[..n];
      PrefixTotalLengthBound(front, n);
      assert false;
    }
    assert sel == cands[..n];
    assert cands[..n] == front + back[..n - |front|];
  }

  /** When the buffer falls short, the result keeps every drained trajectory
      (newest first) and continues with a non-empty prefix of the top-up. */
  lemma AgentSampleTopUpKeepsAllDrained(drained: seq<Trajectory>, steps: int, additional: seq<Trajectory>)
    requires TotalLength(drained) < steps && TopUpSuffices(drained, steps, additional)
    ensures var r := GetTrajectories(Candidates(drained, steps, additional), steps);
      && r.Ok?
      && |drained| < |r.value|
      && r.value == Reverse(drained) + additional[..|r.value| - |drained|]
  {
    TotalLengthReverse(drained);
    TotalLengthAppend(Reverse(drained), additional);
    SelectionExtendsPastShortFront(Reverse(drained), additional, steps);
  }

  /** The selection is taken from its input, so it carries the same rewards. */
  lemma SelectionKeepsRewards(ts: seq<Trajectory>, steps: int, origin: RewardOrigin)
    requires AllRewardsFrom(ts, origin)
    ensures GetTrajectories(ts, steps).Ok? ==> AllRewardsFrom(GetTrajectories(ts, steps).value, origin)
  {
  }

  /** `AgentTrainer`: trains `algorithm` on the reward of `rewardFn` while a
      buffering wrapper under the reward wrapper records every trajectory
      with the rewards of the algorithm's original environment. */
  class AgentTrainer {
    const algorithm: Algorithm
    var logger: Logger
    const rewardFn: RewardFn
    const bufferingWrapper: BufferingWrapper
    /** The reward-substituting wrapper around the buffering wrapper; the
        algorithm's environment. */
    const venv: VecEnv

    ghost predicate Valid()
      reads this, algorithm, bufferingWrapper
    {
      && venv == RewardWrapped(Buffering(bufferingWrapper), rewardFn)
      && algorithm.env == Some(venv)
      && algorithm.logger == logger
      && bufferingWrapper.Valid()
    }

    constructor Assemble(algorithm: Algorithm, logger: Logger, rewardFn: RewardFn, bufferingWrapper: BufferingWrapper)
      ensures this.algorithm == algorithm && this.logger == logger && this.rewardFn == rewardFn
      ensures this.bufferingWrapper == bufferingWrapper
      ensures venv == RewardWrapped(Buffering(bufferingWrapper), rewardFn)
    {
      this.algorithm := algorithm;
      this.logger := logger;
      this.rewardFn := rewardFn;
      this.bufferingWrapper := bufferingWrapper;
      venv := RewardWrapped(Buffering(bufferingWrapper), rewardFn);
    }

    /** `AgentTrainer(algorithm, reward_fn, custom_logger)`. The logger is set
        first, and forwarded to the algorithm, before the environment is
        checked; a missing environment raises ValueError after that. Otherwise
        a buffering wrapper goes over the algorithm's environment, a reward
        wrapper over it, and the algorithm is pointed at the reward wrapper. */
    static method Create(algorithm: Algorithm, rewardSource: RewardSource, customLogger: Logger?)
      returns (r: Result<AgentTrainer>)
      modifies algorithm
      ensures customLogger != null ==> algorithm.logger == customLogger
      ensures customLogger == null ==> algorithm.logger != null && fresh(algorithm.logger)
      ensures algorithm.learnCalls == old(algorithm.learnCalls)
      ensures r.Err? <==> old(algorithm.env).None?
      ensures r.Err? ==> r.error == EnvNotSet && algorithm.env == old(algorithm.env)
      ensures r.Ok? ==>
        && fresh(r.value) && fresh(r.value.bufferingWrapper)
        && r.value.Valid()
        && r.value.algorithm == algorithm
        && r.value.logger == algorithm.logger
        && r.value.rewardFn == AsRewardFn(rewardSource)
        && r.value.bufferingWrapper.venv == old(algorithm.env).value
        && r.value.bufferingWrapper.trajectories == []
    {
      var logger: Logger;
      if customLogger != null {
        logger := customLogger;
      } else {
        logger := new Logger();
      }
      algorithm.SetLogger(logger);
      var fn := AsRewardFn(rewardSource);
      if algorithm.env.None? {
        return Err(EnvNotSet);
      }
      var buffering := new BufferingWrapper(algorithm.env.value);
      var trainer := new AgentTrainer.Assemble(algorithm, logger, fn, buffering);
      algorithm.SetEnv(trainer.venv);
      r := Ok(trainer);
    }

    /** `train(steps, **kwargs)`: refuses, without training, while the buffer
        holds transitions; otherwise runs `learn(total_timesteps=steps)`,
        whose trajectories `collected` end up in the buffer. */
    method Train(steps: int, kwargs: Kwargs) returns (outcome: Outcome, ghost collected: seq<Trajectory>)
      requires Valid()
      modifies algorithm, bufferingWrapper
      ensures Valid()
      ensures outcome.Fail? <==> old(bufferingWrapper.NTransitions()) != 0
      ensures outcome.Fail? ==>
        && outcome.error == TransitionsLeft(old(bufferingWrapper.NTransitions()))
        && algorithm.learnCalls == old(algorithm.learnCalls)
        && bufferingWrapper.trajectories == old(bufferingWrapper.trajectories)
        && bufferingWrapper.recordedLog == old(bufferingWrapper.recordedLog)
      ensures outcome.Pass? ==>
        && algorithm.learnCalls == old(algorithm.learnCalls) + [LearnCall(steps, kwargs)]
        && bufferingWrapper.trajectories == old(bufferingWrapper.trajectories) + collected
        && bufferingWrapper.recordedLog == old(bufferingWrapper.recordedLog) + collected
      ensures algorithm.rollouts == old(algorithm.rollouts)
    {
      var nTransitions := bufferingWrapper.NTransitions();
      if nTransitions != 0 {
        return Fail(TransitionsLeft(nTransitions)), [];
      }
      assert Recorder(venv) == Some(bufferingWrapper);
      collected := algorithm.Learn(steps, kwargs);
      outcome := Pass;
    }

    /** `_pop_trajectories()`. */
    method PopTrajectories() returns (popped: seq<Trajectory>)
      requires Valid()
      modifies bufferingWrapper
      ensures Valid()
      ensures popped == old(bufferingWrapper.trajectories) && bufferingWrapper.trajectories == []
      ensures bufferingWrapper.recordedLog == old(bufferingWrapper.recordedLog)
      ensures AllRewardsFrom(popped, EmittedRewards(bufferingWrapper.venv))
    {
      popped := bufferingWrapper.PopTrajectories();
    }

    /** `sample(steps)`: drains the buffer, puts the newest trajectories
        first and, when they fall short, logs it, runs one rollout of the
        algorithm on the reward-substituting environment for exactly the
        shortfall and drains again, discarding the rollout's own
        trajectories (they carry the substituted reward). `additional` is
        what the buffering wrapper recorded during that rollout. The result
        is the selector applied to those candidates, and carries only rewards
        of the original environment. */
    method Sample(steps: int) returns (r: Result<seq<Trajectory>>, ghost additional: seq<Trajectory>)
      requires Valid()
      modifies bufferingWrapper, logger, algorithm
      ensures Valid()
      ensures bufferingWrapper.trajectories == []
      ensures bufferingWrapper.recordedLog == old(bufferingWrapper.recordedLog) + additional
      ensures r == GetTrajectories(Candidates(old(bufferingWrapper.trajectories), steps, additional), steps)
      ensures TopUpSuffices(old(bufferingWrapper.trajectories), steps, additional)
      ensures algorithm.learnCalls == old(algorithm.learnCalls)
      ensures var avail := TotalLength(old(bufferingWrapper.trajectories));
        if avail < steps
        then
          && algorithm.rollouts == old(algorithm.rollouts) + [steps - avail]
          && logger.messages == old(logger.messages) + [TopUpNotice(steps, avail, steps - avail)]
        else
          && additional == []
          && algorithm.rollouts == old(algorithm.rollouts)
          && logger.messages == old(logger.messages)
      ensures AllRewardsFrom(additional, EmittedRewards(bufferingWrapper.venv))
      ensures r.Ok? ==> AllRewardsFrom(r.value, EmittedRewards(bufferingWrapper.venv))
    {
      var drained := PopTrajectories();
      ghost var origin := EmittedRewards(bufferingWrapper.venv);
      var trajectories := Reverse(drained);
      TotalLengthReverse(drained);
      var availSteps := TotalLength(trajectories);
      additional := [];
      if availSteps < steps {
        var more := TopUp(steps, availSteps);
        additional := more;
        trajectories := trajectories + more;
      }
      assert trajectories == Candidates(drained, steps, additional);
      assert AllRewardsFrom(trajectories, origin);
      r := GetTrajectories(trajectories, steps);
      SelectionKeepsRewards(trajectories, steps, origin);
    }

    /** The shortfall branch of `sample(steps)`, with `available` steps
        drained: logs the shortfall, runs one rollout of the algorithm for
        exactly that many steps and drains what the buffering wrapper
        recorded meanwhile, which holds at least as many. */
    method TopUp(steps: int, available: nat) returns (more: seq<Trajectory>)
      requires Valid() && bufferingWrapper.trajectories == [] && available < steps
      modifies bufferingWrapper, logger, algorithm
      ensures Valid()
      ensures bufferingWrapper.trajectories == []
      ensures bufferingWrapper.recordedLog == old(bufferingWrapper.recordedLog) + more
      ensures TotalLength(more) >= steps - available
      ensures AllRewardsFrom(more, EmittedRewards(bufferingWrapper.venv))
      ensures algorithm.learnCalls == old(algorithm.learnCalls)
      ensures algorithm.rollouts == old(algorithm.rollouts) + [steps - available]
      ensures logger.messages == old(logger.messages) + [TopUpNotice(steps, available, steps - available)]
    {
      logger.Log(TopUpNotice(steps, available, steps - available));
      assert algorithm.rollouts == old(algorithm.rollouts);
      assert Recorder(venv) == Some(bufferingWrapper);
      var rolledOut: seq<Trajectory>;
      ghost var recorded: seq<Trajectory>;
      rolledOut, recorded := GenerateTrajectories(algorithm, venv, steps - available);
      more := PopTrajectories();
      assert more == recorded;
    }

    /** The `logger` setter: stores the logger and forwards it to the
        algorithm. */
    method SetLogger(value: Logger)
      requires Valid()
      modifies this, algorithm
      ensures Valid()
      ensures logger == value && algorithm.logger == value
      ensures algorithm.env == old(algorithm.env) && algorithm.learnCalls == old(algorithm.learnCalls)
    {
      logger := value;
      algorithm.SetLogger(logger);
    }
  }
}
