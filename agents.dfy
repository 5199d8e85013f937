/** The collaborators the trainer drives but does not implement: the
    stable-baselines algorithm, the hierarchical logger, and
    `rollout.generate_trajectories`. Each is reduced to the state the trainer
    relies on; what their environment interaction produces is left open and
    chosen with `:|`. */
module Agents {
  import opened Results
  import opened Trajectories
  import opened Envs

  /** Keyword arguments forwarded verbatim. */
  type Kwargs = map<string, string>

  datatype LogMessage =
    /** "Requested `requested` transitions but only `available` in buffer.
        Sampling `additional` additional transitions." */
    | TopUpNotice(requested: int, available: nat, additional: int)

  /** `imit_logger.HierarchicalLogger`: the messages logged so far. */
  class Logger {
    var messages: seq<LogMessage>

    constructor ()
      ensures messages == []
    {
      messages := [];
    }

    method Log(m: LogMessage)
      modifies this
      ensures messages == old(messages) + [m]
    {
      messages := messages + [m];
    }
  }

  /** One call `learn(total_timesteps=..., **kwargs)`. */
  datatype LearnCall = LearnCall(totalTimesteps: int, kwargs: Kwargs)

  function EnvFrame(env: Option<VecEnv>): set<object>
  {
    if env.Some? then RecorderFrame(env.value) else {}
  }

  /** `base_class.BaseAlgorithm`: its environment, its logger, the training
      runs asked of it and the rollouts it was used for. */
  class Algorithm {
    var env: Option<VecEnv>
    var logger: Logger?
    var learnCalls: seq<LearnCall>
    /** The `min_timesteps` of every rollout run with this algorithm as the
        policy, oldest first. */
    ghost var rollouts: seq<int>

    ghost predicate Valid()
      reads this, EnvFrame(env)
    {
      env.Some? ==> RecorderValid(env.value)
    }

    constructor (env: Option<VecEnv>)
      requires env.Some? ==> RecorderValid(env.value)
      ensures this.env == env && logger == null && learnCalls == [] && rollouts == [] && Valid()
    {
      this.env := env;
      logger := null;
      learnCalls := [];
      rollouts := [];
    }

    /** `set_env(env)`. */
    method SetEnv(e: VecEnv)
      modifies this
      ensures env == Some(e) && logger == old(logger) && learnCalls == old(learnCalls)
      ensures rollouts == old(rollouts)
    {
      env := Some(e);
    }

    /** `set_logger(logger)`. */
    method SetLogger(l: Logger)
      modifies this
      ensures logger == l && env == old(env) && learnCalls == old(learnCalls)
      ensures rollouts == old(rollouts)
    {
      logger := l;
    }

    /** `learn(total_timesteps, **kwargs)`. Training steps the environment;
        whatever trajectories that finishes, `collected`, are recorded by the
        environment's buffering wrapper, with the rewards it sees. */
    method Learn(totalTimesteps: int, kwargs: Kwargs) returns (ghost collected: seq<Trajectory>)
      requires Valid()
      modifies this, EnvFrame(env)
      ensures Valid()
      ensures env == old(env) && logger == old(logger) && rollouts == old(rollouts)
      ensures learnCalls == old(learnCalls) + [LearnCall(totalTimesteps, kwargs)]
      ensures env.Some? && Recorder(env.value).Some? ==>
        && Recorder(env.value).value.trajectories == old(Recorder(env.value).value.trajectories) + collected
        && Recorder(env.value).value.recordedLog == old(Recorder(env.value).value.recordedLog) + collected
    {
      learnCalls := learnCalls + [LearnCall(totalTimesteps, kwargs)];
      collected := [];
      if env.Some? && Recorder(env.value).Some? {
        var w := Recorder(env.value).value;
        var episodes: seq<Trajectory> :| AllRewardsFrom(episodes, w.recordedRewards);
        w.Record(episodes);
        collected := episodes;
      }
    }
  }

  /** Some trajectories with the given rewards and `minTimesteps` steps in all. */
  function Witness(minTimesteps: int, rewards: RewardOrigin): (r: seq<Trajectory>)
    ensures TotalLength(r) >= minTimesteps && AllRewardsFrom(r, rewards)
  {
    if minTimesteps <= 0 then []
    else
      var t := Trajectory(seq(minTimesteps + 1, _ => 0), seq(minTimesteps, _ => 0), true, rewards);
      assert [t][1..] == [];
      [t]
  }

  /** `rollout.generate_trajectories(policy, venv, make_sample_until(min_timesteps))`:
      steps `venv` with `policy` until the finished trajectories hold at
      least `minTimesteps` steps, and returns them with the rewards `venv`
      emits. The buffering wrapper beneath records what was stepped,
      `recorded`, with the rewards it sees: at least `minTimesteps` steps
      too, though not necessarily the same trajectories. */
  method GenerateTrajectories(policy: Algorithm, venv: VecEnv, minTimesteps: int)
    returns (trajs: seq<Trajectory>, ghost recorded: seq<Trajectory>)
    requires RecorderValid(venv)
    modifies policy, RecorderFrame(venv)
    ensures RecorderValid(venv)
    ensures policy.rollouts == old(policy.rollouts) + [minTimesteps]
    ensures policy.env == old(policy.env) && policy.logger == old(policy.logger)
    ensures policy.learnCalls == old(policy.learnCalls)
    ensures TotalLength(trajs) >= minTimesteps && TotalLength(recorded) >= minTimesteps
    ensures AllRewardsFrom(trajs, EmittedRewards(venv))
    ensures Recorder(venv).Some? ==>
      && Recorder(venv).value.trajectories == old(Recorder(venv).value.trajectories) + recorded
      && Recorder(venv).value.recordedLog == old(Recorder(venv).value.recordedLog) + recorded
  {
    policy.rollouts := policy.rollouts + [minTimesteps];
    var rewards := if Recorder(venv).Some? then Recorder(venv).value.recordedRewards else EmittedRewards(venv);
    ghost var example := Witness(minTimesteps, rewards);
    var episodes: seq<Trajectory> :| TotalLength(episodes) >= minTimesteps && AllRewardsFrom(episodes, rewards);
    trajs := Relabel(episodes, EmittedRewards(venv));
    recorded := episodes;
    TotalLengthRelabel(episodes, EmittedRewards(venv));
    if Recorder(venv).Some? {
      var w := Recorder(venv).value;
      w.Record(episodes);
    }
  }
}
