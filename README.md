# Trajectory generators of `imitation.policies.trainer`, modelled in Dafny

This project models the trajectory-generation layer of the `imitation`
library (`src/imitation/policies/trainer.py`):

- the **step-quota selector** `_get_trajectories`, which returns the shortest
  prefix of an ordered list of trajectories whose summed length reaches a
  requested number of steps, computed as the source does it (running sum,
  boolean mask, numpy `argmax`, slice);
- **`TrajectoryDataset`**, which shuffles a copy of a loaded collection with
  its own `random.Random` and applies the selector;
- **`AgentTrainer`**, which trains a stable-baselines algorithm on a
  substituted reward while a `BufferingWrapper` under the reward wrapper
  records every trajectory with the original environment's rewards; `train`
  refuses to run while the buffer holds transitions, and `sample` drains the
  buffer, puts the newest trajectories first, tops up with a rollout of
  exactly the shortfall, re-drains, and applies the selector.

Files and modules:

| file | module | contents |
|---|---|---|
| results.dfy | `Results` | `Option`, `Result`, `Outcome`, and the exceptions raised (`Error`) |
| trajectories.dfy | `Trajectories` | `Trajectory` (with the origin of its rewards), `TotalLength`, `Reverse`, lemmas on lengths |
| step_quota.dfy | `StepQuota` | `_get_trajectories` and its properties |
| rng.dfy | `Rng` | `random.Random.shuffle` as the Fisher–Yates loop Python runs, on an array |
| envs.dfy | `Envs` | vectorized environments, `BufferingWrapper` |
| agents.dfy | `Agents` | logger, the stable-baselines algorithm, `rollout.generate_trajectories` |
| trainer.dfy | `Trainer` | `TrajectoryDataset`, `AgentTrainer`, and lemmas about their `sample` |

Each trajectory carries the origin of its rewards (the environment's own, or
a named reward function). That is how the model states that `sample` never
hands out trajectories rewarded by the reward model: the rollout's return
value carries the substituted reward and is discarded, and only the buffering
wrapper's copies, which carry the rewards of the algorithm's original
environment, are returned.

Two edge cases of the selector follow from numpy: `argmax` of an empty array
raises ValueError, so the selector also fails when the input is empty and
`steps <= 0`; and for `steps <= 0` with a non-empty input every mask entry is
true, so it returns the first trajectory, not an empty list. Hence
`AgentTrainer.sample` fails exactly when the drained buffer is empty and
`steps <= 0`. `pop_trajectories` may hand out unfinished trajectories (the
open question at trainer.py:170), so trajectories in the model may be
unfinished (`terminal == false`).

The model keeps two ghost records beside the state the source has: every
trajectory the buffering wrapper ever recorded (`recordedLog`), and the
`min_timesteps` of every rollout run with the algorithm as policy
(`rollouts`). They let the contract of `sample` say which rollout it asked
for and that what it re-drained is exactly what that rollout recorded.

## Model

| member | source | states |
|---|---|---|
| `Trajectories.Reverse` | src/imitation/policies/trainer.py:143 | entry i of `trajectories[::-1]` is entry n-1-i of the drained list, same length |
| `Trajectories.TotalLengthReverse` | src/imitation/policies/trainer.py:143-144 | reversing the drained list does not change `avail_steps` |
| `Trajectories.TotalLengthAppend` | src/imitation/policies/trainer.py:165 | the summed length of `trajectories + additional` is the sum of the two totals |
| `Trajectories.TotalLengthPermutation` | src/imitation/policies/trainer.py:72-74 | any permutation of the trajectories has the same summed length, so shuffling does not change the available steps |
| `Trajectories.TotalLengthBounds` | src/imitation/policies/trainer.py:144 | `sum(len(traj) ...)` is at least each trajectory's length, and zero exactly when every trajectory is empty |
| `Trajectories.Relabel` | src/imitation/policies/trainer.py:154-157 | the rollout's trajectories are episodes with the substituted reward: same count, same observations, actions and terminal flags, every reward of the given origin |
| `Trajectories.TotalLengthRelabel` | src/imitation/policies/trainer.py:154-157 | substituting rewards keeps the summed length |
| `StepQuota.CumSumFrom` | src/imitation/policies/trainer.py:190 | entry i of the running sum is the start value plus the summed length of the first i+1 trajectories |
| `StepQuota.CumSum` | src/imitation/policies/trainer.py:190 | `np.cumsum` of the lengths: entry i is the summed length of the first i+1 trajectories |
| `StepQuota.FirstTrue` | src/imitation/policies/trainer.py:193 | the index returned is true in the mask and every earlier entry is false |
| `StepQuota.ArgMax` | src/imitation/policies/trainer.py:193 | numpy `argmax`: ValueError on an empty mask, otherwise an index holding the maximum with no maximum before it |
| `StepQuota.GetTrajectories` | src/imitation/policies/trainer.py:179-198 | raises RuntimeError(requested, available) exactly when available < steps and ValueError when the input is empty with steps <= 0; otherwise a non-empty prefix of the input in input order |
| `StepQuota.SelectedIndex` | src/imitation/policies/trainer.py:190-193 | `argmax` picks the first position whose running sum reaches `steps` |
| `StepQuota.SelectionReachesQuota` | src/imitation/policies/trainer.py:196-197 | the sanity assertion holds: the selection has at least `steps` steps |
| `StepQuota.SelectionIsMinimal` | src/imitation/policies/trainer.py:190-195 | every shorter non-empty prefix falls short of `steps`; for steps <= 0 the selection is the first trajectory alone |
| `StepQuota.ShortestSufficientPrefix` | src/imitation/policies/trainer.py:190-195 | any non-empty prefix that reaches `steps` is at least as long as the selection, which then exists |
| `StepQuota.PrefixTotalLengthBound` | src/imitation/policies/trainer.py:183-184 | a prefix never holds more steps than the whole input |
| `StepQuota.SelectsFirstTwoOfFourFiveTwo` | src/imitation/policies/trainer.py:190-195 | lengths [4, 5, 2] with steps 6 select the first two trajectories |
| `Rng.SwapPermutes` | src/imitation/policies/trainer.py:73 | one exchange of two list entries is a permutation |
| `Rng.ShuffleFrom` | src/imitation/policies/trainer.py:73 | the remaining loop of `shuffle` from any index keeps the list's length |
| `Rng.ShuffleFromPermutes` | src/imitation/policies/trainer.py:73 | the remaining loop of `shuffle` from any index is a permutation of length-preserving swaps |
| `Rng.Shuffled` | src/imitation/policies/trainer.py:73 | `shuffle` keeps the list's length |
| `Rng.ShuffledPermutes` | src/imitation/policies/trainer.py:73 | whatever the generator draws, `shuffle` permutes the list |
| `Rng.Random.constructor` | src/imitation/policies/trainer.py:68 | a generator created from a seed draws the stream of that seed and has drawn nothing yet |
| `Rng.Random.RandBelow` | src/imitation/policies/trainer.py:73 | a draw is below its bound and advances the generator by one |
| `Rng.Random.Shuffle` | src/imitation/policies/trainer.py:73 | the array afterwards is the shuffle of its old contents under the generator's next draws, and the generator advanced by n-1 draws |
| `Rng.SwapAt` | src/imitation/policies/trainer.py:73 | exchanges two entries of the list in place |
| `Envs.BufferingWrapper.constructor` | src/imitation/policies/trainer.py:106-110 | the wrapper starts with an empty buffer and an empty record over the given environment |
| `Envs.BufferingWrapper.NTransitions` | src/imitation/policies/trainer.py:127-128 | `n_transitions` is zero exactly when every buffered trajectory is empty |
| `Envs.BufferingWrapper.Record` | src/imitation/policies/trainer.py:106-110 | stepping through the wrapper appends the finished trajectories, with the wrapped environment's rewards, to the buffer and to the record; the buffer stays the newest part of the record |
| `Envs.BufferingWrapper.PopTrajectories` | src/imitation/policies/trainer.py:169-171 | returns the buffered trajectories oldest first and leaves the buffer empty; the record is unchanged |
| `Agents.Logger.Log` | src/imitation/policies/trainer.py:147-150 | appends one message to the logger |
| `Agents.Algorithm.SetEnv` | src/imitation/policies/trainer.py:114 | the algorithm's environment becomes the given one; nothing else changes |
| `Agents.Algorithm.SetLogger` | src/imitation/policies/trainer.py:176 | the algorithm's logger becomes the given one; nothing else changes |
| `Agents.Algorithm.Learn` | src/imitation/policies/trainer.py:133 | records one `learn(total_timesteps, **kwargs)` call and no rollout; the environment's buffering wrapper gains the trajectories collected, in buffer and record |
| `Agents.GenerateTrajectories` | src/imitation/policies/trainer.py:151-162 | one rollout with the policy for `min_timesteps` is recorded on the policy; it returns trajectories of at least `min_timesteps` steps with the substituted reward, and the buffering wrapper beneath appends at least `min_timesteps` recorded steps, with the environment's rewards, to buffer and record |
| `Trainer.DatasetSampleIsPrefixOfPermutation` | src/imitation/policies/trainer.py:70-74 | dataset sampling fails exactly when the collection has fewer than `steps` steps (or is empty with steps <= 0); otherwise it returns a quota-reaching prefix of a permutation of the collection |
| `Trainer.TrajectoryDataset.constructor` | src/imitation/policies/trainer.py:60-68 | stores the loaded collection, a fresh generator for the seed, and the given logger or a new one |
| `Trainer.TrajectoryDataset.Sample` | src/imitation/policies/trainer.py:70-74 | the stored collection is unchanged, the generator advanced by the draws of one shuffle, and the result is the selection from the shuffled copy |
| `Trainer.TrajectoryDataset.Train` | src/imitation/policies/trainer.py:38-48 | the default `train` changes nothing |
| `Trainer.TrajectoryDataset.SetLogger` | src/imitation/policies/trainer.py:54-56 | the base `logger` setter stores the value |
| `Trainer.SameSeedSameSample` | src/imitation/policies/trainer.py:66-74 | two datasets built from the same data and seed return the same first sample, the selection from the shuffle under that seed's stream, failing exactly when the data falls short |
| `Trainer.Candidates` | src/imitation/policies/trainer.py:143-165 | the list handed to the selector starts with the drained trajectories newest first, and continues with the top-up exactly when the drained ones fall short |
| `Trainer.AgentSampleFailsOnlyWhenEmpty` | src/imitation/policies/trainer.py:143-167 | with a top-up that covers the shortfall, agent sampling fails exactly when nothing was drained and steps <= 0 |
| `Trainer.AgentSampleTakesMostRecent` | src/imitation/policies/trainer.py:137-145 | when the buffer suffices, the result consists of the newest trajectories, newest first |
| `Trainer.SelectionExtendsPastShortFront` | src/imitation/policies/trainer.py:190-195 | if the front part of the input falls short, the selection contains all of it and a prefix of the rest |
| `Trainer.AgentSampleTopUpKeepsAllDrained` | src/imitation/policies/trainer.py:146-167 | when the buffer falls short, the result is every drained trajectory newest first followed by a non-empty prefix of the top-up |
| `Trainer.SelectionKeepsRewards` | src/imitation/policies/trainer.py:154-157 | the selection carries the rewards its input carries |
| `Trainer.AgentTrainer.Create` | src/imitation/policies/trainer.py:80-114 | the logger is forwarded to the algorithm first; ValueError exactly when the algorithm has no environment; otherwise the algorithm runs on a reward wrapper over a fresh, empty buffering wrapper over its old environment |
| `Trainer.AgentTrainer.Train` | src/imitation/policies/trainer.py:116-133 | raises with the leftover count and changes neither `learn` calls nor buffer when the buffer holds transitions; otherwise calls `learn(total_timesteps=steps, **kwargs)` once, and the buffer and record gain what it collected; no rollout either way |
| `Trainer.AgentTrainer.PopTrajectories` | src/imitation/policies/trainer.py:169-171 | drains the buffering wrapper |
| `Trainer.AgentTrainer.Sample` | src/imitation/policies/trainer.py:135-167 | empties the buffer; the result is the selection from the reversed drained list, followed only on a shortfall by the re-drained top-up; on a shortfall exactly one rollout of the algorithm for exactly the shortfall is run and logged, otherwise none; the top-up is exactly what the buffering wrapper recorded meanwhile and holds at least the shortfall; no `learn` call; all returned trajectories carry the original environment's rewards |
| `Trainer.AgentTrainer.TopUp` | src/imitation/policies/trainer.py:146-163 | logs the shortfall, runs one rollout for exactly the shortfall and re-drains the buffer, returning what the wrapper recorded meanwhile: at least the shortfall, with the environment's rewards |
| `Trainer.AgentTrainer.SetLogger` | src/imitation/policies/trainer.py:173-176 | stores the logger and forwards the same logger to the algorithm |

## Left out

- The abstract base class `TrajectoryGenerator` is not a type of its own: the two generators are separate classes with the same operations, and its default `train` and `logger` setter appear in `TrajectoryDataset`. The `logger` getter is a plain field read.
- The reward model's `predict` numerics (trainer.py:99-100): the reward function is a name; only which function the wrapper substitutes is modelled (`Trainer.AsRewardFn`).
- How `RewardVecEnvWrapper` computes rewards step by step: only the origin of the rewards a trajectory carries is modelled.
- `BufferingWrapper` internals: it is modelled by its buffer of finished trajectories; trajectories still in progress are not part of `n_transitions` (the buffered-only reading), and drained trajectories may be unfinished.
- `types.load(path)` file I/O: the constructor receives the loaded collection.
- The Mersenne Twister behind `random.Random(seed)`: the constructor receives the map from seeds to the streams of values they yield (the same map for every generator) and draws from its seed's stream, and `_randbelow(n)` is that stream's next value modulo n, one value per call (the real `_randbelow` may consume several values by rejection sampling). The Fisher–Yates loop of `shuffle` is modelled as Python runs it.
- Logger message formatting and `imit_logger.configure()`: a message is a structured value, and a missing logger is replaced by a fresh one.
- Keyword arguments are an opaque map forwarded verbatim.
- Agents.Algorithm.Learn: what `learn` collects is left open; the model does not relate the number of recorded steps to `total_timesteps`, so "after `train(N)` the buffer holds N transitions" is not stated.
- Agents.GenerateTrajectories: that the rollout collects at least `min_timesteps` steps is an assumption about `rollout.generate_trajectories`, which is not part of this model; the environment reset it performs is not modelled. The returned and the recorded trajectories are related only through their step totals: the wrapper may record more steps, and unfinished episodes, than the rollout returns.
- Trainer.AgentTrainer.Train: environment errors raised from inside `learn` or the rollout are not modelled (they propagate uncaught in the source).
- tests/test_bc.py (behavioural cloning with torch) is not part of this model.
