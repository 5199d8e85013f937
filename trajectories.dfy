/** Trajectories with rewards (imitation's `TrajectoryWithRew`) and the reward
    functions whose output a trajectory may carry. */
module Trajectories {

  /** A reward model, referred to by name; its numerics are not modelled. */
  datatype RewardNet = RewardNet(name: string)

  /** A reward function as handed to the reward-substituting wrapper: a plain
      callable, or the `predict` method of a reward model. */
  datatype RewardFn = RewardCallable(name: string) | NetPredict(net: RewardNet)

  /** Where the rewards recorded in a trajectory come from: the environment
      itself, or a reward function substituted for it. */
  datatype RewardOrigin = EnvironmentReward | LearnedReward(fn: RewardFn)

  /** One episode (possibly unfinished, see `terminal`): observations, actions
      and the origin of its rewards. */
  datatype Trajectory = Trajectory(obs: seq<int>, acts: seq<int>, terminal: bool, rewards: RewardOrigin)

  /** `len(traj)`: the number of transitions, i.e. of actions. */
  function Len(t: Trajectory): nat { |t.acts| }

  /** `sum(len(traj) for traj in trajectories)`. */
  function TotalLength(ts: seq<Trajectory>): nat
  {
    if ts == [] then 0 else Len(ts[0]) + TotalLength(ts[1..])
  }

  /** No trajectory is longer than the total, and the total is zero exactly
      when every trajectory is empty. */
  lemma {:induction false} TotalLengthBounds(ts: seq<Trajectory>)
    ensures forall i :: 0 <= i < |ts| ==> Len(ts[i]) <= TotalLength(ts)
    ensures TotalLength(ts) == 0 <==> forall i :: 0 <= i < |ts| ==> Len(ts[i]) == 0
  {
    if ts != [] {
      TotalLengthBounds(ts[1..]);
      assert forall i :: 1 <= i < |ts| ==> ts[i] == ts[1..][i - 1];
    }
  }

  /** Every trajectory of `ts` carries rewards of the given origin. */
  predicate AllRewardsFrom(ts: seq<Trajectory>, origin: RewardOrigin)
  {
    forall t <- ts :: t.rewards == origin
  }

  /** The same episodes with their rewards replaced by those of `origin`:
      each keeps its observations, actions and terminal flag, and only the
      reward origin changes. */
  function Relabel(ts: seq<Trajectory>, origin: RewardOrigin): (r: seq<Trajectory>)
    ensures |r| == |ts|
    ensures forall i :: 0 <= i < |ts| ==>
      r[i].obs == ts[i].obs && r[i].acts == ts[i].acts && r[i].terminal == ts[i].terminal
    ensures AllRewardsFrom(r, origin)
  {
    if ts == [] then [] else [ts[0].(rewards := origin)] + Relabel(ts[1..], origin)
  }

  /** `trajectories[::-1]`. */
  function Reverse(ts: seq<Trajectory>): (r: seq<Trajectory>)
    ensures |r| == |ts|
    ensures forall i :: 0 <= i < |ts| ==> r[i] == ts[|ts| - 1 - i]
  {
    if ts == [] then [] else Reverse(ts[1..]) + [ts[0]]
  }

  lemma {:induction false} TotalLengthAppend(a: seq<Trajectory>, b: seq<Trajectory>)
    ensures TotalLength(a + b) == TotalLength(a) + TotalLength(b)
  {
    if a == [] {
      assert a + b == b;
    } else {
      assert (a + b)[1..] == a[1..] + b;
      TotalLengthAppend(a[1..], b);
    }
  }

  /** Reversing the order does not change the number of available steps. */
  lemma {:induction false} TotalLengthReverse(ts: seq<Trajectory>)
    ensures TotalLength(Reverse(ts)) == TotalLength(ts)
  {
    if ts != [] {
      TotalLengthReverse(ts[1..]);
      TotalLengthAppend(Reverse(ts[1..]), [ts[0]]);
      assert TotalLength([ts[0]]) == Len(ts[0]) by {
        assert [ts[0]][1..] == [];
      }
    }
  }

  /** Replacing the rewards does not change the number of steps. */
  lemma {:induction false} TotalLengthRelabel(ts: seq<Trajectory>, origin: RewardOrigin)
    ensures TotalLength(Relabel(ts, origin)) == TotalLength(ts)
  {
    if ts != [] {
      TotalLengthRelabel(ts[1..], origin);
      assert Relabel(ts, origin)[1..] == Relabel(ts[1..], origin);
    }
  }

  /** Taking one trajectory out of a sequence removes exactly its length. */
  lemma TotalLengthRemove(b: seq<Trajectory>, j: nat)
    requires j < |b|
    ensures TotalLength(b) == Len(b[j]) + TotalLength(b[..j] + b[j + 1..])
  {
    assert b == b[..j] + ([b[j]] + b[j + 1..]);
    TotalLengthAppend(b[..j], [b[j]] + b[j + 1..]);
    assert ([b[j]] + b[j + 1..])[1..] == b[j + 1..];
    TotalLengthAppend(b[..j], b[j + 1..]);
  }

  /** The total length depends only on which trajectories there are, not on
      their order: a permutation keeps it. */
  lemma {:induction false} TotalLengthPermutation(a: seq<Trajectory>, b: seq<Trajectory>)
    requires multiset(a) == multiset(b)
    ensures TotalLength(a) == TotalLength(b)
    decreases |a|
  {
    if a == [] {
      assert |b| == |multiset(b)| == 0;
    } else {
      var x := a[0];
      assert x in multiset(a);
      var j :| 0 <= j < |b| && b[j] == x;
      var rest := b[..j] + b[j + 1..];
      assert multiset(a[1..]) == multiset(rest) by {
        assert a == [x] + a[1..];
        assert b == b[..j] + [x] + b[j + 1..];
        assert multiset(b) == multiset(b[..j]) + multiset{x} + multiset(b[j + 1..]);
        assert multiset(rest) == multiset(b[..j]) + multiset(b[j + 1..]);
        assert multiset(a) == multiset{x} + multiset(a[1..]);
        forall y ensures multiset(a[1..])[y] == multiset(rest)[y] {
          assert multiset(a)[y] == multiset(b)[y];
        }
      }
      TotalLengthPermutation(a[1..], rest);
      TotalLengthRemove(b, j);
    }
  }
}
