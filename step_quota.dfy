/** The step-quota selector `_get_trajectories`: the shortest prefix of an
    ordered sequence of trajectories whose summed length reaches a step count,
    computed the way the source does it (a running sum, a boolean mask and
    numpy's `argmax`). */
module StepQuota {
  import opened Results
  import opened Trajectories

  /** `np.cumsum` of the lengths, started from `acc`: entry i is `acc` plus
      the summed length of the first i + 1 trajectories. */
  function CumSumFrom(ts: seq<Trajectory>, acc: nat): (r: seq<nat>)
    ensures |r| == |ts|
    ensures forall i :: 0 <= i < |ts| ==> r[i] == acc + TotalLength(ts[..i + 1])
  {
    if ts == [] then []
    else
      assert forall i :: 0 < i < |ts| ==> ts[..i + 1][1..] == ts[1..][..i];
      [acc + Len(ts[0])] + CumSumFrom(ts[1..], acc + Len(ts[0]))
  }

  /** `np.cumsum([len(traj) for traj in trajectories])`. */
  function CumSum(ts: seq<Trajectory>): (r: seq<nat>)
    ensures |r| == |ts|
    ensures forall i :: 0 <= i < |ts| ==> r[i] == TotalLength(ts[..i + 1])
  {
    CumSumFrom(ts, 0)
  }

  /** `steps_cumsum >= steps`, compared element by element. */
  function ReachesQuota(cumsum: seq<nat>, steps: int): seq<bool>
  {
    seq(|cumsum|, i requires 0 <= i < |cumsum| => cumsum[i] >= steps)
  }

  /** Index of the first `true` in a mask that has one. */
  function FirstTrue(mask: seq<bool>): (i: nat)
    requires true in mask
    ensures i < |mask| && mask[i]
    ensures forall j :: 0 <= j < i ==> !mask[j]
  {
    if mask[0] then 0 else 1 + FirstTrue(mask[1..])
  }

  /** numpy's `argmax` on a boolean array: the index of the first occurrence of
      the maximum (`false < true`); ValueError on an empty array. */
  function ArgMax(mask: seq<bool>): (r: Result<nat>)
    ensures r.Err? <==> mask == []
    ensures r.Err? ==> r.error == EmptyArgmax
    ensures r.Ok? ==> r.value < |mask|
    ensures r.Ok? ==> forall j :: 0 <= j < |mask| && mask[j] ==> mask[r.value]
    ensures r.Ok? ==> forall j :: 0 <= j < r.value ==> !mask[j] && mask[r.value]
  {
    if mask == [] then Err(EmptyArgmax)
    else if true in mask then Ok(FirstTrue(mask))
    else Ok(0)
  }

  /** `_get_trajectories(trajectories, steps)`.
      It raises exactly when fewer than `steps` steps are available, or when
      there are no trajectories at all and `steps <= 0` (numpy's argmax of an
      empty array); otherwise it returns a non-empty prefix of the input, in
      input order. What that prefix is: SelectionReachesQuota and
      SelectionIsMinimal. */
  function GetTrajectories(ts: seq<Trajectory>, steps: int): (r: Result<seq<Trajectory>>)
    ensures r.Err? <==> TotalLength(ts) < steps || (ts == [] && steps <= 0)
    ensures TotalLength(ts) < steps ==> r == Err(InsufficientSteps(steps, TotalLength(ts)))
    ensures ts == [] && steps <= 0 ==> r == Err(EmptyArgmax)
    ensures r.Ok? ==> 1 <= |r.value| <= |ts| && r.value == ts[..|r.value|]
  {
    var available := TotalLength(ts);
    if available < steps then Err(InsufficientSteps(steps, available))
    else
      match ArgMax(ReachesQuota(CumSum(ts), steps))
      case Err(e) => Err(e)
      case Ok(idx) => Ok(ts[..idx + 1])
  }

  /** The index `argmax` picks when the quota can be met: the first position
      whose running sum reaches `steps`. */
  lemma SelectedIndex(ts: seq<Trajectory>, steps: int)
    requires ts != [] && TotalLength(ts) >= steps
    ensures var r := ArgMax(ReachesQuota(CumSum(ts), steps));
      && r.Ok? && r.value < |ts|
      && TotalLength(ts[..r.value + 1]) >= steps
      && forall k :: 1 <= k <= r.value ==> TotalLength(ts[..k]) < steps
  {
    var cs := CumSum(ts);
    var mask := ReachesQuota(cs, steps);
    var n := |ts|;
    assert ts[..n] == ts;
    assert cs[n - 1] == TotalLength(ts[..n]);
    assert mask[n - 1];
    var idx := ArgMax(mask).value;
    assert mask[idx];
    assert cs[idx] == TotalLength(ts[..idx + 1]);
    forall k | 1 <= k <= idx ensures TotalLength(ts[..k]) < steps {
      assert !mask[k - 1];
      assert cs[k - 1] == TotalLength(ts[..k]);
    }
  }

  /** The sanity check of the source holds: the selection has at least `steps`
      steps. */
  lemma SelectionReachesQuota(ts: seq<Trajectory>, steps: int)
    requires GetTrajectories(ts, steps).Ok?
    ensures TotalLength(GetTrajectories(ts, steps).value) >= steps
  {
    SelectedIndex(ts, steps);
  }

  /** The selection ends at the first trajectory where the running sum reaches
      `steps`: every shorter non-empty prefix falls short. Hence dropping its
      last element leaves fewer than `steps` steps, and for `steps <= 0` it is
      the first trajectory alone. */
  lemma SelectionIsMinimal(ts: seq<Trajectory>, steps: int)
    requires GetTrajectories(ts, steps).Ok?
    ensures forall k :: 1 <= k < |GetTrajectories(ts, steps).value| ==> TotalLength(ts[..k]) < steps
    ensures steps <= 0 ==> GetTrajectories(ts, steps).value == [ts[0]]
  {
    SelectedIndex(ts, steps);
    var r := GetTrajectories(ts, steps).value;
    if steps <= 0 {
      assert TotalLength(ts[..1]) >= steps;
    }
  }

  /** Among non-empty prefixes, the selection is the shortest one that reaches
      the quota: any non-empty prefix that reaches it is at least as long. */
  lemma ShortestSufficientPrefix(ts: seq<Trajectory>, steps: int, k: nat)
    requires 1 <= k <= |ts| && TotalLength(ts[..k]) >= steps
    ensures GetTrajectories(ts, steps).Ok?
    ensures |GetTrajectories(ts, steps).value| <= k
  {
    PrefixTotalLengthBound(ts, k);
    SelectionIsMinimal(ts, steps);
  }

  /** A prefix never has more steps than the whole sequence. */
  lemma PrefixTotalLengthBound(ts: seq<Trajectory>, k: nat)
    requires k <= |ts|
    ensures TotalLength(ts[..k]) <= TotalLength(ts)
  {
    assert ts == ts[..k] + ts[k..];
    TotalLengthAppend(ts[..k], ts[k..]);
  }

  /** Lengths [4, 5, 2] and a quota of 6 select the first two trajectories. */
  lemma SelectsFirstTwoOfFourFiveTwo(a: Trajectory, b: Trajectory, c: Trajectory)
    requires Len(a) == 4 && Len(b) == 5 && Len(c) == 2
    ensures GetTrajectories([a, b, c], 6) == Ok([a, b])
  {
    var ts := [a, b, c];
    assert ts[..1] == [a] && ts[..2] == [a, b] && ts[1..] == [b, c];
    assert [a][1..] == [] && [b][1..] == [] && [c][1..] == [];
    assert [a, b][1..] == [b] && [b, c][1..] == [c];
    assert TotalLength([a]) == 4;
    assert TotalLength([a, b]) == 9;
    assert TotalLength([c]) == 2 && TotalLength([b, c]) == 7;
    assert TotalLength(ts) == 11;
    ShortestSufficientPrefix(ts, 6, 2);
    SelectionReachesQuota(ts, 6);
    var r := GetTrajectories(ts, 6).value;
    assert |r| == 2;
  }
}
