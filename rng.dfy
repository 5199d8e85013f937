/** Python's `random.Random` as far as `shuffle` uses it. The seeded
    Mersenne Twister is not modelled: a generator is given the family of
    streams the seeds yield, draws from the stream of its own seed, one value
    per `_randbelow` call, and remembers how many it has consumed. */
module Rng {
  import opened Trajectories

  /** `x[i], x[j] = x[j], x[i]`. */
  function Swap(s: seq<Trajectory>, i: nat, j: nat): seq<Trajectory>
    requires i < |s| && j < |s|
  {
    s[i := s[j]][j := s[i]]
  }

  lemma SwapPermutes(s: seq<Trajectory>, i: nat, j: nat)
    requires i < |s| && j < |s|
    ensures multiset(Swap(s, i, j)) == multiset(s)
  {
  }

  /** The loop of `random.shuffle` from index `i` down to 1: position `i` is
      swapped with position `randbelow(i + 1)`, the draw being the `k`-th
      value of the stream. It keeps the length; that it only permutes the
      list is ShuffleFromPermutes. */
  function ShuffleFrom(s: seq<Trajectory>, i: nat, stream: nat -> nat, k: nat): (r: seq<Trajectory>)
    requires i < |s|
    ensures |r| == |s|
    decreases i
  {
    if i == 0 then s
    else
      ShuffleFrom(Swap(s, i, stream(k) % (i + 1)), i - 1, stream, k + 1)
  }

  /** Whatever the stream draws, the loop of `shuffle` only permutes the list. */
  lemma {:induction false} ShuffleFromPermutes(s: seq<Trajectory>, i: nat, stream: nat -> nat, k: nat)
    requires i < |s|
    ensures multiset(ShuffleFrom(s, i, stream, k)) == multiset(s)
    decreases i
  {
    if i > 0 {
      var t := Swap(s, i, stream(k) % (i + 1));
      SwapPermutes(s, i, stream(k) % (i + 1));
      ShuffleFromPermutes(t, i - 1, stream, k + 1);
    }
  }

  /** `random.shuffle(x)` on a list holding `s`, drawing from position `k` of
      the stream on. It keeps the length; that it permutes `s` is
      ShuffledPermutes. */
  function Shuffled(s: seq<Trajectory>, stream: nat -> nat, k: nat): (r: seq<Trajectory>)
    ensures |r| == |s|
  {
    if s == [] then [] else ShuffleFrom(s, |s| - 1, stream, k)
  }

  /** Whatever the generator draws, `shuffle` permutes the list. */
  lemma ShuffledPermutes(s: seq<Trajectory>, stream: nat -> nat, k: nat)
    ensures multiset(Shuffled(s, stream, k)) == multiset(s)
  {
    if s != [] {
      ShuffleFromPermutes(s, |s| - 1, stream, k);
    }
  }

  /** How many values shuffling `n` elements draws. */
  function ShuffleDraws(n: nat): nat
  {
    if n == 0 then 0 else n - 1
  }

  class Random {
    /** The seed the generator was created with. */
    const seed: int
    /** The values the generator yields for its seed, in order. */
    const stream: nat -> nat
    /** How many values have been drawn: the generator's state. */
    var draws: nat

    /** `random.Random(seed)`; `streamOf` maps each seed to the values the
        Mersenne Twister seeded with it yields. */
    constructor (seed: int, streamOf: int -> (nat -> nat))
      ensures this.seed == seed && stream == streamOf(seed) && draws == 0
    {
      this.seed := seed;
      stream := streamOf(seed);
      draws := 0;
    }

    /** `_randbelow(n)`: the next value of the stream, reduced below `n`. */
    method RandBelow(n: nat) returns (j: nat)
      requires n > 0
      modifies this
      ensures j < n && j == stream(old(draws)) % n
      ensures draws == old(draws) + 1
    {
      j := stream(draws) % n;
      draws := draws + 1;
    }

    /** `shuffle(x)`, in place on the list `a`. */
    method Shuffle(a: array<Trajectory>)
      modifies this, a
      ensures a[..] == Shuffled(old(a[..]), stream, old(draws))
      ensures draws == old(draws) + ShuffleDraws(a.Length)
    {
      if a.Length == 0 {
        return;
      }
      ghost var goal := Shuffled(a[..], stream, draws);
      ghost var start := draws;
      var i := a.Length - 1;
      while i >= 1
        invariant 0 <= i < a.Length
        invariant ShuffleFrom(a[..], i, stream, draws) == goal
        invariant draws == start + (a.Length - 1 - i)
      {
        ghost var before := a[..];
        ghost var d := draws;
        var j := RandBelow(i + 1);
        SwapAt(a, i, j);
        assert ShuffleFrom(before, i, stream, d) == ShuffleFrom(a[..], i - 1, stream, d + 1);
        i := i - 1;
      }
    }
  }

  /** `x[i], x[j] = x[j], x[i]` on the list `a`. */
  method SwapAt(a: array<Trajectory>, i: nat, j: nat)
    requires i < a.Length && j < a.Length
    modifies a
    ensures a[..] == Swap(old(a[..]), i, j)
  {
    var t := a[i];
    a[i] := a[j];
    a[j] := t;
  }
}
