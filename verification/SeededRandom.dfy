/**
  The seeded generator every replica draws from: a counter stepped by an odd constant, a
  mixing function (a parameter here), integers below a bound, and the in-place shuffle.
  Two replicas at equal positions draw the same numbers and shuffle the same way.
 */
module SeededRandom {
  import opened Bytes
  import opened Wrappers

  const STEP: nat := 0x6d2b79f5

  type Mix = nat -> nat

  function Step(state: nat): nat {
    (state + STEP) % TWO_32
  }

  /** Thirty-two mixed bits of a position. */
  function Output(mix: Mix, state: nat): (x: nat)
    ensures x < TWO_32
  {
    mix(state) % TWO_32
  }

  /** `Math.floor(next() * maxExclusive)`, with `next()` the output over 2^32. */
  function Below(mix: Mix, state: nat, maxExclusive: nat): nat {
    Output(mix, state) * maxExclusive / TWO_32
  }

  lemma BelowInRange(mix: Mix, state: nat, maxExclusive: nat)
    requires maxExclusive > 0
    ensures Below(mix, state, maxExclusive) < maxExclusive
  {
    var x := Output(mix, state);
    assert x * maxExclusive <= (TWO_32 - 1) * maxExclusive;
    assert (TWO_32 - 1) * maxExclusive < maxExclusive * TWO_32;
  }

  /** Where the generator is after `draws` draws from `seed`. */
  function Position(seed: nat, draws: nat): nat {
    if draws == 0 then seed % TWO_32 else Step(Position(seed, draws - 1))
  }

  lemma {:induction false} PositionIs(seed: nat, draws: nat)
    ensures Position(seed, draws) == (seed + draws * STEP) % TWO_32
  {
    if draws > 0 {
      PositionIs(seed, draws - 1);
      Wraps(seed + (draws - 1) * STEP);
    }
  }

  lemma Wraps(x: nat)
    ensures Step(x % TWO_32) == (x + STEP) % TWO_32
  {
    var (q, r) := (x / TWO_32, x % TWO_32);
    Remainder(x + STEP, if r + STEP < TWO_32 then q else q + 1);
    Remainder(r + STEP, if r + STEP < TWO_32 then 0 else 1);
  }

  lemma Remainder(x: nat, q: nat)
    requires q * TWO_32 <= x < (q + 1) * TWO_32
    ensures x % TWO_32 == x - q * TWO_32
  {
  }

  /** STEP times this is one more than a multiple of 2^32. */
  const STEP_INVERSE: nat := 3696798301
  const STEP_CARRY: nat := 1576479847

  /** A multiple of the step that is a multiple of 2^32 is a multiple of both. */
  lemma StepIsInvertible(d: int, q: int) returns (k: int)
    requires d * STEP == q * TWO_32
    ensures d == k * TWO_32
  {
    k := q * STEP_INVERSE - d * STEP_CARRY;
    assert STEP * STEP_INVERSE == 1 + STEP_CARRY * TWO_32;
    assert d * STEP * STEP_INVERSE == q * TWO_32 * STEP_INVERSE;
  }

  /** The step is odd, so no two positions of one cycle of 2^32 draws are the same. */
  lemma PositionsDistinct(seed: nat, a: nat, b: nat)
    requires a < b < a + TWO_32
    ensures Position(seed, a) != Position(seed, b)
  {
    PositionIs(seed, a);
    PositionIs(seed, b);
    var (x, y) := (seed + a * STEP, seed + b * STEP);
    if x % TWO_32 == y % TWO_32 {
      var k := StepIsInvertible(b - a, y / TWO_32 - x / TWO_32);
      assert false;
    }
  }

  // -- shuffling -------------------------------------------------------------

  function Swap<T>(s: seq<T>, i: nat, j: nat): (r: seq<T>)
    requires i < |s| && j < |s|
    ensures |r| == |s|
  {
    s[i := s[j]][j := s[i]]
  }

  /** The swaps still to come when places above `i` are settled, and the position after them. */
  function Shuffled<T>(mix: Mix, state: nat, s: seq<T>, i: nat): (seq<T>, nat)
    requires i < |s| || i == 0
    decreases i
  {
    if i == 0 then (s, state)
    else
      BelowInRange(mix, Step(state), i + 1);
      Shuffled(mix, Step(state), Swap(s, i, Below(mix, Step(state), i + 1)), i - 1)
  }

  lemma SwapPermutes<T>(s: seq<T>, i: nat, j: nat)
    requires i < |s| && j < |s|
    ensures multiset(Swap(s, i, j)) == multiset(s)
  {
  }

  /** A shuffle loses and makes up nothing, and draws once for every place but the first. */
  lemma {:induction false} ShufflePermutes<T>(mix: Mix, seed: nat, draws: nat, s: seq<T>, i: nat)
    requires i < |s| || i == 0
    ensures
      var (out, state) := Shuffled(mix, Position(seed, draws), s, i);
      multiset(out) == multiset(s) && |out| == |s| && state == Position(seed, draws + i)
    decreases i
  {
    if i > 0 {
      var state := Position(seed, draws + 1);
      BelowInRange(mix, state, i + 1);
      var j := Below(mix, state, i + 1);
      SwapPermutes(s, i, j);
      ShufflePermutes(mix, seed, draws + 1, Swap(s, i, j), i - 1);
    }
  }

  method SwapAt<T>(a: array<T>, i: nat, j: nat)
    requires i < a.Length && j < a.Length
    modifies a
    ensures a[..] == Swap(old(a[..]), i, j)
  {
    a[i], a[j] := a[j], a[i];
  }

  class SeededGameRandom {
    const mix: Mix
    ghost const seed: nat
    ghost var draws: nat
    var state: nat

    ghost predicate Valid()
      reads this
    {
      state == Position(seed, draws)
    }

    constructor (mix: Mix, seed: nat)
      ensures Valid() && this.mix == mix && this.seed == seed && draws == 0
    {
      this.mix := mix;
      this.seed := seed;
      state, draws := seed % TWO_32, 0;
    }

    method NextInt(maxExclusive: int) returns (r: Option<nat>)
      requires Valid()
      modifies this
      ensures Valid() && (r.None? <==> maxExclusive <= 0)
      ensures maxExclusive <= 0 ==> draws == old(draws)
      ensures maxExclusive > 0 ==>
        draws == old(draws) + 1 && state == Step(old(state)) && r == Some(Below(mix, state, maxExclusive))
            && r.value < maxExclusive
    {
      if maxExclusive <= 0 { return None; }
      state := Step(state);
      draws := draws + 1;
      BelowInRange(mix, state, maxExclusive);
      return Some(Below(mix, state, maxExclusive));
    }

    /** Shuffles a copy, drawing once for every item but one. */
    method Shuffle<T>(items: seq<T>) returns (out: seq<T>)
      requires Valid()
      modifies this
      ensures Valid() && multiset(out) == multiset(items)
      ensures draws == old(draws) + if |items| > 1 then |items| - 1 else 0
      ensures items != [] ==> out == Shuffled(mix, old(state), items, |items| - 1).0
    {
      hide Below, Position, Swap, Step;
      if items == [] { return []; }
      var a := new T[|items|](i requires 0 <= i < |items| => items[i]);
      assert a[..] == items;
      var i := a.Length - 1;
      while i > 0
        invariant 0 <= i < a.Length && Valid() && draws == old(draws) + (a.Length - 1 - i)
        invariant Shuffled(mix, state, a[..], i) == Shuffled(mix, old(state), items, |items| - 1)
      {
        var j := NextInt(i + 1);
        SwapAt(a, i, j.value);
        i := i - 1;
      }
      ShufflePermutes(mix, seed, old(draws), items, |items| - 1);
      return a[..];
    }
  }
}
