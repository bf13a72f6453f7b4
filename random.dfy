/** The server's deterministic random stream (server.js `createSeededRandom`).
    A seed string is hashed into a signed 32-bit state; every call advances the
    state by a 32-bit linear congruential step and returns the unsigned state
    divided by 2^32 - 1. Because the divisor is 2^32 - 1 rather than 2^32, the
    value 1.0 is a possible result. */
module Random {

  const TwoTo31: int := 0x8000_0000
  const TwoTo32: int := 0x1_0000_0000
  const MaxUint32: int := 4294967295
  const Multiplier: int := 1664525
  const Increment: int := 1013904223

  predicate IsInt32(x: int)
  {
    -TwoTo31 <= x < TwoTo31
  }

  /** JavaScript's `x | 0` on an integer-valued number: the unique signed 32-bit
      integer congruent to `x` modulo 2^32. (Every intermediate value here stays
      below 2^53, so the double holding it is exact.) */
  function ToInt32(x: int): (r: int)
    ensures IsInt32(r)
    ensures (x - r) % TwoTo32 == 0
  {
    var m := x % TwoTo32;
    if m >= TwoTo31 then m - TwoTo32 else m
  }

  lemma ToInt32OfInt32(x: int)
    requires IsInt32(x)
    ensures ToInt32(x) == x
  {
  }

  /** The polynomial string hash, base 31, wrapped after every character. */
  function StringHash(s: string): (h: int)
    ensures IsInt32(h)
  {
    if s == [] then 0 else ToInt32(StringHash(s[..|s| - 1]) * 31 + s[|s| - 1] as int)
  }

  /** The generator's starting state: the hash, with 0 replaced by 1. */
  function InitialSeed(seedStr: string): (seed: int)
    ensures IsInt32(seed) && seed != 0
    ensures StringHash(seedStr) != 0 ==> seed == StringHash(seedStr)
  {
    var h := StringHash(seedStr);
    if h == 0 then 1 else h
  }

  /** One linear congruential step, wrapped to signed 32 bits. */
  function Step(seed: int): (next: int)
    ensures IsInt32(next)
    ensures (seed * Multiplier + Increment - next) % TwoTo32 == 0
  {
    ToInt32(seed * Multiplier + Increment)
  }

  /** The state after `k` steps from `seed`. */
  function StateAfter(seed: int, k: nat): (s: int)
    requires IsInt32(seed)
    ensures IsInt32(s)
    decreases k
  {
    if k == 0 then seed else StateAfter(Step(seed), k - 1)
  }

  /** One more step at the end. */
  lemma {:induction false} StateAfterStep(seed: int, k: nat)
    requires IsInt32(seed)
    ensures StateAfter(seed, k + 1) == Step(StateAfter(seed, k))
    decreases k
  {
    if k > 0 {
      StateAfterStep(Step(seed), k - 1);
    }
  }

  /** `(seed >>> 0) / MAX_UINT32`: the unsigned reading of the state over 2^32 - 1. */
  function Unit(seed: int): (r: real)
    requires IsInt32(seed)
    ensures 0.0 <= r <= 1.0
    ensures r == 1.0 <==> seed == -1
  {
    var u := seed % TwoTo32;
    assert u == MaxUint32 <==> seed == -1;
    u as real / MaxUint32 as real
  }

  /** The value returned by the `k`-th call (counting from 0) of the generator
      made from `seedStr`. */
  function Draw(seedStr: string, k: nat): (r: real)
    ensures 0.0 <= r <= 1.0
  {
    DrawFrom(InitialSeed(seedStr), k)
  }

  /** The `k`-th value handed out by a generator in state `seed`: every call steps
      the state and reads the new one. */
  function DrawFrom(seed: int, k: nat): (r: real)
    requires IsInt32(seed)
    ensures 0.0 <= r <= 1.0
    decreases k
  {
    if k == 0 then Unit(Step(seed)) else DrawFrom(Step(seed), k - 1)
  }

  /** The `k`-th value is read from the state after `k + 1` steps. */
  lemma {:induction false} DrawFromState(seed: int, k: nat)
    requires IsInt32(seed)
    ensures DrawFrom(seed, k) == Unit(StateAfter(seed, k + 1))
    decreases k
  {
    if k > 0 {
      DrawFromState(Step(seed), k - 1);
    }
  }

  /** A value handed out by the generator. */
  type Fraction = r: real | 0.0 <= r <= 1.0

  /** The first `n` values of the generator made from `seedStr`. */
  function Draws(seedStr: string, n: nat): (vals: seq<Fraction>)
    ensures |vals| == n
    ensures forall k :: 0 <= k < n ==> vals[k] == Draw(seedStr, k)
  {
    if n == 0 then [] else Draws(seedStr, n - 1) + [Draw(seedStr, n - 1)]
  }

  /** `vals` is a prefix of the stream of `seedStr`. */
  ghost predicate PrefixOf(vals: seq<Fraction>, seedStr: string)
  {
    forall k {:trigger Draw(seedStr, k)} :: 0 <= k < |vals| ==> vals[k] == Draw(seedStr, k)
  }

  lemma DrawsPrefix(seedStr: string, n: nat)
    ensures PrefixOf(Draws(seedStr, n), seedStr)
  {
  }

  /** Value `k` of a prefix of a stream; reading past the prefix gives 0. */
  function Val(vals: seq<Fraction>, k: nat): (r: Fraction)
    ensures k < |vals| ==> r == vals[k]
  {
    if k < |vals| then vals[k] else 0.0
  }

  /** A value drawn is below 1 exactly when the state it is read from is not -1. */
  lemma DrawBelowOne(seedStr: string, k: nat)
    ensures Draw(seedStr, k) < 1.0 <==> StateAfter(InitialSeed(seedStr), k + 1) != -1
  {
    DrawFromState(InitialSeed(seedStr), k);
  }

  /** The value 1.0 does occur: from state 653637408 the next call yields exactly 1.0,
      so `Math.floor(r * n)` can reach `n` in every caller. */
  lemma OneIsReachable()
    ensures IsInt32(653637408) && Step(653637408) == -1 && Unit(Step(653637408)) == 1.0
  {
    assert 653637408 * Multiplier + Increment == 1087996820455423;
    assert 1087996820455423 % TwoTo32 == MaxUint32;
  }

  /** The closure returned by `createSeededRandom`: its captured `seed` is the field
      `seed`. The ghost fields say which string it was made from and how many values
      it has returned so far. */
  class SeededRandom {
    ghost const source: string
    ghost var drawn: nat
    var seed: int

    ghost predicate Valid()
      reads this
    {
      seed == StateAfter(InitialSeed(source), drawn)
    }

    constructor (seedStr: string)
      ensures Valid() && source == seedStr && drawn == 0
    {
      var h := 0;
      var i := 0;
      while i < |seedStr|
        invariant 0 <= i <= |seedStr|
        invariant h == StringHash(seedStr[..i])
      {
        assert seedStr[..i + 1][..i] == seedStr[..i];
        h := ToInt32(h * 31 + seedStr[i] as int);
        i := i + 1;
      }
      assert seedStr[..|seedStr|] == seedStr;
      if h == 0 {
        h := 1;
      }
      seed := h;
      source := seedStr;
      drawn := 0;
    }

    /** One call of the generator: the value at the current position of a prefix
        of this generator's stream. */
    method Next(ghost vals: seq<Fraction>) returns (r: Fraction)
      requires Valid() && PrefixOf(vals, source) && drawn < |vals|
      modifies this
      ensures Valid() && drawn == old(drawn) + 1
      ensures r == vals[old(drawn)]
    {
      StateAfterStep(InitialSeed(source), drawn);
      DrawFromState(InitialSeed(source), drawn);
      seed := Step(seed);
      drawn := drawn + 1;
      r := Unit(seed);
      assert r == Draw(source, old(drawn));
    }
  }
}
