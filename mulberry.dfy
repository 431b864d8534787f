/**
 * The seeded pseudo-random generator of main.js (`seededNoise`): the
 * mulberry32 generator. Its counter `t` is an exact integer that grows by
 * 0x6d2b79f5 per draw; the bit operators of the mixing step see only its
 * residue modulo 2^32, and each draw is a 32-bit unsigned value divided by 2^32.
 */
module Mulberry {

  /** The per-draw increment of the counter. */
  const Increment: int := 0x6d2b79f5

  const TwoTo32: int := 0x1_0000_0000

  /** The counter as the 32-bit pattern that `^`, `|`, `>>>` and `Math.imul` act on. */
  function Bits(t: int): bv32 {
    (t % TwoTo32) as bv32
  }

  /** The mixing step of one draw, on the 32-bit pattern of the counter.
      `Math.imul` is the low 32 bits of the product, `>>>` a logical shift,
      and the JavaScript sum `x + Math.imul(...)` is reduced modulo 2^32 by
      the `^` that consumes it, so every operation here wraps. */
  function Mix(t: bv32): bv32 {
    var x := (t ^ (t >> 15)) * (1 | t);
    var x' := x ^ (x + (x ^ (x >> 7)) * (61 | x));
    x' ^ (x' >> 14)
  }

  /** One value of the mixing step, at the counter of the first draw of
      seed 14937. */
  lemma MixKnownValue()
    ensures Mix(3663146563 as bv32) == 1713955878 as bv32
  {
  }

  /** The first draw of seed 14937, as a fraction of 2^32. */
  lemma FirstDrawOfSeed14937()
    ensures NthDraw(14937, 0) == 1713955878.0 / 4294967296.0
  {
    assert CounterAt(14937, 0) == 3663146563;
    BitsOfSmall(3663146563);
    MixKnownValue();
    DrawOfMix(3663146563, 3663146563 as bv32, 1713955878 as bv32);
  }

  /** A counter below 2^32 is its own bit pattern. */
  lemma BitsOfSmall(t: int)
    requires 0 <= t < TwoTo32
    ensures Bits(t) == t as bv32
  {
  }

  /** A draw is the mixed counter as a fraction of 2^32. */
  lemma DrawOfMix(t: int, b: bv32, u: bv32)
    requires Bits(t) == b && Mix(b) == u
    ensures Draw(t) == (u as int) as real / TwoTo32 as real
  {
  }

  /** The value a draw returns when the counter (already advanced) is `t`. */
  function Draw(t: int): (r: real)
    ensures 0.0 <= r < 1.0
  {
    var u := Mix(Bits(t)) as int;
    assert 0 <= u < TwoTo32;
    u as real / TwoTo32 as real
  }

  /** The counter value used by the draw with number `k` (from 0) of a
      generator made from `seed`: the closure starts at `seed + Increment`
      and adds `Increment` once more before each draw. */
  function CounterAt(seed: int, k: nat): int {
    seed + (k + 2) * Increment
  }

  /** The draw with number `k` of a generator made from `seed`. */
  function NthDraw(seed: int, k: nat): (r: real)
    ensures 0.0 <= r < 1.0
  {
    Draw(CounterAt(seed, k))
  }

  /** Only the counter's residue modulo 2^32 matters to a draw. */
  lemma DrawPeriodic(t: int, m: int)
    ensures Draw(t + m * TwoTo32) == Draw(t)
  {
    BitsPeriodic(t, m);
  }

  lemma BitsPeriodic(t: int, m: int)
    ensures Bits(t + m * TwoTo32) == Bits(t)
  {
    ResiduePeriodic(t, m);
  }

  lemma ResiduePeriodic(t: int, m: int)
    ensures (t + m * TwoTo32) % TwoTo32 == t % TwoTo32
  {
    var q := t / TwoTo32;
    var r := t % TwoTo32;
    assert t == q * TwoTo32 + r;
    assert t + m * TwoTo32 == (q + m) * TwoTo32 + r;
  }

  /** The closure returned by `seededNoise(seed)`: an object whose one
      field is the counter. */
  class SeededNoise {
    var t: int

    constructor (seed: int)
      ensures t == seed + Increment
    {
      t := seed + Increment;
    }

    /** One call of the closure: the counter grows by `Increment` and the
        result is the draw of the new counter. */
    method Next() returns (r: real)
      modifies this
      ensures t == old(t) + Increment
      ensures r == Draw(t)
    {
      t := t + Increment;
      r := Draw(t);
    }
  }

  /** Two separate generators whose counters agree (as they do when made
      from the same seed) return the same value on their next calls and
      agree again afterwards, so by induction over calls they produce the
      same sequence. */
  method NextOfBoth(a: SeededNoise, b: SeededNoise) returns (ra: real, rb: real)
    requires a != b && a.t == b.t
    modifies a, b
    ensures ra == rb && a.t == b.t
  {
    ra := a.Next();
    rb := b.Next();
  }
}
