/** The seeded generator of lib/sim.ts: a string hash and the mulberry32 stream, on 32-bit words.
    `Math.imul` is multiplication modulo 2^32, `>>>` a logical shift, and the additions that
    `| 0` or `^` truncate to 32 bits wrap, which is exactly `bv32` arithmetic. */
module Random {
  import Text

  const HashInit: bv32 := 1779033703
  const HashFactor: bv32 := 3432918353
  const Increment: bv32 := 0x6d2b79f5

  /** One round of `hashString` on one UTF-16 code unit: multiply, then rotate left by 13. */
  function HashStep(h: bv32, unit: bv16): bv32 {
    var m := (h ^ (unit as bv32)) * HashFactor;
    (m << 13) | (m >> 19)
  }

  /** The hash of a sequence of code units, folded left to right. */
  function Hash(units: seq<bv16>): bv32 {
    if units == [] then HashInit else HashStep(Hash(units[..|units| - 1]), units[|units| - 1])
  }

  /** `hashString(input)`; the unsigned result `hash >>> 0` is the word read as a natural number. */
  method HashString(input: string) returns (h: bv32)
    ensures h == Hash(Text.Utf16(input))
  {
    var units := Text.Utf16(input);
    h := HashInit;
    var i := 0;
    while i < |units|
      invariant 0 <= i <= |units|
      invariant h == Hash(units[..i])
    {
      assert units[..i + 1][..i] == units[..i];
      h := HashStep(h, units[i]);
      i := i + 1;
    }
    assert units[..|units|] == units;
  }

  /** The state update of one mulberry32 draw. */
  function Advance(seed: bv32): bv32 {
    seed + Increment
  }

  /** A draw: a number in [0, 1). */
  type Unit = r: real | 0.0 <= r < 1.0

  /** The 32-bit word a mulberry32 draw mixes out of its advanced state. */
  function Mix(state: bv32): bv32 {
    var t := (state ^ (state >> 15)) * (1 | state);
    var t' := (t + (t ^ (t >> 7)) * (61 | t)) ^ t;
    t' ^ (t' >> 14)
  }

  /** The word width. */
  const Width: nat := 32

  /** The top `n` bits of `u` read as an unsigned number and divided by 2^n, taken one bit at a
      time from the most significant end: `Fraction(u, Width)` is `(u >>> 0) / 4294967296`. */
  function Fraction(u: bv32, n: nat): Unit
    decreases n
  {
    if n == 0 then 0.0
    else ((if u >> 31 == 1 then 1.0 else 0.0) + Fraction(u << 1, n - 1)) / 2.0
  }

  /** The value a mulberry32 draw returns once its state has been advanced to `state`. */
  function Output(state: bv32): Unit {
    Fraction(Mix(state), Width)
  }

  /** The closure returned by `mulberry32(seed)`; it owns the captured `seed`. */
  class Mulberry32 {
    var seed: bv32

    constructor (seed: bv32)
      ensures this.seed == seed
    {
      this.seed := seed;
    }

    /** One call of the closure: a draw in [0, 1). */
    method Next() returns (r: Unit)
      modifies this
      ensures seed == Advance(old(seed))
      ensures r == Output(seed)
    {
      seed := Advance(seed);
      r := Output(seed);
    }
  }
}
