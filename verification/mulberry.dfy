/**
  The mulberry32 pseudo-random generator that seeds the level layout
  (main.js, `_mulberry32`).

  The JavaScript closure keeps one 32-bit state `a`. Every call first adds the
  odd constant 0x6D2B79F5 to `a` modulo 2^32, then mixes the new state with
  xor-shifts and 32-bit multiplications (`Math.imul`) into an unsigned 32-bit
  word `u`, and returns `u / 2^32`. JavaScript switches between the signed and
  the unsigned reading of the same 32 bits (`|0`, `>>>`), which never changes
  the bit pattern. The model keeps the state as its unsigned value (`Word`),
  where the wrap-around is an explicit `% 2^32`, and does the mixing on `bv32`,
  whose `*` is exactly `Math.imul` and whose `>>` is `>>>`.
*/
module Mulberry {

  /** 2^32, the modulus of all state arithmetic and the divisor of every draw. */
  const TwoTo32: int := 0x1_0000_0000

  /** A 32-bit word read as an unsigned integer. */
  type Word = x: int | 0 <= x < TwoTo32

  /** The Weyl-sequence increment added to the state on every call. */
  const Increment: Word := 0x6D2B79F5

  /** `seed >>> 0`: the seed reduced to an unsigned 32-bit word. */
  function Seed(seed: int): (a: Word)
    ensures a == seed <==> 0 <= seed < TwoTo32
    ensures (a - seed) % TwoTo32 == 0
  {
    ModUnique(seed, seed / TwoTo32, seed % TwoTo32);
    seed % TwoTo32
  }

  /** `a = (a + 0x6D2B79F5) | 0`: one step of the state, wrapping at 2^32. */
  function Advance(a: Word): (a': Word)
    ensures a' == a + Increment || a' == a + Increment - TwoTo32
    ensures a' < a <==> a + Increment >= TwoTo32
  {
    (a + Increment) % TwoTo32
  }

  /** The mixing rounds applied to the advanced state; `Math.imul` is the
      wrapping 32-bit product and `>>>` the logical shift. */
  function MixBits(a: bv32): bv32
  {
    var t := (a ^ (a >> 15)) * (1 | a);
    var t' := (t + ((t ^ (t >> 7)) * (61 | t))) ^ t;
    t' ^ (t' >> 14)
  }

  /** `u / 4294967296`: the draw returned for the mixed unsigned word `u`. */
  function ToUnit(u: bv32): (r: real)
    ensures 0.0 <= r < 1.0
    ensures r * (TwoTo32 as real) == u as int as real
  {
    (u as int as real) / (TwoTo32 as real)
  }

  /** The value a call returns once it has advanced the state to `a`. */
  function Output(a: Word): (r: real)
    ensures 0.0 <= r < 1.0
  {
    ToUnit(MixBits(a as bv32))
  }

  /** If `y` is written as `q * 2^32 + r` with `0 <= r < 2^32`, then `q` and `r`
      are its quotient and remainder. */
  lemma ModUnique(y: int, q: int, r: int)
    requires y == q * TwoTo32 + r
    requires 0 <= r < TwoTo32
    ensures y % TwoTo32 == r
    ensures y / TwoTo32 == q
  {
  }

  /** The state after `k` calls of a generator created from state `seed`. */
  function StateAfter(seed: Word, k: nat): Word
  {
    if k == 0 then seed else Advance(StateAfter(seed, k - 1))
  }

  /** Reducing before adding `c` gives the same remainder as adding first. */
  lemma ModAdd(x: int, c: int)
    ensures (x + c) % TwoTo32 == (x % TwoTo32 + c) % TwoTo32
  {
    var q := x / TwoTo32;
    var p := x % TwoTo32 + c;
    ModUnique(x + c, q + p / TwoTo32, p % TwoTo32);
  }

  /** Closed form of the state: `seed + k * 0x6D2B79F5` reduced modulo 2^32. */
  lemma {:induction false} StateAfterClosedForm(seed: Word, k: nat)
    ensures StateAfter(seed, k) == (seed + k * Increment) % TwoTo32
  {
    if k > 0 {
      StateAfterClosedForm(seed, k - 1);
      var x := seed + (k - 1) * Increment;
      ModAdd(x, Increment);
      assert x + Increment == seed + k * Increment;
    }
  }

  /** The value returned by the `k`-th call (counting from 0). */
  function Draw(seed: Word, k: nat): (r: real)
    ensures 0.0 <= r < 1.0
  {
    Output(StateAfter(seed, k + 1))
  }

  /** The whole infinite stream of a generator created by `_mulberry32(seed)`. */
  function Stream(seed: int): nat -> real
  {
    (k: nat) => Draw(Seed(seed), k)
  }

  /** `seed >>> 0` only sees the seed modulo 2^32: seeds that differ by a
      multiple of 2^32 start from the same word, hence give the same stream. */
  lemma SeedWraps(seed: int)
    ensures Seed(seed + TwoTo32) == Seed(seed)
  {
    ModUnique(seed, seed / TwoTo32, seed % TwoTo32);
    ModUnique(seed + TwoTo32, seed / TwoTo32 + 1, seed % TwoTo32);
  }

  /** Every value of a mulberry32 stream lies in [0, 1). */
  lemma StreamInUnit(seed: int, k: nat)
    ensures 0.0 <= Stream(seed)(k) < 1.0
  {
  }

  /** Drawing `j` more values from a generator that has already produced `k`
      is the same as drawing from a fresh generator whose state is the state
      after `k` calls: the generator has no hidden state besides the word. */
  lemma {:induction false} StateAfterAdd(seed: Word, k: nat, j: nat)
    ensures StateAfter(seed, k + j) == StateAfter(StateAfter(seed, k), j)
    decreases j
  {
    if j > 0 {
      StateAfterAdd(seed, k, j - 1);
      assert StateAfter(seed, k + j) == Advance(StateAfter(seed, k + j - 1));
    }
  }

  lemma DrawShift(seed: Word, k: nat, j: nat)
    ensures Draw(seed, k + j) == Draw(StateAfter(seed, k), j)
  {
    OutputShift(seed, k, j);
  }

  lemma OutputShift(seed: Word, k: nat, j: nat)
    ensures Output(StateAfter(seed, k + (j + 1))) == Output(StateAfter(StateAfter(seed, k), j + 1))
  {
    StateAfterAdd(seed, k, j + 1);
  }

  /** The state returns to its start after 2^32 calls (the odd increment
      makes 2^32 the state's least period), so the stream repeats with
      period 2^32. */
  lemma StateAfterPeriod(seed: Word, k: nat)
    ensures StateAfter(seed, k + TwoTo32) == StateAfter(seed, k)
  {
    StateAfterClosedForm(seed, k);
    StateAfterClosedForm(seed, k + TwoTo32);
    var x := seed + k * Increment;
    assert seed + (k + TwoTo32) * Increment == x + Increment * TwoTo32;
    ModUnique(x, x / TwoTo32, x % TwoTo32);
    ModUnique(x + Increment * TwoTo32, x / TwoTo32 + Increment, x % TwoTo32);
  }

  lemma DrawPeriod(seed: Word, k: nat)
    ensures Draw(seed, k + TwoTo32) == Draw(seed, k)
  {
    StateAfterPeriod(seed, k + 1);
  }

  /** A known answer: the first call of `_mulberry32(42)` advances the state
      to 1831565855, mixes it to 2581720956 and returns
      2581720956 / 2^32 (about 0.6011). */
  lemma FirstDrawOfSeed42()
    ensures StateAfter(Seed(42), 1) == 1831565855
    ensures MixBits(1831565855 as bv32) == 2581720956
    ensures Stream(42)(0) == 2581720956.0 / 4294967296.0
  {
    assert StateAfter(Seed(42), 1) == Advance(42);
  }

  /** A second known answer: the second call of `_mulberry32(42)` reaches
      state 3663131668 and mixes it to 1925393290. */
  lemma SecondDrawOfSeed42()
    ensures StateAfter(Seed(42), 2) == 3663131668
    ensures MixBits(3663131668 as bv32) == 1925393290
    ensures Stream(42)(1) == 1925393290.0 / 4294967296.0
  {
    assert StateAfter(Seed(42), 2) == Advance(Advance(42));
  }

  /** The state after `k` calls, read off the closed form. */
  lemma KnownState(seed: Word, k: nat, st: Word)
    requires (seed + k * Increment) % TwoTo32 == st
    ensures StateAfter(seed, k) == st
  {
    StateAfterClosedForm(seed, k);
  }

  /** Draw `k` of `_mulberry32(99)` is the output of the state word the
      closed form gives after `k + 1` calls. */
  lemma Seed99Draw(k: nat, st: Word)
    requires (99 + (k + 1) * Increment) % TwoTo32 == st
    ensures Stream(99)(k) == Output(st)
  {
    KnownState(99, k + 1, st);
  }

  lemma Seed99Draw32()
    ensures Stream(99)(32) < 0.55
  {
    Seed99Draw(32, 312129784);
    Seed99Output32();
  }

  /** State 312129784 mixes to 1278237150. */
  lemma Seed99Output32()
    ensures Output(312129784) < 0.55
  {
    assert MixBits(312129784 as bv32) == 1278237150;
  }

  lemma Seed99Draw33()
    ensures (Stream(99)(33) * 90.0).Floor == 21
  {
    Seed99Draw(33, 2143695597);
    Seed99Output33();
  }

  /** State 2143695597 mixes to 1040450815. */
  lemma Seed99Output33()
    ensures (Output(2143695597) * 90.0).Floor == 21
  {
    assert MixBits(2143695597 as bv32) == 1040450815;
  }

  lemma Seed99Draw34()
    ensures Stream(99)(34) >= 0.55
  {
    Seed99Draw(34, 3975261410);
    Seed99Output34();
  }

  /** State 3975261410 mixes to 2966671880. */
  lemma Seed99Output34()
    ensures Output(3975261410) >= 0.55
  {
    assert MixBits(3975261410 as bv32) == 2966671880;
  }

  lemma Seed99Draw35()
    ensures (Stream(99)(35) * 90.0).Floor == 35
  {
    Seed99Draw(35, 1511859927);
    Seed99Output35();
  }

  /** State 1511859927 mixes to 1692960689. */
  lemma Seed99Output35()
    ensures (Output(1511859927) * 90.0).Floor == 35
  {
    assert MixBits(1511859927 as bv32) == 1692960689;
  }
}
