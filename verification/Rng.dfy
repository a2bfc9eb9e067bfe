/** The deterministic 64-bit xorshift generator behind sampling. */
module Rng {

  function FirstShift(s: bv64): bv64 {
    s ^ (s >> 12)
  }

  function SecondShift(s: bv64): bv64 {
    s ^ (s << 25)
  }

  function ThirdShift(s: bv64): bv64 {
    s ^ (s >> 27)
  }

  function Step(s: bv64): bv64 {
    ThirdShift(SecondShift(FirstShift(s)))
  }

  function Scramble(s: bv64): bv64 {
    s * 0x2545F4914F6CDD1D
  }

  /** The top 24 bits of a word. */
  function Top(v: bv64): (r: int)
    ensures 0 <= r < 16777216
  {
    ((v >> 40) as bv24) as int
  }

  /** ... as a fraction of 2^24. */
  function Fraction(v: bv64): (r: real)
    ensures 0.0 <= r < 1.0
  {
    Top(v) as real / 16777216.0
  }

  class Rng {
    var word: bv64

    constructor (seed: bv64)
      ensures word == seed + 1
    {
      word := seed + 1;
    }

    method NextF32() returns (r: real)
      modifies this
      ensures word == Step(old(word)) && r == Fraction(Scramble(word))
      ensures 0.0 <= r < 1.0
    {
      word := FirstShift(word);
      word := SecondShift(word);
      word := ThirdShift(word);
      r := Fraction(Scramble(word));
    }
  }

  // --- The one seed that gives nothing but zeros --------------------------

  lemma FirstKeepsZero(s: bv64)
    requires s ^ (s >> 12) == 0
    ensures s == 0
  {
  }

  lemma SecondKeepsZero(s: bv64)
    requires s ^ (s << 25) == 0
    ensures s == 0
  {
  }

  lemma ThirdKeepsZero(s: bv64)
    requires s ^ (s >> 27) == 0
    ensures s == 0
  {
  }

  lemma ZeroOnlyFromZero(s: bv64)
    ensures Step(s) == 0 <==> s == 0
  {
    if Step(s) == 0 {
      ThirdKeepsZero(SecondShift(FirstShift(s)));
      SecondKeepsZero(FirstShift(s));
      FirstKeepsZero(s);
    }
  }

  // --- Known words and fractions ------------------------------------------

  /** How far the two ends of a word travel, and what the first of them is scrambled to. */
  lemma EndsTravel()
    ensures Step(1) == 1 ^ (1 << 25)
    ensures Step(1 << 63) == (1 << 63) ^ (1 << 51) ^ (1 << 36) ^ (1 << 24)
    ensures Scramble(1) == 0x2545F4914F6CDD1D && Scramble(3) == 0x6FD1DDB3EE469757
  {
    assert FirstShift(1) == 1 && SecondShift(1) == 1 ^ (1 << 25);
    assert FirstShift(1 << 63) == (1 << 63) ^ (1 << 51);
    assert SecondShift((1 << 63) ^ (1 << 51)) == (1 << 63) ^ (1 << 51);
  }

  /** The fraction is the top 24 bits over 2^24: each one is drawn, and the other
      bits do not matter. */
  lemma TopBitsAreDrawn(w: bv24, low: bv64)
    ensures Top(((w as bv64) << 40) | (low & 0xFF_FFFF_FFFF)) == w as int
    ensures Fraction(((w as bv64) << 40) | (low & 0xFF_FFFF_FFFF)) == (w as int) as real / 16777216.0
  {
    TopBits(w, low);
  }

  lemma TopBits(w: bv24, low: bv64)
    ensures (((w as bv64) << 40) | (low & 0xFF_FFFF_FFFF)) >> 40 == w as bv64
  {
  }

  /** The word after some draws. */
  function WordAfter(seed: bv64, draws: nat): bv64 {
    if draws == 0 then seed + 1 else Step(WordAfter(seed, draws - 1))
  }

  lemma ZeroDrawsZero()
    ensures Fraction(Scramble(0)) == 0.0
  {
    assert Scramble(0) == 0;
    assert Top(0) == 0;
  }

  lemma OnlyLastWraps(seed: bv64)
    ensures seed + 1 == 0 <==> seed == 0xFFFF_FFFF_FFFF_FFFF
  {
  }

  /** The generator is stuck at zero for the greatest seed, which wraps, and for
      no other seed does its word ever reach zero. */
  lemma {:induction false} OnlyOneSeedSticks(seed: bv64, draws: nat)
    ensures WordAfter(seed, draws) == 0 <==> seed == 0xFFFF_FFFF_FFFF_FFFF
    ensures seed == 0xFFFF_FFFF_FFFF_FFFF ==> Fraction(Scramble(WordAfter(seed, draws))) == 0.0
  {
    if draws == 0 {
      OnlyLastWraps(seed);
    } else {
      OnlyOneSeedSticks(seed, draws - 1);
      ZeroOnlyFromZero(WordAfter(seed, draws - 1));
    }
    ZeroDrawsZero();
  }
}
