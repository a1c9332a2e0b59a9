/// SplitMix64, the generator of 64-bit words behind the noise, in Swift's
/// unsigned and Kotlin's signed arithmetic, and the uniforms made from it.
module Noise {
  const TWO64: int := 0x1_0000_0000_0000_0000
  const TWO63: int := 0x8000_0000_0000_0000
  const TWO53: int := 0x20_0000_0000_0000
  const GAMMA: int := 0x9E37_79B9_7F4A_7C15
  const MIX1: int := 0xBF58_476D_1CE4_E5B9
  const MIX2: int := 0x94D0_49BB_1331_11EB

  // The inverses of the three odd constants modulo 2^64.
  const GAMMA_INVERSE: int := 0xF1DE_83E1_9937_733D
  const MIX1_INVERSE: int := 0x96DE_1B17_3F11_9089
  const MIX2_INVERSE: int := 0x3196_42B2_D24D_8EC3

  type Word = x: int | 0 <= x < TWO64

  /// Bitwise exclusive or.
  function Xor(a: nat, b: nat): nat
    decreases a + b
  {
    if a == 0 && b == 0 then 0 else (a + b) % 2 + 2 * Xor(a / 2, b / 2)
  }

  /// The unsigned shift to the right.
  function Shr(a: nat, s: nat): nat { if s == 0 then a else Shr(a / 2, s - 1) }

  function Pow2(s: nat): nat { if s == 0 then 1 else 2 * Pow2(s - 1) }

  lemma ShrEleven(a: nat)
    ensures Shr(a, 11) == a / 2048
  {
    ShrThree(a, 8);
    ShrThree(a / 8, 5);
    ShrThree(a / 64, 2);
    assert Shr(a / 512, 2) == Shr(a / 512 / 2, 1) == Shr(a / 512 / 2 / 2, 0);
  }

  lemma ShrThree(a: nat, s: nat)
    ensures Shr(a, s + 3) == Shr(a / 8, s)
  {
    assert Shr(a, s + 3) == Shr(a / 2, s + 2) == Shr(a / 2 / 2, s + 1) == Shr(a / 2 / 2 / 2, s);
  }

  lemma {:induction false} XorCommutes(a: nat, b: nat)
    ensures Xor(a, b) == Xor(b, a)
    decreases a + b
  {
    if a + b > 0 { XorCommutes(a / 2, b / 2); }
  }

  lemma {:induction false} XorSelf(a: nat)
    ensures Xor(a, a) == 0
  {
    if a > 0 { XorSelf(a / 2); }
  }

  lemma {:induction false} XorZero(a: nat)
    ensures Xor(a, 0) == a
  {
    if a > 0 { XorZero(a / 2); }
  }

  lemma Bit(p: nat, h: nat)
    requires p < 2
    ensures (p + 2 * h) % 2 == p && (p + 2 * h) / 2 == h
  {}

  lemma XorStep(a: nat, b: nat)
    ensures Xor(a, b) == (a + b) % 2 + 2 * Xor(a / 2, b / 2)
  {
    if a + b == 0 { XorZero(0); }
  }

  lemma XorHalves(a: nat, b: nat)
    ensures Xor(a, b) % 2 == (a + b) % 2 && Xor(a, b) / 2 == Xor(a / 2, b / 2)
  {
    hide Xor;
    XorStep(a, b);
    Bit((a + b) % 2, Xor(a / 2, b / 2));
  }

  lemma Parity(x: nat, y: nat, z: nat, c: nat)
    requires x % 2 == (y + z) % 2
    ensures (x + c) % 2 == (y + z + c) % 2
  {}

  lemma SameBits(x: nat, y: nat)
    requires x % 2 == y % 2 && x / 2 == y / 2
    ensures x == y
  {}

  lemma {:induction false} XorAssociates(a: nat, b: nat, c: nat)
    ensures Xor(Xor(a, b), c) == Xor(a, Xor(b, c))
    decreases a + b + c
  {
    hide Xor;
    if a + b + c == 0 {
      XorZero(0);
    } else {
      XorAssociates(a / 2, b / 2, c / 2);
      XorHalves(a, b);
      XorHalves(b, c);
      XorHalves(Xor(a, b), c);
      XorHalves(a, Xor(b, c));
      Parity(Xor(a, b), a, b, c);
      Parity(Xor(b, c), b, c, a);
      assert (Xor(a, b) + c) % 2 == (a + b + c) % 2 == (b + c + a) % 2 == (Xor(b, c) + a) % 2;
      SameBits(Xor(Xor(a, b), c), Xor(a, Xor(b, c)));
    }
  }

  lemma {:induction false} XorShifts(a: nat, b: nat, s: nat)
    ensures Shr(Xor(a, b), s) == Xor(Shr(a, s), Shr(b, s))
    decreases s
  {
    if s > 0 {
      XorHalves(a, b);
      XorShifts(a / 2, b / 2, s - 1);
    }
  }

  lemma {:induction false} ShrTwice(a: nat, s: nat, u: nat)
    ensures Shr(Shr(a, s), u) == Shr(a, s + u)
  {
    if s > 0 { ShrTwice(a / 2, s - 1, u); }
  }

  lemma {:induction false} ShrAll(a: nat, s: nat)
    requires a < Pow2(s)
    ensures Shr(a, s) == 0
  {
    if s > 0 { ShrAll(a / 2, s - 1); }
  }

  lemma {:induction false} ShrNone(a: nat, s: nat)
    requires Shr(a, s) == 0
    ensures a < Pow2(s)
  {
    if s > 0 { ShrNone(a / 2, s - 1); }
  }

  lemma {:induction false} ShrShrinks(a: nat, s: nat)
    ensures Shr(a, s) <= a
  {
    if s > 0 { ShrShrinks(a / 2, s - 1); }
  }

  lemma Pow64()
    ensures Pow2(64) == TWO64 && Pow2(53) == TWO53 && Pow2(11) == 2048
  {
    assert Pow2(11) == 2048;
    assert Pow2(21) == 0x20_0000;
    assert Pow2(32) == 0x1_0000_0000;
    assert Pow2(42) == 0x400_0000_0000;
    assert Pow2(53) == TWO53;
  }

  lemma XorIsWord(a: Word, b: Word)
    ensures Xor(a, b) < TWO64
  {
    Pow64();
    ShrAll(a, 64);
    ShrAll(b, 64);
    XorShifts(a, b, 64);
    ShrNone(Xor(a, b), 64);
  }

  /// `z ^ (z >>> s)`.
  function Fold(z: Word, s: nat): Word {
    ShrShrinks(z, s);
    XorIsWord(z, Shr(z, s));
    Xor(z, Shr(z, s))
  }

  /// Folding three times over undoes folding, for shifts of more than a third
  /// of a word.
  function Unfold(y: Word, s: nat): Word {
    ShrShrinks(y, s);
    ShrShrinks(y, 2 * s);
    XorIsWord(y, Shr(y, s));
    XorIsWord(Xor(y, Shr(y, s)), Shr(y, 2 * s));
    Xor(Xor(y, Shr(y, s)), Shr(y, 2 * s))
  }

  /// a ^ b ^ b ^ c == a ^ c.
  lemma XorCancels(a: nat, b: nat, c: nat)
    ensures Xor(Xor(a, b), Xor(b, c)) == Xor(a, c)
  {
    XorAssociates(a, b, Xor(b, c));
    XorAssociates(b, b, c);
    XorSelf(b);
    XorCommutes(0, c);
    XorZero(c);
  }

  lemma UnfoldFolds(x: Word, s: nat)
    requires 3 * s >= 64
    ensures Unfold(Fold(x, s), s) == x
  {
    var y := Xor(x, Shr(x, s));
    XorShifts(x, Shr(x, s), s);
    ShrTwice(x, s, s);
    XorCancels(x, Shr(x, s), Shr(x, 2 * s));
    XorShifts(x, Shr(x, s), 2 * s);
    ShrTwice(x, s, 2 * s);
    XorCancels(x, Shr(x, 2 * s), Shr(x, 3 * s));
    Vanishes(x, 3 * s);
    XorZero(x);
  }

  lemma Vanishes(x: Word, s: nat)
    requires s >= 64
    ensures Shr(x, s) == 0
  {
    Pow64();
    ShrAll(x, 64);
    ShrTwice(x, 64, s - 64);
    ShrShrinks(0, s - 64);
  }

  /// Unfolding is onto as well: every word is a fold.
  lemma FoldUnfolds(y: Word, s: nat)
    requires 3 * s >= 64
    ensures Fold(Unfold(y, s), s) == y
  {
    var a, b, c := y, Shr(y, s), Shr(y, 2 * s);
    var x := Xor(Xor(a, b), c);
    XorShifts(Xor(a, b), c, s);
    XorShifts(a, b, s);
    ShrTwice(y, s, s);
    ShrTwice(y, 2 * s, s);
    Vanishes(y, 3 * s);
    XorZero(Xor(b, c));
    XorAssociates(a, b, c);
    XorAssociates(a, Xor(b, c), Xor(b, c));
    XorSelf(Xor(b, c));
    XorZero(a);
  }

  /// Multiplication modulo 2^64.
  function Times(x: int, c: int): Word { (x * c) % TWO64 }

  lemma ModTimes(x: int, c: int)
    ensures Times(x % TWO64, c) == Times(x, c)
  {
    var q, r := x / TWO64, x % TWO64;
    assert x * c == r * c + TWO64 * (q * c);
    Shifted(r * c, q * c);
  }

  lemma Shifted(a: int, k: int)
    ensures (a + TWO64 * k) % TWO64 == a % TWO64
  {
  }

  lemma TimesInverse(x: Word, c: int, inverse: int, k: int)
    requires c * inverse == 1 + TWO64 * k
    ensures Times(Times(x, c), inverse) == x
  {
    ModTimes(x * c, inverse);
    assert x * c * inverse == x * (c * inverse);
    assert x * (c * inverse) == x + TWO64 * (x * k);
    Shifted(x, x * k);
  }

  lemma Inverses()
    ensures GAMMA * GAMMA_INVERSE == 1 + TWO64 * 10771413168148108919 && MIX1 * MIX1_INVERSE == 1 + TWO64 * 8125545580553827436
    ensures MIX2 * MIX2_INVERSE == 1 + TWO64 * 2077064247507883091
  {}

  /// The mixing of one state, in unsigned arithmetic.
  function Mix(state: Word): Word {
    Fold(Times(Fold(Times(Fold(state, 30), MIX1), 27), MIX2), 31)
  }

  function Unmix(word: Word): Word {
    Unfold(Times(Unfold(Times(Unfold(word, 31), MIX2_INVERSE), 27), MIX1_INVERSE), 30)
  }

  lemma {:induction false} UnmixMixes(x: Word)
    ensures Unmix(Mix(x)) == x && Mix(Unmix(x)) == x
  {
    hide Fold, Unfold, Times;
    Inverses();
    var a := Fold(x, 30);
    var b := Times(a, MIX1);
    var c := Fold(b, 27);
    var d := Times(c, MIX2);
    UnfoldFolds(d, 31);
    TimesInverse(c, MIX2, MIX2_INVERSE, 2077064247507883091);
    UnfoldFolds(b, 27);
    TimesInverse(a, MIX1, MIX1_INVERSE, 8125545580553827436);
    UnfoldFolds(x, 30);
    UnmixBack(x);
  }

  lemma UnmixBack(x: Word)
    ensures Mix(Unmix(x)) == x
  {
    hide Fold, Unfold, Times;
    Inverses();
    var d := Unfold(x, 31);
    var c := Times(d, MIX2_INVERSE);
    var b := Unfold(c, 27);
    var a := Times(b, MIX1_INVERSE);
    FoldUnfolds(a, 30);
    TimesInverse(b, MIX1_INVERSE, MIX1, 8125545580553827436);
    FoldUnfolds(c, 27);
    TimesInverse(d, MIX2_INVERSE, MIX2, 2077064247507883091);
    FoldUnfolds(x, 31);
  }

  /// The state before word `n` is made, and that word.
  function StateAt(seed: Word, n: nat): Word { (seed + n * GAMMA) % TWO64 }

  function WordAt(seed: Word, n: nat): Word { Mix(StateAt(seed, n + 1)) }

  /// No two of the first 2^64 words are equal.
  lemma {:induction false} WordsDiffer(seed: Word, m: nat, n: nat)
    requires m < TWO64 && n < TWO64 && WordAt(seed, m) == WordAt(seed, n)
    ensures m == n
  {
    UnmixMixes(StateAt(seed, m + 1));
    UnmixMixes(StateAt(seed, n + 1));
    IndexOf(seed, m);
    IndexOf(seed, n);
  }

  /// The number of steps from the seed to a state.
  function Steps(seed: Word, state: Word): Word { Times(state - seed, GAMMA_INVERSE) }

  lemma IndexOf(seed: Word, n: nat)
    requires n < TWO64
    ensures Steps(seed, StateAt(seed, n + 1)) == (n + 1) % TWO64
    ensures n == if Steps(seed, StateAt(seed, n + 1)) == 0 then TWO64 - 1 else Steps(seed, StateAt(seed, n + 1)) - 1
  {
    Inverses();
    var x := seed + (n + 1) * GAMMA;
    var q := x / TWO64;
    assert StateAt(seed, n + 1) - seed == (n + 1) * GAMMA + TWO64 * (-q);
    Shifted((n + 1) * GAMMA, -q);
    ModTimes(StateAt(seed, n + 1) - seed, GAMMA_INVERSE);
    ModTimes((n + 1) * GAMMA, GAMMA_INVERSE);
    assert (n + 1) * GAMMA * GAMMA_INVERSE == (n + 1) * (GAMMA * GAMMA_INVERSE);
    assert (n + 1) * (GAMMA * GAMMA_INVERSE) == (n + 1) + TWO64 * ((n + 1) * 10771413168148108919);
    Shifted(n + 1, (n + 1) * 10771413168148108919);
  }

  /// Every word is among the first 2^64: from any seed they are a permutation.
  lemma {:induction false} EveryWordComes(seed: Word, word: Word) returns (n: nat)
    ensures n < TWO64 && WordAt(seed, n) == word
  {
    hide Mix, Unmix;
    var state := Unmix(word);
    UnmixMixes(word);
    var steps := Steps(seed, state);
    n := if steps == 0 then TWO64 - 1 else steps - 1;
    Inverses();
    var all := (n + 1) * GAMMA;
    ModTimes(n + 1, GAMMA);
    assert Times(steps, GAMMA) == all % TWO64 by { assert (n + 1) % TWO64 == steps; }
    ModTimes((state - seed) * GAMMA_INVERSE, GAMMA);
    assert (state - seed) * GAMMA_INVERSE * GAMMA == (state - seed) * (GAMMA * GAMMA_INVERSE);
    assert (state - seed) * (GAMMA * GAMMA_INVERSE) == (state - seed) + TWO64 * ((state - seed) * 10771413168148108919);
    Shifted(state - seed, (state - seed) * 10771413168148108919);
    assert all % TWO64 == (state - seed) % TWO64;
    Congruent(seed, all, state);
  }

  lemma Congruent(seed: Word, all: nat, state: Word)
    requires all % TWO64 == (state - seed) % TWO64
    ensures (seed + all) % TWO64 == state
  {
    var q, p := all / TWO64, (state - seed) / TWO64;
    assert seed + all == state + TWO64 * (q - p);
    Shifted(state, q - p);
  }

  /// A Kotlin Long, and the word with the same bits.
  type Long = x: int | -TWO63 <= x < TWO63

  function Bits(x: Long): Word { x % TWO64 }

  function Wrap(i: int): Long { (i + TWO63) % TWO64 - TWO63 }

  lemma WrapKeepsBits(i: int)
    ensures Bits(Wrap(i)) == i % TWO64
  {
    var q := (i + TWO63) / TWO64;
    assert Wrap(i) == i + TWO64 * (-q);
    Shifted(i, -q);
  }

  /// `+` and `*` of Longs wrap; `xor` and `ushr` work on the bits.
  function AddLong(a: Long, b: Long): Long { Wrap(a + b) }

  function MultiplyLong(a: Long, b: Long): Long { Wrap(a * b) }

  function XorLong(a: Long, b: Long): Long { XorIsWord(Bits(a), Bits(b)); Wrap(Xor(Bits(a), Bits(b))) }

  function UshrLong(a: Long, s: nat): Long { ShrShrinks(Bits(a), s); Wrap(Shr(Bits(a), s)) }

  const GAMMA_LONG: Long := -0x61c8_8646_80b5_83eb
  const MIX1_LONG: Long := -0x40a7_b892_e31b_1a47
  const MIX2_LONG: Long := -0x6b2f_b644_ecce_ee15

  lemma ConstantsAgree()
    ensures Bits(GAMMA_LONG) == GAMMA && Bits(MIX1_LONG) == MIX1 && Bits(MIX2_LONG) == MIX2
  {
  }

  function FoldLong(z: Long, s: nat): Long { XorLong(z, UshrLong(z, s)) }

  lemma FoldsAgree(z: Long, s: nat)
    ensures Bits(FoldLong(z, s)) == Fold(Bits(z), s)
  {
    hide Xor, Shr;
    ShrShrinks(Bits(z), s);
    WrapKeepsBits(Shr(Bits(z), s));
    XorIsWord(Bits(z), Shr(Bits(z), s));
    WrapKeepsBits(Xor(Bits(z), Shr(Bits(z), s)));
  }

  lemma ProductsAgree(a: Long, b: Long, c: Word)
    requires Bits(b) == c
    ensures Bits(MultiplyLong(a, b)) == Times(Bits(a), c)
  {
    WrapKeepsBits(a * b);
    ModTimes(a, c);
    var q := b / TWO64;
    assert a * b == a * c + TWO64 * (a * q);
    Shifted(a * c, a * q);
  }

  function MixLong(z: Long): Long {
    FoldLong(MultiplyLong(FoldLong(MultiplyLong(FoldLong(z, 30), MIX1_LONG), 27), MIX2_LONG), 31)
  }

  /// Kotlin's signed arithmetic gives the bits of Swift's unsigned arithmetic.
  lemma {:induction false} MixesAgree(z: Long)
    ensures Bits(MixLong(z)) == Mix(Bits(z))
  {
    hide FoldLong, MultiplyLong, Fold, Times;
    ConstantsAgree();
    var a := FoldLong(z, 30);
    var b := MultiplyLong(a, MIX1_LONG);
    var c := FoldLong(b, 27);
    var d := MultiplyLong(c, MIX2_LONG);
    FoldsAgree(z, 30);
    ProductsAgree(a, MIX1_LONG, MIX1);
    FoldsAgree(b, 27);
    ProductsAgree(c, MIX2_LONG, MIX2);
    FoldsAgree(d, 31);
  }

  lemma NextState(seed: Word, n: nat)
    ensures StateAt(seed, n + 1) == (StateAt(seed, n) + GAMMA) % TWO64
  {
    var x := seed + n * GAMMA;
    var q := x / TWO64;
    assert seed + (n + 1) * GAMMA == StateAt(seed, n) + GAMMA + TWO64 * q;
    Shifted(StateAt(seed, n) + GAMMA, q);
  }

  lemma SumsAgree(a: Long, b: Long)
    ensures Bits(AddLong(a, b)) == (Bits(a) + Bits(b)) % TWO64
  {
    WrapKeepsBits(a + b);
    var p, q := a / TWO64, b / TWO64;
    assert a + b == Bits(a) + Bits(b) + TWO64 * (p + q);
    Shifted(Bits(a) + Bits(b), p + q);
  }

  /// `nextDouble`: a multiple of 2^-53 in [0, 1), so the conversion and the
  /// product in double arithmetic are exact. Every multiple is reached, by as
  /// many words as any other.
  function Uniform(word: Word): real { Shr(word, 11) as real / TWO53 as real }

  lemma UniformIsFine(word: Word)
    ensures Shr(word, 11) == word / 2048 < TWO53
    ensures 0.0 <= Uniform(word) < 1.0 && Uniform(word) * TWO53 as real == Shr(word, 11) as real
  {
    Pow64();
    ShrEleven(word);
  }

  lemma UniformIsEven(k: nat, low: nat)
    requires k < TWO53 && low < 2048
    ensures 2048 * k + low < TWO64 && Uniform(2048 * k + low) == k as real / TWO53 as real
  {
    UniformIsFine(2048 * k + low);
  }

  /// The Swift generator.
  class UnsignedGenerator {
    var state: Word

    constructor (seed: Long)
      ensures state == Bits(seed)
    {
      state := Bits(seed);
    }

    method NextUInt64() returns (word: Word)
      modifies this
      ensures state == (old(state) + GAMMA) % TWO64 && word == Mix(state)
    {
      state := (state + GAMMA) % TWO64;
      var z := state;
      z := Times(Fold(z, 30), MIX1);
      z := Times(Fold(z, 27), MIX2);
      word := Fold(z, 31);
    }
  }

  /// The Kotlin generator.
  class SignedGenerator {
    var state: Long

    constructor (seed: Long)
      ensures state == seed
    {
      state := seed;
    }

    method NextLong() returns (word: Long)
      modifies this
      ensures Bits(state) == (old(Bits(state)) + GAMMA) % TWO64 && Bits(word) == Mix(Bits(state))
    {
      ConstantsAgree();
      SumsAgree(state, GAMMA_LONG);
      state := AddLong(state, GAMMA_LONG);
      var z := state;
      z := MultiplyLong(FoldLong(z, 30), MIX1_LONG);
      z := MultiplyLong(FoldLong(z, 27), MIX2_LONG);
      word := FoldLong(z, 31);
      MixesAgree(state);
    }
  }

  /// From one seed both make the same bits, word by word: those whose first
  /// 2^64 are a permutation.
  method MakeBoth(seed: Long, count: nat) returns (words: seq<Word>, longs: seq<Long>)
    ensures |words| == |longs| == count
    ensures forall i :: 0 <= i < count ==> words[i] == Bits(longs[i]) == WordAt(Bits(seed), i)
  {
    hide Mix, StateAt;
    var swift := new UnsignedGenerator(seed);
    var kotlin := new SignedGenerator(seed);
    words, longs := [], [];
    StartState(Bits(seed));
    for n := 0 to count
      invariant |words| == |longs| == n && fresh(swift) && fresh(kotlin)
      invariant swift.state == Bits(kotlin.state) == StateAt(Bits(seed), n)
      invariant forall i :: 0 <= i < n ==> words[i] == Bits(longs[i]) == WordAt(Bits(seed), i)
    {
      NextState(Bits(seed), n);
      var word := swift.NextUInt64();
      var long := kotlin.NextLong();
      words, longs := words + [word], longs + [long];
    }
  }

  lemma StartState(seed: Word)
    ensures StateAt(seed, 0) == seed
  {}
}
