/** Seeds of the legs of one slot job (src/slots.rs). */
module Seeds {

  /** A 64-bit seed folded to the 32 bits a step carries; zero becomes one. */
  function SlotSeed(seed: bv64): (r: bv32)
    ensures r != 0
  {
    var folded := Folded(seed);
    if folded == 0 then 1 else folded
  }

  function Folded(seed: bv64): bv32 {
    ((seed ^ (seed >> 32)) & 0xffff_ffff) as bv32
  }

  /** The seed's two halves together. */
  lemma SlotSeedIs(high: bv32, low: bv32)
    ensures SlotSeed(((high as bv64) << 32) | (low as bv64)) == if high == low then 1 else high ^ low
  {
    FoldedIs(high, low);
    hide Folded;
    NoDifference(high, low);
  }

  lemma FoldedIs(high: bv32, low: bv32)
    ensures Folded(((high as bv64) << 32) | (low as bv64)) == high ^ low
  {
  }

  lemma NoDifference(high: bv32, low: bv32)
    ensures high ^ low == 0 <==> high == low
  {
  }

  /** `leg` as the 64-bit word the source casts it to, bit by bit. */
  function LegWord(leg: nat): bv64 {
    if leg == 0 then 0 else Bits(LegWord(leg / 2), leg % 2 == 1)
  }

  function Bits(high: bv64, low: bool): bv64 {
    (high << 1) | if low then 1 else 0
  }

  // The SplitMix64 output function, and each of its steps undone.

  function Fold30(x: bv64): bv64 { x ^ (x >> 30) }
  function Fold27(x: bv64): bv64 { x ^ (x >> 27) }
  function Fold31(x: bv64): bv64 { x ^ (x >> 31) }
  function TimesA(x: bv64): bv64 { x * 0xbf58_476d_1ce4_e5b9 }
  function TimesB(x: bv64): bv64 { x * 0x94d0_49bb_1331_11eb }
  function TimesGolden(x: bv64): bv64 { x * 0x9e37_79b9_7f4a_7c15 }

  function SplitMix(start: bv64): bv64 {
    Fold31(TimesB(Fold27(TimesA(Fold30(start)))))
  }

  /** The seed of leg `leg`: the job's own for leg 0, a SplitMix64 draw later. */
  function LegSeed(seed: bv64, leg: nat): bv64 {
    if leg == 0 then seed else SplitMix(Xor(seed, TimesGolden(LegWord(leg))))
  }

  function Xor(x: bv64, y: bv64): bv64 { x ^ y }

  /** The first outputs of a SplitMix64 generator seeded with zero. */
  lemma KnownSeeds()
    ensures LegSeed(0, 1) == 0xe220_a839_7b1d_cdaf
    ensures LegSeed(0, 2) == 0x6e78_9e6a_a1b9_65f4
    ensures LegSeed(0, 3) == 0x06c4_5d18_8009_454f
  {
    LegWordStep(1);
    LegWordStep(2);
    LegWordStep(3);
  }

  function Unfold30(y: bv64): bv64 { y ^ (y >> 30) ^ (y >> 60) }
  function Unfold27(y: bv64): bv64 { y ^ (y >> 27) ^ (y >> 54) }
  function Unfold31(y: bv64): bv64 { y ^ (y >> 31) ^ (y >> 62) }
  function OverA(y: bv64): bv64 { y * 0x96de_1b17_3f11_9089 }
  function OverB(y: bv64): bv64 { y * 0x3196_42b2_d24d_8ec3 }
  function OverGolden(y: bv64): bv64 { y * 0xf1de_83e1_9937_733d }

  lemma Unfold30s(x: bv64)
    ensures Unfold30(Fold30(x)) == x
  {
    hide Unfold30;
    Unfold30Written(x);
  }

  lemma Unfold30Written(x: bv64)
    ensures Unfold30(x ^ (x >> 30)) == x
  {
  }

  lemma Fold30s(y: bv64)
    ensures Fold30(Unfold30(y)) == y
  {
    hide Fold30;
    Fold30Written(y);
  }

  lemma Fold30Written(y: bv64)
    ensures Fold30(y ^ (y >> 30) ^ (y >> 60)) == y
  {
  }

  lemma Unfold27s(x: bv64)
    ensures Unfold27(Fold27(x)) == x
  {
    hide Unfold27;
    Unfold27Written(x);
  }

  lemma Unfold27Written(x: bv64)
    ensures Unfold27(x ^ (x >> 27)) == x
  {
  }

  lemma Fold27s(y: bv64)
    ensures Fold27(Unfold27(y)) == y
  {
    hide Fold27;
    Fold27Written(y);
  }

  lemma Fold27Written(y: bv64)
    ensures Fold27(y ^ (y >> 27) ^ (y >> 54)) == y
  {
  }

  lemma Unfold31s(x: bv64)
    ensures Unfold31(Fold31(x)) == x
  {
    hide Unfold31;
    Unfold31Written(x);
  }

  lemma Unfold31Written(x: bv64)
    ensures Unfold31(x ^ (x >> 31)) == x
  {
  }

  lemma Fold31s(y: bv64)
    ensures Fold31(Unfold31(y)) == y
  {
    hide Fold31;
    Fold31Written(y);
  }

  lemma Fold31Written(y: bv64)
    ensures Fold31(y ^ (y >> 31) ^ (y >> 62)) == y
  {
  }

  lemma OverAs(x: bv64)
    ensures OverA(TimesA(x)) == x
  {
    hide OverA;
    OverAWritten(x);
  }

  lemma OverAWritten(x: bv64)
    ensures OverA(x * 0xbf58_476d_1ce4_e5b9) == x
  {
  }

  lemma TimesAs(y: bv64)
    ensures TimesA(OverA(y)) == y
  {
    hide TimesA;
    TimesAWritten(y);
  }

  lemma TimesAWritten(y: bv64)
    ensures TimesA(y * 0x96de_1b17_3f11_9089) == y
  {
  }

  lemma OverBs(x: bv64)
    ensures OverB(TimesB(x)) == x
  {
    hide OverB;
    OverBWritten(x);
  }

  lemma OverBWritten(x: bv64)
    ensures OverB(x * 0x94d0_49bb_1331_11eb) == x
  {
  }

  lemma TimesBs(y: bv64)
    ensures TimesB(OverB(y)) == y
  {
    hide TimesB;
    TimesBWritten(y);
  }

  lemma TimesBWritten(y: bv64)
    ensures TimesB(y * 0x3196_42b2_d24d_8ec3) == y
  {
  }

  lemma OverGoldens(x: bv64)
    ensures OverGolden(TimesGolden(x)) == x
  {
    hide OverGolden;
    OverGoldenWritten(x);
  }

  lemma OverGoldenWritten(x: bv64)
    ensures OverGolden(x * 0x9e37_79b9_7f4a_7c15) == x
  {
  }

  lemma TimesGoldens(y: bv64)
    ensures TimesGolden(OverGolden(y)) == y
  {
    hide TimesGolden;
    TimesGoldenWritten(y);
  }

  lemma TimesGoldenWritten(y: bv64)
    ensures TimesGolden(y * 0xf1de_83e1_9937_733d) == y
  {
  }

  /** The start that mixes to `out`. */
  function Unmix(out: bv64): bv64 {
    Unfold30(OverA(Unfold27(OverB(Unfold31(out)))))
  }

  /** The mix is a bijection. */
  lemma MixUndone(x: bv64)
    ensures Unmix(SplitMix(x)) == x && SplitMix(Unmix(x)) == x
  {
    hide Fold30, Fold27, Fold31, Unfold30, Unfold27, Unfold31, TimesA, TimesB, OverA, OverB;
    var a := TimesA(Fold30(x));
    var b := TimesB(Fold27(a));
    Unfold31s(b);
    OverBs(Fold27(a));
    Unfold27s(a);
    OverAs(Fold30(x));
    Unfold30s(x);
    var d := Unfold27(OverB(Unfold31(x)));
    Fold30s(OverA(d));
    TimesAs(d);
    Fold27s(OverB(Unfold31(x)));
    TimesBs(Unfold31(x));
    Fold31s(x);
  }

  /** Two legs after the first draw the same seed only if they are one leg. */
  lemma LegSeedsDiffer(seed: bv64, a: nat, b: nat)
    requires 0 < a < 0x1_0000_0000_0000_0000 && 0 < b < 0x1_0000_0000_0000_0000
    ensures LegSeed(seed, a) == LegSeed(seed, b) <==> a == b
  {
    hide LegWord, SplitMix, Unmix, TimesGolden, OverGolden, Xor;
    var u, v := LegWord(a), LegWord(b);
    MixUndone(Xor(seed, TimesGolden(u)));
    MixUndone(Xor(seed, TimesGolden(v)));
    Twice(seed, TimesGolden(u));
    Twice(seed, TimesGolden(v));
    OverGoldens(u);
    OverGoldens(v);
    if u == v {
      LegWordsDiffer(a, b);
    }
  }

  /** A later leg draws the job's own seed again exactly at one word. */
  lemma OwnSeedAgain(seed: bv64, leg: nat)
    requires leg > 0
    ensures LegSeed(seed, leg) == seed <==> LegWord(leg) == OverGolden(Xor(seed, Unmix(seed)))
  {
    hide LegWord, SplitMix, Unmix, TimesGolden, OverGolden, Xor;
    var w := LegWord(leg);
    MixUndone(Xor(seed, TimesGolden(w)));
    MixUndone(seed);
    OverGoldens(w);
    TimesGoldens(Xor(seed, Unmix(seed)));
    Twice(seed, TimesGolden(w));
    Twice(seed, Unmix(seed));
  }

  lemma Twice(x: bv64, y: bv64)
    ensures Xor(x, Xor(x, y)) == y
  {
  }

  lemma LegWordStep(leg: nat)
    ensures LegWord(leg) == Bits(LegWord(leg / 2), leg % 2 == 1)
  {
    assert leg == 0 ==> Bits(0, false) == 0;
  }

  lemma {:induction false} LegWordsDiffer(a: nat, b: nat)
    requires a < 0x1_0000_0000_0000_0000 && b < 0x1_0000_0000_0000_0000 && LegWord(a) == LegWord(b)
    ensures a == b
  {
    hide LegWord, Bits, Mask, Power, Within;
    LegWordStep(a);
    LegWordStep(b);
    LowHalf(a);
    LowHalf(b);
    SameHalves(LegWord(a / 2), LegWord(b / 2), a % 2 == 1, b % 2 == 1);
    if a != 0 || b != 0 {
      LegWordsDiffer(a / 2, b / 2);
    }
  }

  lemma LowHalf(n: nat)
    requires n < 0x1_0000_0000_0000_0000
    ensures Within(LegWord(n / 2), 0x7fff_ffff_ffff_ffff)
  {
    hide LegWord, Bits, Mask, Power, Within;
    Bits63();
    LowBits(n / 2, 63);
  }

  function Power(k: nat): nat { if k == 0 then 1 else 2 * Power(k - 1) }

  /** The lowest `k` bits. */
  function Mask(k: nat): bv64 { if k == 0 then 0 else Bits(Mask(k - 1), true) }

  predicate Within(w: bv64, mask: bv64) {
    w & !mask == 0
  }

  lemma FourBits(k: nat, mask: bv64, power: nat)
    requires Mask(k) == mask && Power(k) == power
    ensures Mask(k + 4) == (mask << 4) | 0xf && Power(k + 4) == 16 * power
  {
    TwoBits(k, mask, power);
    TwoBits(k + 2, (mask << 2) | 3, 4 * power);
    hide Mask, Power;
  }

  lemma TwoBits(k: nat, mask: bv64, power: nat)
    requires Mask(k) == mask && Power(k) == power
    ensures Mask(k + 2) == (mask << 2) | 3 && Power(k + 2) == 4 * power
  {
    hide Bits;
    assert Mask(k + 1) == Bits(mask, true);
    TwoIn(mask);
  }

  lemma TwoIn(mask: bv64)
    ensures Bits(Bits(mask, true), true) == (mask << 2) | 3
  {
  }

  lemma Bits63()
    ensures Mask(63) == 0x7fff_ffff_ffff_ffff && Power(63) == 0x8000_0000_0000_0000
  {
    assert Mask(3) == 7 && Power(3) == 8;
    hide Mask, Power, Bits;
    FourBits(3, 7, 8);
    FourBits(7, 0x7f, 0x80);
    FourBits(11, 0x7ff, 0x800);
    FourBits(15, 0x7fff, 0x8000);
    FourBits(19, 0x7_ffff, 0x8_0000);
    FourBits(23, 0x7f_ffff, 0x80_0000);
    FourBits(27, 0x7ff_ffff, 0x800_0000);
    FourBits(31, 0x7fff_ffff, 0x8000_0000);
    FourBits(35, 0x7_ffff_ffff, 0x8_0000_0000);
    FourBits(39, 0x7f_ffff_ffff, 0x80_0000_0000);
    FourBits(43, 0x7ff_ffff_ffff, 0x800_0000_0000);
    FourBits(47, 0x7fff_ffff_ffff, 0x8000_0000_0000);
    FourBits(51, 0x7_ffff_ffff_ffff, 0x8_0000_0000_0000);
    FourBits(55, 0x7f_ffff_ffff_ffff, 0x80_0000_0000_0000);
    FourBits(59, 0x7ff_ffff_ffff_ffff, 0x800_0000_0000_0000);
  }

  /** A number below a power of two needs no more bits than that. */
  lemma {:induction false} LowBits(n: nat, k: nat)
    requires n < Power(k)
    ensures Within(LegWord(n), Mask(k))
  {
    hide Bits, Within;
    if n > 0 {
      LowBits(n / 2, k - 1);
      ShiftedIn(LegWord(n / 2), Mask(k - 1), n % 2 == 1);
    } else {
      NoBits(Mask(k));
    }
  }

  lemma NoBits(mask: bv64)
    ensures Within(0, mask)
  {
  }

  lemma ShiftedIn(w: bv64, mask: bv64, low: bool)
    requires Within(w, mask)
    ensures Within(Bits(w, low), Bits(mask, true))
  {
    hide Within, Bits;
    BitsWritten(w);
    BitsWritten(mask);
    if low {
      OneShiftedIn(w, mask);
    } else {
      NoneShiftedIn(w, mask);
    }
  }

  lemma BitsWritten(w: bv64)
    ensures Bits(w, true) == (w << 1) | 1 && Bits(w, false) == w << 1
  {
  }

  lemma OneShiftedIn(w: bv64, mask: bv64)
    requires Within(w, mask)
    ensures Within((w << 1) | 1, (mask << 1) | 1)
  {
  }

  lemma NoneShiftedIn(w: bv64, mask: bv64)
    requires Within(w, mask)
    ensures Within(w << 1, (mask << 1) | 1)
  {
  }

  lemma SameHalves(w: bv64, v: bv64, b: bool, c: bool)
    requires Within(w, 0x7fff_ffff_ffff_ffff) && Within(v, 0x7fff_ffff_ffff_ffff) && Bits(w, b) == Bits(v, c)
    ensures w == v && b == c
  {
  }
}
