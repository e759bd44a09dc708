/** `normalized_boundaries` of src/grisu2.cpp: the rounding interval of a double, as three
    64-bit numbers with one exponent. */
module Boundaries {
  import opened Powers
  import opened DiyFps
  import opened Ieee

  function UpperHalf(d: DiyFp): (r: DiyFp)
    requires d.f < 2 * HIDDEN
    ensures 0 < r.f < TWO63
  {
    DiyFp(d.f * 2 + 1, d.e - 1)
  }

  /** The whole bit pattern is compared with the smallest normal double. */
  function LowerHalf(bits: nat, d: DiyFp): (r: DiyFp)
    requires 0 < d.f < 2 * HIDDEN
    ensures 0 < r.f
  {
    if bits == HIDDEN then DiyFp(d.f * 4 - 1, d.e - 2) else DiyFp(d.f * 2 - 1, d.e - 1)
  }

  /** mid is the double, hi and lo the ends of the interval computed for it. */
  ghost predicate Bounded(bits: nat, lo: DiyFp, mid: DiyFp, hi: DiyFp) {
    && 0 < bits < INFINITY
    && var d := DoubleToDiy(bits);
       && Normalized(mid) && ShiftOf(mid, d)
       && Normalized(hi) && ShiftOf(hi, UpperHalf(d))
       && lo.e == hi.e && ShiftOf(lo, LowerHalf(bits, d))
  }

  /** The three numbers share their exponent; half is half an ulp at that exponent. */
  ghost predicate Aligned(bits: nat, lo: DiyFp, mid: DiyFp, hi: DiyFp, half: int) {
    && Normalized(mid) && 0x400 <= half && half % 2 == 0
    && lo.e == mid.e == hi.e && -1137 <= hi.e <= 960
    && hi.f == mid.f + half && lo.f == mid.f - (if bits == HIDDEN then half / 2 else half)
    && (if bits == HIDDEN then hi.f == Times(2 * HIDDEN + 1, half) else hi.f <= Times(4 * HIDDEN - 1, half))
    && 0 < bits < INFINITY && Product(half as real, Two(hi.e)) == Ulp(bits) / 2.0
  }

  lemma AtLeastEleven(f: int, k: nat)
    requires 0 < f < 2 * HIDDEN && TWO63 <= f * Pow(2, k)
    ensures 11 <= k && 0x400 <= Pow(2, k - 1)
  {
    assert Pow(2, 10) == 0x400;
    hide Pow;
    TenIsTooFew(f, k);
    PowMonotone(2, 10, k - 1);
  }

  lemma TenIsTooFew(f: int, k: nat)
    requires 0 < f < 2 * HIDDEN
    ensures k < 11 ==> f * Pow(2, k) < TWO63
  {
    assert Pow(2, 10) == 0x400;
    if k < 11 {
      PowMonotone(2, k, 10);
      hide Pow;
      MulMonotone(f, 2 * HIDDEN - 1, Pow(2, k));
    }
  }

  lemma AtMostSixtyThree(f: int, k: nat)
    requires 0 < f && f * Pow(2, k) < TWO64
    ensures k <= 63
  {
    hide Pow;
    if 64 <= k {
      PowerOf64();
      PowMonotone(2, 64, k);
      MulMonotone(1, f, Pow(2, k));
      assert false;
    }
  }

  /** A multiple of 2^k below 2^64 is at least 2^k below it. */
  lemma RoomAbove(f: int, k: nat)
    requires 0 < f && f * Pow(2, k) < TWO64
    ensures (f + 1) * Pow(2, k) <= TWO64
  {
    hide Pow;
    AtMostSixtyThree(f, k);
    PowerOf64();
    PowAdd(2, 64 - k, k);
    PowPositive(2, k);
    if Pow(2, 64 - k) <= f {
      MulMonotone(Pow(2, 64 - k), f, Pow(2, k));
      assert false;
    }
    MulMonotone(f + 1, Pow(2, 64 - k), Pow(2, k));
  }

  /** Shifting f by k places within 64 bits leaves room for the half unit. */
  lemma RoomForHalf(f: int, k: nat)
    requires 0 < f < 2 * HIDDEN && TWO63 <= f * Pow(2, k) < TWO64
    ensures 11 <= k <= 63 && Pow(2, k) == 2 * Pow(2, k - 1) && 0x400 <= Pow(2, k - 1)
    ensures Pow(2, k - 1) == 2 * Pow(2, k - 2)
    ensures (2 * f + 1) * Pow(2, k - 1) < TWO64
  {
    AtLeastEleven(f, k);
    AtMostSixtyThree(f, k);
    assert Pow(2, k) == 2 * Pow(2, k - 1) && Pow(2, k - 1) == 2 * Pow(2, k - 2);
    hide Pow;
    RoomAbove(f, k);
    HalfStep(f, Pow(2, k - 1));
  }

  lemma HalfStep(f: int, half: int)
    ensures (2 * f + 1) * half + half == (f + 1) * (2 * half)
    ensures (2 * f + 1) * half == f * (2 * half) + half
    ensures (2 * f - 1) * half == f * (2 * half) - half
    ensures (4 * f - 1) * half == f * (4 * half) - half
  {
  }

  lemma PowerOf64()
    ensures Pow(2, 64) == TWO64
  {
    assert FastPow(2, 64) == TWO64;
    hide Pow, FastPow;
    FastPowIsPow(2, 64);
  }

  lemma UpperShape(f: int, e: int, mid: DiyFp, hi: DiyFp, v: DiyFp, u: DiyFp) returns (k: nat)
    requires 0 < f < 2 * HIDDEN && v == DiyFp(f, e) && u == DiyFp(2 * f + 1, e - 1)
    requires Normalized(mid) && ShiftOf(mid, v) && Normalized(hi) && ShiftOf(hi, u)
    ensures 11 <= k <= 63 && mid.e == hi.e == e - k && 0x400 <= Pow(2, k - 1) && Pow(2, k - 1) == 2 * Pow(2, k - 2)
    ensures mid.f == Times(f, 2 * Pow(2, k - 1)) && hi.f == Times(2 * f + 1, Pow(2, k - 1)) == mid.f + Pow(2, k - 1)
  {
    k := e - mid.e;
    RoomForHalf(f, k);
    HalfStep(f, Pow(2, k - 1));
    assert 0 <= (2 * f + 1) * Pow(2, k - 1);
    NormalizedUnique(hi, DiyFp((2 * f + 1) * Pow(2, k - 1), mid.e), u);
  }

  lemma LowerShape(bits: nat, d: DiyFp, lo: DiyFp, k: nat)
    requires 0 < d.f < 2 * HIDDEN && 2 <= k && lo.e == d.e - k && ShiftOf(lo, LowerHalf(bits, d))
    requires Pow(2, k - 1) == 2 * Pow(2, k - 2)
    ensures lo.f == Times(d.f, 2 * Pow(2, k - 1)) - (if bits == HIDDEN then Pow(2, k - 1) / 2 else Pow(2, k - 1))
  {
    HalfStep(d.f, Pow(2, k - 1));
    HalfStep(d.f, Pow(2, k - 2));
    hide Pow;
    if bits == HIDDEN {
      assert lo.f == (4 * d.f - 1) * Pow(2, k - 2);
    } else {
      assert lo.f == (2 * d.f - 1) * Pow(2, k - 1);
    }
  }

  lemma BoundedIsAligned(bits: nat, lo: DiyFp, mid: DiyFp, hi: DiyFp) returns (half: int)
    requires Bounded(bits, lo, mid, hi)
    ensures Aligned(bits, lo, mid, hi, half)
  {
    hide *;
    BoundedParts(bits, lo, mid, hi);
    var d := DoubleToDiy(bits);
    var k := UpperShape(d.f, d.e, mid, hi, d, UpperHalf(d));
    half := Pow(2, k - 1);
    LowerShape(bits, d, lo, k);
    HalfUlpAligned(d.e, k);
    AtMostLargest(d.f, half);
    AlignedIs(bits, lo, mid, hi, half, d, k);
  }

  lemma BoundedParts(bits: nat, lo: DiyFp, mid: DiyFp, hi: DiyFp)
    requires Bounded(bits, lo, mid, hi)
    ensures 0 < bits < INFINITY && bits <= INFINITY
    ensures var d := DoubleToDiy(bits);
            && 0 < d.f < 2 * HIDDEN && UpperHalf(d) == DiyFp(2 * d.f + 1, d.e - 1)
            && Normalized(mid) && ShiftOf(mid, d) && Normalized(hi) && ShiftOf(hi, UpperHalf(d))
            && lo.e == hi.e && ShiftOf(lo, LowerHalf(bits, d))
  {
    hide Normalized, ShiftOf, LowerHalf;
  }

  lemma AlignedIs(bits: nat, lo: DiyFp, mid: DiyFp, hi: DiyFp, half: int, d: DiyFp, k: nat)
    requires 0 < bits < INFINITY && d == DoubleToDiy(bits) && 11 <= k <= 63 && half == Pow(2, k - 1)
    requires Normalized(mid) && 0x400 <= half && half == 2 * Pow(2, k - 2)
    requires lo.e == mid.e == hi.e == d.e - k
    requires hi.f == mid.f + half && lo.f == mid.f - (if bits == HIDDEN then half / 2 else half)
    requires hi.f == Times(2 * d.f + 1, half) <= Times(4 * HIDDEN - 1, half)
    requires Product(half as real, Two(hi.e)) == Two(d.e) / 2.0
    ensures Aligned(bits, lo, mid, hi, half)
  {
    hide Normalized, Product, Ulp, Scale, Two, Pow, Times, DoubleToDiy;
    LeastNormal(bits);
  }

  lemma LeastNormal(bits: nat)
    requires bits < INFINITY
    ensures bits == HIDDEN ==> DoubleToDiy(bits).f == HIDDEN
    ensures -1074 <= DoubleToDiy(bits).e <= 971 && Ulp(bits) == Two(DoubleToDiy(bits).e)
  {
    hide Scale;
    assert bits / HIDDEN <= 2046;
  }

  lemma AtMostLargest(f: int, half: int)
    requires f < 2 * HIDDEN && 0 <= half
    ensures Times(2 * f + 1, half) <= Times(4 * HIDDEN - 1, half)
  {
    MulMonotone(2 * f + 1, 4 * HIDDEN - 1, half);
  }

  lemma HalfUlpAligned(e: int, k: int)
    requires 1 <= k
    ensures Product(Pow(2, k - 1) as real, Two(e - k)) == Two(e) / 2.0
  {
    ScaleIsPow(Binary, k - 1);
    ScaleStep(Binary, e - 1);
    hide Scale, Pow, Product;
    ScaleProduct(Binary, k - 1, e - k);
    assert k - 1 + (e - k) == e - 1;
  }

  /** `normalized_boundaries`. */
  method NormalizedBoundaries(bits: nat, ghost mid: DiyFp) returns (lo: DiyFp, hi: DiyFp)
    requires 0 < bits < INFINITY
    requires Normalized(mid) && ShiftOf(mid, DoubleToDiy(bits))
    ensures Bounded(bits, lo, mid, hi)
  {
    var w := DoubleToDiy(bits);
    hi := NormalizeBoundary(UpperHalf(w));
    var mi := LowerHalf(bits, w);
    LowerFits(bits, mid, hi);
    lo := DiyFp(mi.f * Pow(2, mi.e - hi.e), hi.e);
  }

  /** The lower boundary stays below the upper one, so the shift that aligns it loses nothing. */
  lemma LowerFits(bits: nat, mid: DiyFp, hi: DiyFp)
    requires 0 < bits < INFINITY && Normalized(mid) && ShiftOf(mid, DoubleToDiy(bits))
    requires Normalized(hi) && ShiftOf(hi, UpperHalf(DoubleToDiy(bits)))
    ensures var mi := LowerHalf(bits, DoubleToDiy(bits));
            hi.e <= mi.e && 0 <= mi.f * Pow(2, mi.e - hi.e) < TWO64
  {
    var d := DoubleToDiy(bits);
    var k: nat := d.e - mid.e;
    RoomForHalf(d.f, k);
    var half := Pow(2, k - 1);
    NormalizedUnique(hi, DiyFp((2 * d.f + 1) * half, mid.e), UpperHalf(d));
    HalfStep(d.f, half);
    HalfStep(d.f, Pow(2, k - 2));
    MulMonotone(0, d.f, half);
  }
}
