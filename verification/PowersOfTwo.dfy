/** The doubles whose lower rounding boundary grisu2 gets wrong: exact powers of two with
    biased exponent 2 or more. src/grisu2.cpp:72 narrows the lower half of the interval only
    for the least normal double, so for these the computed lower boundary is the neighbouring
    double itself. Which of them still read back is decided here, all 2045. */
module PowersOfTwo {
  import opened Powers
  import opened DiyFps
  import opened Digits
  import opened DigitGeneration
  import opened Ieee
  import opened Boundaries
  import opened CachedPowers
  import opened Grisu

  /** The biased exponent of a double. */
  function Biased(bits: nat): nat {
    bits / HIDDEN
  }

  /** The boundaries of all these doubles are the same but for their exponent. */
  lemma PowerShape(bits: nat, run: Run, digits: string)
    requires RunOf(bits, run, digits) && UnevenPower(bits)
    ensures HIDDEN < bits < INFINITY && 0 < bits && Biased(bits) <= 2046
    ensures var e := Biased(bits) - 1086;
            && run.mid == DiyFp(0x8000_0000_0000_0000, e)
            && run.hi == DiyFp(0x8000_0000_0000_0400, e)
            && run.lo == DiyFp(0x7FFF_FFFF_FFFF_FC00, e)
  {
    hide *;
    RunOfParts(bits, run, digits);
    BoundedPower(bits, run.lo, run.mid, run.hi);
  }

  lemma BoundedPower(bits: nat, lo: DiyFp, mid: DiyFp, hi: DiyFp)
    requires Bounded(bits, lo, mid, hi) && UnevenPower(bits)
    ensures HIDDEN < bits < INFINITY && 0 < bits && Biased(bits) <= 2046
    ensures var e := Biased(bits) - 1086;
            && mid == DiyFp(0x8000_0000_0000_0000, e)
            && hi == DiyFp(0x8000_0000_0000_0400, e)
            && lo == DiyFp(0x7FFF_FFFF_FFFF_FC00, e)
  {
    var d, e := DoubleToDiy(bits), Biased(bits) - 1086;
    assert d == DiyFp(HIDDEN, e + 11);
    assert Biased(bits) <= 2046;
    assert Pow(2, 11) == 2048 && Pow(2, 10) == 1024;
    NormalizedUnique(mid, DiyFp(0x8000_0000_0000_0000, e), d);
    NormalizedUnique(hi, DiyFp(0x8000_0000_0000_0400, e), UpperHalf(d));
  }

  /** An integer bound on the scaled interval, as reals. */
  lemma Compare(x: int, y: int, kappa: int, shift: int)
    requires 0 <= shift
    ensures var up, down := Pow(10, if kappa < 0 then 0 else kappa), Pow(10, if kappa < 0 then -kappa else 0);
            && (Times(x, down) < Times(y, Times(up, Pow(2, shift))) <==> Below(x, y, kappa, shift))
            && (Times(y, Times(up, Pow(2, shift))) < Times(x, down) <==> Above(x, y, kappa, shift))
  {
    hide *;
    CompareAt(x, y, kappa, shift, if kappa < 0 then 0 else kappa, if kappa < 0 then -kappa else 0);
  }

  lemma CompareAt(x: int, y: int, kappa: int, shift: int, n: int, m: int)
    requires 0 <= shift && 0 <= n && 0 <= m && kappa + m == n
    ensures Times(x, Pow(10, m)) < Times(y, Times(Pow(10, n), Pow(2, shift))) <==> Below(x, y, kappa, shift)
    ensures Times(y, Times(Pow(10, n), Pow(2, shift))) < Times(x, Pow(10, m)) <==> Above(x, y, kappa, shift)
  {
    hide *;
    var up, down, one := Pow(10, n), Pow(10, m), Pow(2, shift);
    PowPositive(10, m);
    PowPositive(2, shift);
    TenShift(kappa, n, m);
    TwoShift(shift);
    TimesAsReal(x, down);
    TimesAsReal(up, one);
    TimesAsReal(y, Times(up, one));
    ScaleBoth(x as real, y as real, Ten(kappa), up as real, down as real, Two(-shift), one as real);
    BelowAbove(x, y, kappa, shift);
  }

  lemma BelowAbove(x: int, y: int, place: int, shift: int)
    ensures Below(x, y, place, shift) <==> Product(x as real, Two(-shift)) < Product(y as real, Ten(place))
    ensures Above(x, y, place, shift) <==> Product(y as real, Ten(place)) < Product(x as real, Two(-shift))
  {
    hide Scale, Product;
  }

  lemma TimesAsReal(x: int, y: int)
    ensures Times(x, y) as real == Product(x as real, y as real)
  {
    ProductAsReal(x, y);
  }

  lemma ScaleBoth(x: real, y: real, ten: real, up: real, down: real, two: real, one: real)
    requires Product(ten, down) == up && Product(two, one) == 1.0 && 0.0 < down && 0.0 < one
    ensures Product(x, down) <= Product(y, Product(up, one)) <==> Product(x, two) <= Product(y, ten)
    ensures Product(y, Product(up, one)) <= Product(x, down) <==> Product(y, ten) <= Product(x, two)
  {
    var k := down * one;
    assert 0.0 < k;
    Regroup(x, two, down, one);
    assert (y * ten) * k == y * (up * one) by {
      RealAssoc(y, ten, k);
      RealAssoc(ten, down, one);
    }
    RealStrict(y * ten, x * two, k);
    RealStrict(x * two, y * ten, k);
  }

  /** v units of 10^place lie in (lower, upper], closest to the target, the larger of two equally
      close ones, and no multiple of ten such units lies in [lower, upper]. */
  ghost predicate Pinned(s: Interval, place: int, v: int) {
    && Below(s.lower, v, place, s.shift) && !Below(s.upper, v, place, s.shift)
    && !Below(2 * s.target, 2 * v - 1, place, s.shift) && Below(2 * s.target, 2 * v + 1, place, s.shift)
    && Above(s.lower, v / 10 * 10, place, s.shift) && Below(s.upper, v / 10 * 10 + 10, place, s.shift)
  }

  /** x / 2^shift < y * 10^place. */
  ghost predicate Below(x: int, y: int, place: int, shift: int) {
    Product(x as real, Two(-shift)) < Product(y as real, Ten(place))
  }

  /** x / 2^shift > y * 10^place. */
  ghost predicate Above(x: int, y: int, place: int, shift: int) {
    Product(y as real, Ten(place)) < Product(x as real, Two(-shift))
  }

  lemma Rescale(v: int, place: int, kappa: int)
    requires kappa < place
    ensures var z := Times(v, Pow(10, place - kappa - 1));
            Product(v as real, Ten(place)) == Product((10 * z) as real, Ten(kappa))
  {
    var d: nat := place - kappa;
    assert Pow(10, d) == 10 * Pow(10, d - 1);
    assert Times(v, Pow(10, d)) == 10 * Times(v, Pow(10, d - 1));
    hide *;
    ScaleIsPow(Decimal, d);
    ScaleProduct(Decimal, d, kappa);
    DecimalBase();
    TimesAsReal(v, Pow(10, d));
    MoveFactor(v as real, Ten(d), Ten(kappa));
  }

  lemma DecimalBase()
    ensures Decimal.Base() == 10
  {
  }

  lemma TenTimes(z: int, unit: int)
    ensures Times(10 * z, unit) == Times(z, 10 * unit)
  {
  }

  /** The run did not stop at a finer place than one that settles the matter. */
  lemma NotFiner(s: Interval, digits: string, kappa: int, place: int, v: int)
    requires 0 <= s.shift && Generated(s.upper, s.target, s.upper - s.lower, s.shift, digits, kappa)
    requires Below(s.lower, v, place, s.shift) && !Below(s.upper, v, place, s.shift)
    ensures place <= kappa
  {
    if kappa < place {
      hide *;
      var z := Times(v, Pow(10, place - kappa - 1));
      Rescale(v, place, kappa);
      BelowAbove(s.lower, v, place, s.shift);
      BelowAbove(s.upper, v, place, s.shift);
      BelowAbove(s.lower, 10 * z, kappa, s.shift);
      BelowAbove(s.upper, 10 * z, kappa, s.shift);
      Compare(s.lower, 10 * z, kappa, s.shift);
      Compare(s.upper, 10 * z, kappa, s.shift);
      GeneratedCoarse(s, digits, kappa, z);
      assert false;
    }
  }

  lemma GeneratedCoarse(s: Interval, digits: string, kappa: int, z: int)
    requires 0 <= s.shift && Generated(s.upper, s.target, s.upper - s.lower, s.shift, digits, kappa)
    ensures var up, down := Pow(10, if kappa < 0 then 0 else kappa), Pow(10, if kappa < 0 then -kappa else 0);
            var unit := Times(up, Pow(2, s.shift));
            Times(10 * z, unit) <= Times(s.upper, down) ==> Times(10 * z, unit) <= Times(s.lower, down)
  {
    var up, down := Pow(10, if kappa < 0 then 0 else kappa), Pow(10, if kappa < 0 then -kappa else 0);
    var unit := Times(up, Pow(2, s.shift));
    hide Pow, Num, Gap, Times, AllDigits;
    TenTimes(z, unit);
    Subtraction(s.upper, s.lower, down);
  }

  /** Nor at a coarser one. */
  lemma NotCoarser(s: Interval, digits: string, kappa: int, place: int, q: int)
    requires 0 <= s.shift && Generated(s.upper, s.target, s.upper - s.lower, s.shift, digits, kappa)
    requires Above(s.lower, q * 10, place, s.shift) && Below(s.upper, q * 10 + 10, place, s.shift)
    ensures kappa <= place
  {
    if place < kappa {
      hide *;
      GeneratedDigits(s, digits, kappa);
      GeneratedWithin(s, digits, kappa);
      DenotedIs(digits, kappa);
      DecimalValueIs(Num(digits), kappa);
      Rescale(Num(digits), kappa, place);
      var z := Times(Num(digits), Pow(10, kappa - place - 1));
      BelowAbove(s.lower, q * 10, place, s.shift);
      BelowAbove(s.upper, q * 10 + 10, place, s.shift);
      ProductOrder(q * 10, 10 * z, Ten(place));
      ProductOrder(10 * z, q * 10 + 10, Ten(place));
      assert false;
    }
  }

  lemma ProductOrder(x: int, y: int, k: real)
    requires 0.0 < k
    ensures Product(x as real, k) < Product(y as real, k) <==> x < y
  {
    RealStrict(x as real, y as real, k);
    RealStrict(y as real, x as real, k);
  }

  lemma DecimalValueIs(m: nat, k: int)
    ensures DecimalValue(m, k) == Product(m as real, Ten(k))
  {
  }

  /** At the same place the choice of v is forced. */
  lemma SameDigits(lower: int, target: int, upper: int, unit: int, v: int, w: int)
    requires 0 < unit && Chosen(upper, upper - lower, target, unit, w)
    requires lower < Times(v, unit) <= upper && -unit <= 2 * (target - Times(v, unit)) < unit
    ensures v == w
  {
    ChosenAgainst(upper, upper - lower, target, unit, w, v);
    hide Times, Chosen;
    if v < w { TimesBeyond(v, w, unit); }
    if w < v { TimesBeyond(w, v, unit); }
  }

  lemma ChosenAgainst(hi: int, width: int, target: int, unit: int, w: int, v: int)
    requires Chosen(hi, width, target, unit, w)
    ensures hi - width <= Times(v, unit) <= hi ==>
              && Gap(target, Times(w, unit)) <= Gap(target, Times(v, unit))
              && (w < v ==> Gap(target, Times(w, unit)) < Gap(target, Times(v, unit)))
  {
    hide Times, Gap;
  }

  /** So the digits and their place are known. */
  lemma DigitsPinned(s: Interval, digits: string, kappa: int, place: int, v: int)
    requires 0 <= s.shift && Generated(s.upper, s.target, s.upper - s.lower, s.shift, digits, kappa)
    requires Pinned(s, place, v)
    ensures AllDigits(digits) && kappa == place && Num(digits) == v
  {
    hide *;
    PinnedParts(s, place, v);
    NotFiner(s, digits, kappa, place, v);
    NotCoarser(s, digits, kappa, place, v / 10);
    GeneratedDigits(s, digits, kappa);
    GeneratedChosen(s, digits, kappa);
    Compare(s.lower, v, kappa, s.shift);
    Compare(s.upper, v, kappa, s.shift);
    Compare(2 * s.target, 2 * v - 1, kappa, s.shift);
    Compare(2 * s.target, 2 * v + 1, kappa, s.shift);
    var up, down := Pow(10, if kappa < 0 then 0 else kappa), Pow(10, if kappa < 0 then -kappa else 0);
    var unit := Times(up, Pow(2, s.shift));
    DoubledTimes(s.target, down);
    OddTimes(v, unit);
    SameDigits(Times(s.lower, down), Times(s.target, down), Times(s.upper, down), unit, v, Num(digits));
  }

  lemma PinnedParts(s: Interval, place: int, v: int)
    requires Pinned(s, place, v)
    ensures Below(s.lower, v, place, s.shift) && !Below(s.upper, v, place, s.shift)
    ensures !Below(2 * s.target, 2 * v - 1, place, s.shift) && Below(2 * s.target, 2 * v + 1, place, s.shift)
    ensures Above(s.lower, v / 10 * 10, place, s.shift) && Below(s.upper, v / 10 * 10 + 10, place, s.shift)
  {
    hide Below, Above;
  }

  lemma DoubledTimes(x: int, k: int)
    ensures Times(2 * x, k) == 2 * Times(x, k)
  {
  }

  lemma OddTimes(v: int, unit: int)
    ensures Times(2 * v - 1, unit) == 2 * Times(v, unit) - unit && Times(2 * v + 1, unit) == 2 * Times(v, unit) + unit
  {
  }

  lemma GeneratedChosen(s: Interval, digits: string, kappa: int)
    requires 0 <= s.shift && Generated(s.upper, s.target, s.upper - s.lower, s.shift, digits, kappa)
    ensures var up, down := Pow(10, if kappa < 0 then 0 else kappa), Pow(10, if kappa < 0 then -kappa else 0);
            && AllDigits(digits)
            && Chosen(Times(s.upper, down), Times(s.upper, down) - Times(s.lower, down), Times(s.target, down),
                      Times(up, Pow(2, s.shift)), Num(digits))
  {
    hide Pow, Num, Chosen, Times, AllDigits;
    Subtraction(s.upper, s.lower, Pow(10, if kappa < 0 then -kappa else 0));
  }

  /** A certificate for one power of two: its scaled value `target`, the scaled bounds target - a
      and target + b, the scaled midpoint target - m to the neighbour below, 2^shift = one, the
      place 10^(k - 16) of the last digit with ten = 10^k, the digits v, and whether they are
      on the wrong side of that midpoint. */
  datatype Certificate = Certificate(target: int, a: int, b: int, m: int, shift: nat, one: int,
                                     k: nat, ten: int, v: int, misread: bool)

  /** 10^16 times the scaled values, so that v * ten * one is an integer at every place. */
  ghost predicate Certified(c: Certificate) {
    && 32 <= c.shift <= 60 && c.one == Pow(2, c.shift) && c.k <= 20 && c.ten == Pow(10, c.k)
    && c.v / 10 * 10 * (c.ten * c.one) < (c.target - c.a) * 1_0000_0000_0000_0000
    && (c.target + c.b) * 1_0000_0000_0000_0000 < (c.v / 10 * 10 + 10) * (c.ten * c.one)
    && (c.target - c.a) * 1_0000_0000_0000_0000 < c.v * (c.ten * c.one) <= (c.target + c.b) * 1_0000_0000_0000_0000
    && -(c.ten * c.one) <= 2 * (c.target * 1_0000_0000_0000_0000 - c.v * (c.ten * c.one)) < c.ten * c.one
    && (if c.misread then c.v * (c.ten * c.one) <= (c.target - c.m - 1) * 1_0000_0000_0000_0000
        else (c.target - c.m + 1) * 1_0000_0000_0000_0000 <= c.v * (c.ten * c.one))
  }

  /** The certificate's bounds are those grisu2 computes with the cached power c. */
  predicate BoundsOf(c: DiyFp, target: int, a: int, b: int, m: int) {
    && Multiply(DiyFp(0x8000_0000_0000_0000, 0), c).f == target
    && Multiply(DiyFp(0x7FFF_FFFF_FFFF_FC00, 0), c).f + 1 == target - a
    && Multiply(DiyFp(0x8000_0000_0000_0400, 0), c).f - 1 == target + b
    && Multiply(DiyFp(0x7FFF_FFFF_FFFF_FE00, 0), c).f == target - m
  }

  /** A certificate pins the digits of the run. */
  lemma CertifiedPins(c: Certificate, s: Interval)
    requires Certified(c) && s == Interval(c.target - c.a, c.target, c.target + c.b, c.shift)
    ensures Pinned(s, c.k - 16, c.v)
    ensures if c.misread then !Below(c.target - c.m - 1, c.v, c.k - 16, c.shift)
            else !Above(c.target - c.m + 1, c.v, c.k - 16, c.shift)
  {
    CertifiedTimes(c);
    hide *;
    TenToSixteen();
    var one := Times(Pow(10, c.k), Pow(2, c.shift));
    CompareAt(s.lower, c.v, c.k - 16, c.shift, c.k, 16);
    CompareAt(s.upper, c.v, c.k - 16, c.shift, c.k, 16);
    CompareAt(2 * s.target, 2 * c.v - 1, c.k - 16, c.shift, c.k, 16);
    CompareAt(2 * s.target, 2 * c.v + 1, c.k - 16, c.shift, c.k, 16);
    CompareAt(s.lower, c.v / 10 * 10, c.k - 16, c.shift, c.k, 16);
    CompareAt(s.upper, c.v / 10 * 10 + 10, c.k - 16, c.shift, c.k, 16);
    CompareAt(c.target - c.m - 1, c.v, c.k - 16, c.shift, c.k, 16);
    CompareAt(c.target - c.m + 1, c.v, c.k - 16, c.shift, c.k, 16);
    PinnedIs(s, c.k - 16, c.v);
  }

  lemma TenToSixteen()
    ensures Pow(10, 16) == 1_0000_0000_0000_0000
  {
    SixteenDigits(1);
    TimesOne(Pow(10, 16));
  }

  /** The inequalities of a certificate in terms of hidden products. */
  lemma CertifiedTimes(c: Certificate)
    requires Certified(c)
    ensures 0 <= c.shift && 0 <= c.k && c.one == Pow(2, c.shift) && c.ten == Pow(10, c.k)
    ensures var unit, e16 := Times(c.ten, c.one), 1_0000_0000_0000_0000;
            && Times(c.v / 10 * 10, unit) < Times(c.target - c.a, e16)
            && Times(c.target + c.b, e16) < Times(c.v / 10 * 10 + 10, unit)
            && Times(c.target - c.a, e16) < Times(c.v, unit) <= Times(c.target + c.b, e16)
            && Times(2 * c.v - 1, unit) <= Times(2 * c.target, e16) < Times(2 * c.v + 1, unit)
            && (if c.misread then Times(c.v, unit) <= Times(c.target - c.m - 1, e16)
                else Times(c.target - c.m + 1, e16) <= Times(c.v, unit))
  {
    hide Pow;
    OddTimes(c.v, c.ten * c.one);
  }

  lemma PinnedIs(s: Interval, place: int, v: int)
    requires Below(s.lower, v, place, s.shift) && !Below(s.upper, v, place, s.shift)
    requires !Below(2 * s.target, 2 * v - 1, place, s.shift) && Below(2 * s.target, 2 * v + 1, place, s.shift)
    requires Above(s.lower, v / 10 * 10, place, s.shift) && Below(s.upper, v / 10 * 10 + 10, place, s.shift)
    ensures Pinned(s, place, v)
  {
    hide Below, Above;
  }

  ghost predicate PowerOfTen(x: int) {
    exists k :: 0 <= k <= 20 && x == Pow(10, k)
  }

  lemma NextPower(b: nat, k: nat)
    ensures Pow(b, k + 1) == b * Pow(b, k)
  {
  }

  /** The scaling factors that occur. */
  lemma PowersOfTwoThatOccur()
    ensures Pow(2, 32) == 0x1_0000_0000
    ensures Pow(2, 33) == 0x2_0000_0000
    ensures Pow(2, 34) == 0x4_0000_0000
    ensures Pow(2, 35) == 0x8_0000_0000
    ensures Pow(2, 36) == 0x10_0000_0000
    ensures Pow(2, 37) == 0x20_0000_0000
    ensures Pow(2, 38) == 0x40_0000_0000
    ensures Pow(2, 39) == 0x80_0000_0000
    ensures Pow(2, 40) == 0x100_0000_0000
    ensures Pow(2, 41) == 0x200_0000_0000
    ensures Pow(2, 42) == 0x400_0000_0000
    ensures Pow(2, 43) == 0x800_0000_0000
    ensures Pow(2, 44) == 0x1000_0000_0000
    ensures Pow(2, 45) == 0x2000_0000_0000
    ensures Pow(2, 46) == 0x4000_0000_0000
    ensures Pow(2, 47) == 0x8000_0000_0000
    ensures Pow(2, 48) == 0x1_0000_0000_0000
    ensures Pow(2, 49) == 0x2_0000_0000_0000
    ensures Pow(2, 50) == 0x4_0000_0000_0000
    ensures Pow(2, 51) == 0x8_0000_0000_0000
    ensures Pow(2, 52) == 0x10_0000_0000_0000
    ensures Pow(2, 53) == 0x20_0000_0000_0000
    ensures Pow(2, 54) == 0x40_0000_0000_0000
    ensures Pow(2, 55) == 0x80_0000_0000_0000
    ensures Pow(2, 56) == 0x100_0000_0000_0000
    ensures Pow(2, 57) == 0x200_0000_0000_0000
    ensures Pow(2, 58) == 0x400_0000_0000_0000
    ensures Pow(2, 59) == 0x800_0000_0000_0000
    ensures Pow(2, 60) == 0x1000_0000_0000_0000
  {
    PowersAtLimits();
    hide Pow;
    NextPower(2, 32); NextPower(2, 33); NextPower(2, 34); NextPower(2, 35); NextPower(2, 36); NextPower(2, 37);
    NextPower(2, 38); NextPower(2, 39); NextPower(2, 40); NextPower(2, 41); NextPower(2, 42); NextPower(2, 43);
    NextPower(2, 44); NextPower(2, 45); NextPower(2, 46); NextPower(2, 47); NextPower(2, 48); NextPower(2, 49);
    NextPower(2, 50); NextPower(2, 51); NextPower(2, 52); NextPower(2, 53); NextPower(2, 54); NextPower(2, 55);
    NextPower(2, 56); NextPower(2, 57); NextPower(2, 58); NextPower(2, 59);
  }

  lemma PowersOfTenThatOccur()
    ensures PowerOfTen(1)
    ensures PowerOfTen(10)
    ensures PowerOfTen(100)
    ensures PowerOfTen(1000)
    ensures PowerOfTen(1_0000)
    ensures PowerOfTen(10_0000)
    ensures PowerOfTen(100_0000)
    ensures PowerOfTen(1000_0000)
    ensures PowerOfTen(1_0000_0000)
    ensures PowerOfTen(10_0000_0000)
    ensures PowerOfTen(100_0000_0000)
    ensures PowerOfTen(1000_0000_0000)
    ensures PowerOfTen(1_0000_0000_0000)
    ensures PowerOfTen(10_0000_0000_0000)
    ensures PowerOfTen(100_0000_0000_0000)
    ensures PowerOfTen(1000_0000_0000_0000)
    ensures PowerOfTen(1_0000_0000_0000_0000)
    ensures PowerOfTen(10_0000_0000_0000_0000)
    ensures PowerOfTen(100_0000_0000_0000_0000)
    ensures PowerOfTen(1000_0000_0000_0000_0000)
    ensures PowerOfTen(1_0000_0000_0000_0000_0000)
  {
    assert Pow(10, 0) == 1;
    hide Pow;
    NextPower(10, 0); NextPower(10, 1); NextPower(10, 2); NextPower(10, 3); NextPower(10, 4); NextPower(10, 5);
    NextPower(10, 6); NextPower(10, 7); NextPower(10, 8); NextPower(10, 9); NextPower(10, 10);
    NextPower(10, 11); NextPower(10, 12); NextPower(10, 13); NextPower(10, 14); NextPower(10, 15);
    NextPower(10, 16); NextPower(10, 17); NextPower(10, 18); NextPower(10, 19);
  }

  /** The numbers are not a certificate. On literals this folds to a constant. */
  predicate Refuted(target: int, a: int, b: int, m: int, one: int, ten: int, v: int, misread: bool) {
    || (target - a) * 1_0000_0000_0000_0000 <= v / 10 * 10 * (ten * one)
    || (v / 10 * 10 + 10) * (ten * one) <= (target + b) * 1_0000_0000_0000_0000
    || v * (ten * one) <= (target - a) * 1_0000_0000_0000_0000
    || (target + b) * 1_0000_0000_0000_0000 < v * (ten * one)
    || 2 * (target * 1_0000_0000_0000_0000 - v * (ten * one)) < -(ten * one)
    || ten * one <= 2 * (target * 1_0000_0000_0000_0000 - v * (ten * one))
    || (if misread then (target - m - 1) * 1_0000_0000_0000_0000 < v * (ten * one)
        else v * (ten * one) < (target - m + 1) * 1_0000_0000_0000_0000)
  }

  /** The numbers are a certificate, if ten is a power of ten and one one of two. */
  ghost predicate Candidate(target: int, a: int, b: int, m: int, one: int, ten: int, misread: bool) {
    exists v :: !Refuted(target, a, b, m, one, ten, v, misread)
  }

  /** One row of the table of certificates: whether the power of two is misread. */
  function Power(target: int, a: int, b: int, m: int, one: int, ten: int, v: int, misread: bool): bool
    requires !Refuted(target, a, b, m, one, ten, v, misread)
    ensures Candidate(target, a, b, m, one, ten, misread)
  {
    misread
  }

  /** There is a certificate for these bounds. */
  ghost predicate Row(target: int, a: int, b: int, m: int, one: int, misread: bool) {
    exists ten :: PowerOfTen(ten) && Candidate(target, a, b, m, one, ten, misread)
  }

  lemma RowsHold()
    ensures forall target, a, b, m, one, ten, misread ::
      Candidate(target, a, b, m, one, ten, misread) && PowerOfTen(ten) ==> Row(target, a, b, m, one, misread)
  {
    hide PowerOfTen, Candidate;
  }

  lemma RowCertified(target: int, a: int, b: int, m: int, shift: nat, misread: bool) returns (c: Certificate)
    requires Row(target, a, b, m, Pow(2, shift), misread) && 32 <= shift <= 60
    ensures Certified(c) && c.target == target && c.a == a && c.b == b && c.m == m && c.shift == shift
    ensures c.misread == misread
  {
    hide Pow;
    var ten :| PowerOfTen(ten) && Candidate(target, a, b, m, Pow(2, shift), ten, misread);
    var v :| !Refuted(target, a, b, m, Pow(2, shift), ten, v, misread);
    var k :| 0 <= k <= 20 && ten == Pow(10, k);
    c := Certificate(target, a, b, m, shift, Pow(2, shift), k, ten, v, misread);
  }

  /** The bounds are not those of a cached power with significand f. On literals this folds. */
  predicate OtherBounds(f: int, target: int, a: int, b: int, m: int) {
    || 0x8000_0000_0000_0000 * f + 0x8000_0000_0000_0000 < target * 0x1_0000_0000_0000_0000
    || target * 0x1_0000_0000_0000_0000 + 0x1_0000_0000_0000_0000 <= 0x8000_0000_0000_0000 * f + 0x8000_0000_0000_0000
    || 0x7FFF_FFFF_FFFF_FC00 * f + 0x8000_0000_0000_0000 < (target - a - 1) * 0x1_0000_0000_0000_0000
    || (target - a - 1) * 0x1_0000_0000_0000_0000 + 0x1_0000_0000_0000_0000
        <= 0x7FFF_FFFF_FFFF_FC00 * f + 0x8000_0000_0000_0000
    || 0x8000_0000_0000_0400 * f + 0x8000_0000_0000_0000 < (target + b + 1) * 0x1_0000_0000_0000_0000
    || (target + b + 1) * 0x1_0000_0000_0000_0000 + 0x1_0000_0000_0000_0000
        <= 0x8000_0000_0000_0400 * f + 0x8000_0000_0000_0000
    || 0x7FFF_FFFF_FFFF_FE00 * f + 0x8000_0000_0000_0000 < (target - m) * 0x1_0000_0000_0000_0000
    || (target - m) * 0x1_0000_0000_0000_0000 + 0x1_0000_0000_0000_0000
        <= 0x7FFF_FFFF_FFFF_FE00 * f + 0x8000_0000_0000_0000
  }

  lemma BoundsHold(c: DiyFp, target: int, a: int, b: int, m: int)
    requires !OtherBounds(c.f, target, a, b, m)
    ensures BoundsOf(c, target, a, b, m)
  {
  }

  /** The certificate is for the cached power that grisu2 takes. */
  ghost predicate Fits(c: Certificate, be: nat) {
    && Certified(c)
    && forall i :: 0 <= i < SIZE && Picks(be - 1086, i) ==>
        BoundsOf(Entry(i), c.target, c.a, c.b, c.m) && c.shift == -(be - 1086 + Entry(i).e + 64)
  }

  ghost predicate Settled(be: nat, misread: bool) {
    exists c :: Fits(c, be) && c.misread == misread
  }

  lemma Settle(be: nat, i: int, first: nat, next: nat, target: int, a: int, b: int, m: int, misread: bool)
    requires 0 <= i < SIZE && first <= be < next
    requires var shift := -(be - 1086 + Entry(i).e + 64);
             32 <= shift <= 60 && Row(target, a, b, m, Pow(2, shift), misread)
    requires !OtherBounds(Entry(i).f, target, a, b, m)
    requires (1025 - first) * LOG <= Exponent10(i) * LOG_UNIT - LOG_ERROR
    requires (Exponent10(i) - 8) * LOG_UNIT + LOG_ERROR < (1026 - next) * LOG
    ensures Settled(be, misread)
  {
    hide OtherBounds, BoundsOf, Certified, Entry, Row, Pow;
    BoundsHold(Entry(i), target, a, b, m);
    var c := RowCertified(target, a, b, m, -(be - 1086 + Entry(i).e + 64), misread);
    forall j | 0 <= j < SIZE && Picks(be - 1086, j)
      ensures BoundsOf(Entry(j), c.target, c.a, c.b, c.m) && c.shift == -(be - 1086 + Entry(j).e + 64)
    {
      OnlyPick(be, i, j);
    }
    assert Fits(c, be);
  }

  lemma OnlyPick(be: nat, i: int, j: int)
    requires Picks(be - 1086, j)
    requires (Exponent10(i) - 8) * LOG_UNIT + LOG_ERROR < (1025 - be) * LOG <= Exponent10(i) * LOG_UNIT - LOG_ERROR
    ensures j == i
  {
  }

  /** A certificate decides what the digits round to: the double or its lower neighbour. */
  lemma Decides(bits: nat, run: Run, digits: string, c: Certificate)
    requires RunOf(bits, run, digits) && UnevenPower(bits) && Certified(c)
    requires BoundsOf(run.c, c.target, c.a, c.b, c.m) && c.shift == -(run.hi.e + run.c.e + 64)
    ensures AllDigits(digits) && RoundsTo(Denoted(digits, RunExponent(run)), if c.misread then bits - 1 else bits)
  {
    hide *;
    PowerShape(bits, run, digits);
    RunParts(bits, run, digits);
    var s, place, shift: int := Scale10(run.lo, run.mid, run.hi, run.c), c.k - 16, c.shift;
    var t := Two(-shift);
    var e, p, x := run.hi.e, run.p, Denoted(digits, RunExponent(run));
    BoundsAre(e, run.c, c);
    CertifiedPins(c, s);
    DigitsPinned(s, digits, run.kappa, place, c.v);
    PowerMoved(digits, RunExponent(run), p);
    DenotedIs(digits, run.kappa);
    DecimalValueIs(Num(digits), run.kappa);
    BelowAbove(c.target - c.m - 1, c.v, place, c.shift);
    BelowAbove(c.target - c.m + 1, c.v, place, c.shift);
    var middle := DiyFp(0x7FFF_FFFF_FFFF_FE00, e);
    MiddleScaled(middle, run.c, p, t);
    Cancel(middle.Value(), x, Ten(p));
    Cancel(x, middle.Value(), Ten(p));
    InsideBoundaries(bits, run, digits);
    BoundariesAreMidpoints(bits, run, digits);
    MiddleIsMidpoint(run, middle);
    SideDecides(x, bits);
  }

  lemma BoundsAre(e: int, c: DiyFp, cert: Certificate)
    requires BoundsOf(c, cert.target, cert.a, cert.b, cert.m) && cert.shift == -(e + c.e + 64)
    ensures Scale10(DiyFp(0x7FFF_FFFF_FFFF_FC00, e), DiyFp(0x8000_0000_0000_0000, e),
                    DiyFp(0x8000_0000_0000_0400, e), c)
         == Interval(cert.target - cert.a, cert.target, cert.target + cert.b, cert.shift)
    ensures Multiply(DiyFp(0x7FFF_FFFF_FFFF_FE00, e), c).f == cert.target - cert.m
  {
    hide Certified;
  }

  lemma MiddleScaled(middle: DiyFp, c: DiyFp, p: int, t: real)
    requires HalfUlp(c, p) && t == Two(middle.e + c.e + 64)
    ensures Product(middle.Value(), Ten(p)) < Product((Multiply(middle, c).f + 1) as real, t)
    ensures Product((Multiply(middle, c).f - 1) as real, t) < Product(middle.Value(), Ten(p))
  {
    hide *;
    BoundaryScaled(middle, c, p, t, 1);
    BoundaryScaled(middle, c, p, t, -1);
  }

  /** The midpoint is halfway between the two boundaries' lower half. */
  lemma MiddleIsMidpoint(run: Run, middle: DiyFp)
    requires run.lo.f == 0x7FFF_FFFF_FFFF_FC00 && middle.f == 0x7FFF_FFFF_FFFF_FE00 && run.hi.f == 0x8000_0000_0000_0400
    requires run.lo.e == middle.e == run.hi.e
    ensures 4.0 * middle.Value() == 3.0 * run.lo.Value() + run.hi.Value()
  {
    hide Scale;
  }

  /** Below the upper boundary, the side of the midpoint to the neighbour below decides. */
  lemma SideDecides(x: real, bits: nat)
    requires UnevenPower(bits) && bits < INFINITY
    requires Value(bits) - Ulp(bits) / 2.0 < x < Value(bits) + Ulp(bits) / 2.0
    ensures Value(bits) - Ulp(bits) / 4.0 < x ==> RoundsTo(x, bits)
    ensures x < Value(bits) - Ulp(bits) / 4.0 ==> RoundsTo(x, bits - 1)
  {
    hide Value, Ulp;
    Predecessor(bits);
    if Value(bits) - Ulp(bits) / 4.0 < x {
      BetweenMidpoints(x, bits);
    }
    if x < Value(bits) - Ulp(bits) / 4.0 {
      BetweenMidpoints(x, bits - 1);
    }
  }
}
