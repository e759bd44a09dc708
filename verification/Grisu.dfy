/** `grisu2` of src/grisu2.cpp: how far the generated decimal is from the double. */
module Grisu {
  import opened Powers
  import opened DiyFps
  import opened CachedPowers
  import opened Digits
  import opened DigitGeneration
  import opened Ieee
  import opened Boundaries

  /** The boundaries of one call, the approximation c of 10^p it took, and the place of its
      last digit. */
  datatype Run = Run(lo: DiyFp, mid: DiyFp, hi: DiyFp, c: DiyFp, p: int, kappa: int)

  /** The safe interval [lower, upper] around target, in units of 2^-shift. */
  datatype Interval = Interval(lower: int, target: int, upper: int, shift: int)

  function Scale10(lo: DiyFp, mid: DiyFp, hi: DiyFp, c: DiyFp): Interval {
    Interval(Multiply(lo, c).f + 1, Multiply(mid, c).f, Multiply(hi, c).f - 1, -Multiply(hi, c).e)
  }

  /** One call of grisu2: the digits are chosen from the safe interval of the double. */
  ghost predicate RunOf(bits: nat, run: Run, digits: string) {
    && Bounded(bits, run.lo, run.mid, run.hi)
    && Normalized(run.c) && HalfUlp(run.c, run.p)
    && var s := Scale10(run.lo, run.mid, run.hi, run.c);
       && 32 <= s.shift <= 60
       && Generated(s.upper, s.target, s.upper - s.lower, s.shift, digits, run.kappa)
  }

  /** The exponent K that goes with the digits. */
  function RunExponent(run: Run): int {
    run.kappa - run.p
  }

  /** The number the digits stand for. */
  ghost function Denoted(digits: string, k10: int): real
    requires AllDigits(digits)
  {
    DecimalValue(Num(digits), k10)
  }

  lemma RoundedProduct(x: DiyFp, c: DiyFp)
    ensures Multiply(x, c).f * 0x1_0000_0000_0000_0000 <= Times(x.f, c.f) + 0x8000_0000_0000_0000
    ensures Times(x.f, c.f) + 0x8000_0000_0000_0000 < (Multiply(x, c).f + 1) * 0x1_0000_0000_0000_0000
  {
    Rounding(x.f * c.f + TWO63);
  }

  lemma Rounding(n: int)
    ensures n / TWO64 * TWO64 <= n < (n / TWO64 + 1) * TWO64
  {
  }

  /** The shape of the safe interval, from the products m = mid * c and q = half * c. */
  lemma IntervalShape(m: int, q: int, low: int, lower: int, target: int, upper: int)
    requires 0x400 * TWO63 <= q && TWO63 * TWO63 <= m && 0 <= low && (low == m - q || 2 * low == 2 * m - q)
    requires if low == m - q then m + q <= (4 * HIDDEN - 1) * q else m + q == (2 * HIDDEN + 1) * q
    requires TWO64 * (lower - 1) <= low + TWO63 < TWO64 * lower
    requires TWO64 * target <= m + TWO63 < TWO64 * (target + 1)
    requires TWO64 * (upper + 1) <= m + q + TWO63 < TWO64 * (upper + 2)
    ensures 0 < lower <= target <= upper && 1 <= upper - lower
    ensures 0x1000_0000_0000_0000 <= upper && upper < 10000000000000000 * (upper - lower)
  {
  }

  lemma SafeInterval(bits: nat, lo: DiyFp, mid: DiyFp, hi: DiyFp, c: DiyFp, half: int)
    requires Aligned(bits, lo, mid, hi, half) && Normalized(c)
    ensures var s := Scale10(lo, mid, hi, c);
            && 0 < s.lower <= s.target <= s.upper < 0x1_0000_0000_0000_0000 && 1 <= s.upper - s.lower
            && 0x1000_0000_0000_0000 <= s.upper < Times(Pow(10, 16), s.upper - s.lower)
  {
    var s := Scale10(lo, mid, hi, c);
    RoundedProduct(lo, c);
    RoundedProduct(mid, c);
    RoundedProduct(hi, c);
    assert s.upper == Multiply(hi, c).f - 1 && s.lower == Multiply(lo, c).f + 1 && s.target == Multiply(mid, c).f;
    BoundaryProducts(lo.f, mid.f, hi.f, half, c.f, bits == HIDDEN);
    SixteenDigits(s.upper - s.lower);
    hide *;
    IntervalShape(Times(mid.f, c.f), Times(half, c.f), Times(lo.f, c.f), s.lower, s.target, s.upper);
  }

  lemma BoundaryProducts(lo: int, mid: int, hi: int, half: int, c: int, least: bool)
    requires 0x400 <= half && half % 2 == 0 && TWO63 <= mid && TWO63 <= c && 0 <= lo
    requires hi == mid + half && lo == mid - (if least then half / 2 else half)
    requires if least then hi == Times(2 * HIDDEN + 1, half) else hi <= Times(4 * HIDDEN - 1, half)
    ensures 0 <= Times(lo, c) && TWO63 * TWO63 <= Times(mid, c) && 0x400 * TWO63 <= Times(half, c)
    ensures Times(hi, c) == Times(mid, c) + Times(half, c)
    ensures if least then 2 * Times(lo, c) == 2 * Times(mid, c) - Times(half, c)
            else Times(lo, c) == Times(mid, c) - Times(half, c)
    ensures if least then Times(hi, c) == (2 * HIDDEN + 1) * Times(half, c)
            else Times(hi, c) <= (4 * HIDDEN - 1) * Times(half, c)
  {
    MulMonotone(0x400, half, c);
    MulMonotone(TWO63, mid, c);
    MulMonotone(0, lo, c);
    ProductShape(mid, half, c);
    if least {
      Assoc(2 * HIDDEN + 1, half, c);
    } else {
      MulMonotone(hi, (4 * HIDDEN - 1) * half, c);
      Assoc(4 * HIDDEN - 1, half, c);
    }
  }

  lemma ProductShape(mid: int, half: int, c: int)
    requires half % 2 == 0
    ensures (mid + half) * c == mid * c + half * c
    ensures (mid - half) * c == mid * c - half * c
    ensures 2 * ((mid - half / 2) * c) == 2 * (mid * c) - half * c
  {
    var h := half / 2;
    assert half == 2 * h;
    assert half * c == 2 * (h * c);
  }

  /** Half a unit of the cached power, carried over to the product. */
  lemma PowerError(f: real, c: real, tx: real, tc: real, t: real)
    requires 0.0 <= f && 0.0 < tx && -tc <= 2.0 * (Product(c, tc) - t) <= tc
    ensures -Product(f, Product(tx, tc)) <= 2.0 * (Product(Product(f, c), Product(tx, tc)) - Product(Product(f, tx), t))
    ensures 2.0 * (Product(Product(f, c), Product(tx, tc)) - Product(Product(f, tx), t)) <= Product(f, Product(tx, tc))
  {
    var a, d := f * tx, c * tc - t;
    assert 0.0 <= a;
    RealMonotone(-tc, 2.0 * d, a);
    RealMonotone(2.0 * d, tc, a);
    CrossTerms(f, c, tx, tc, t);
  }

  lemma CrossTerms(f: real, c: real, tx: real, tc: real, t: real)
    ensures tc * (f * tx) == f * (tx * tc)
    ensures (c * tc - t) * (f * tx) == (f * c) * (tx * tc) - (f * tx) * t
  {
    calc {
      (c * tc) * (f * tx);
      { RealAssoc(c, tc, f * tx); RealAssoc(tc, f, tx); }
      c * ((tc * f) * tx);
      { RealAssoc(f, tc, tx); }
      c * (f * (tx * tc));
      { RealAssoc(c, f, tx * tc); }
      (f * c) * (tx * tc);
    }
  }

  lemma RoundingError(m: real, g: real, u: real)
    requires 0.0 < u && -9223372036854775808.0 <= 18446744073709551616.0 * m - g <= 9223372036854775808.0
    ensures -(18446744073709551616.0 * u) <= 2.0 * (Product(m, 18446744073709551616.0 * u) - Product(g, u))
            <= 18446744073709551616.0 * u
  {
    hide Product;
    var d := 18446744073709551616.0 * m - g;
    ProductWithin(d, 9223372036854775808.0, u);
    ExpandProduct64(m, g, u);
    ProductWith(9223372036854775808.0, u);
  }

  lemma ProductWithin(d: real, k: real, u: real)
    requires -k <= d <= k && 0.0 < u
    ensures -Product(k, u) <= Product(d, u) <= Product(k, u)
  {
    RealMonotone(-k, d, u);
    RealMonotone(d, k, u);
  }

  lemma ExpandProduct64(m: real, g: real, u: real)
    ensures Product(18446744073709551616.0 * m - g, u) == Product(m, 18446744073709551616.0 * u) - Product(g, u)
  {
  }

  lemma ProductStrict(x: real, y: real, k: real)
    requires x < y && 0.0 < k
    ensures Product(x, k) < Product(y, k)
  {
    RealStrict(x, y, k);
  }

  lemma ProductPositive(x: real, y: real)
    requires 0.0 < x && 0.0 < y
    ensures 0.0 < Product(x, y)
  {
  }

  /** The error of the cached power and that of the rounded product, each half a unit. */
  lemma ErrorBound(f: real, c: real, m: real, tx: real, tc: real, t: real, unit: real)
    requires 0.0 <= f < 18446744073709551616.0 && 0.0 < tx && 0.0 < tc
    requires unit == 18446744073709551616.0 * Product(tx, tc)
    requires -tc <= 2.0 * (Product(c, tc) - t) <= tc
    requires -9223372036854775808.0 <= 18446744073709551616.0 * m - Product(f, c) <= 9223372036854775808.0
    ensures -unit < Product(m, unit) - Product(Product(f, tx), t) < unit
  {
    hide Product;
    var u := Product(tx, tc);
    ProductPositive(tx, tc);
    PowerError(f, c, tx, tc, t);
    ProductStrict(f, 18446744073709551616.0, u);
    ProductWith(18446744073709551616.0, u);
    RoundingError(m, Product(f, c), u);
  }

  /** Scaling a boundary by a cached power is off by less than one unit in the last place. */
  lemma ScaledWithinOneUlp(x: DiyFp, c: DiyFp, p: int)
    requires HalfUlp(c, p)
    ensures var unit := Two(x.e + c.e + 64);
            -unit < Product(Multiply(x, c).f as real, unit) - Product(x.Value(), Ten(p)) < unit
  {
    hide *;
    var m, f, g := Multiply(x, c).f, x.f as real, c.f as real;
    var tx, tc, t, unit := Two(x.e), Two(c.e), Ten(p), Two(x.e + c.e + 64);
    HalfUlpExpanded(x, c, p);
    RoundedProduct(x, c);
    RoundedProductAsReal(m, x.f, c.f);
    TwoTo64(x.e, c.e);
    ErrorBound(f, g, m as real, tx, tc, t, unit);
  }

  lemma HalfUlpExpanded(x: DiyFp, c: DiyFp, p: int)
    requires HalfUlp(c, p)
    ensures x.Value() == Product(x.f as real, Two(x.e))
    ensures -Two(c.e) <= 2.0 * (Product(c.f as real, Two(c.e)) - Ten(p)) <= Two(c.e)
    ensures 0.0 <= x.f as real < 18446744073709551616.0
  {
    hide Scale, Product;
  }

  lemma RoundedProductAsReal(m: int, f: int, c: int)
    requires m * 0x1_0000_0000_0000_0000 <= Times(f, c) + 0x8000_0000_0000_0000 < (m + 1) * 0x1_0000_0000_0000_0000
    ensures -9223372036854775808.0 <= 18446744073709551616.0 * (m as real) - Product(f as real, c as real)
            <= 9223372036854775808.0
  {
    ProductAsReal(f, c);
    assert 18446744073709551616.0 * (m as real) == (TWO64 * m) as real;
  }

  lemma TwoTo64(e: int, e': int)
    ensures Two(e + e' + 64) == 18446744073709551616.0 * Product(Two(e), Two(e'))
  {
    PowerOf64();
    ScaleIsPow(Binary, 64);
    hide Scale, Pow, Product;
    ScaleProduct(Binary, 64, e + e');
    ScaleProduct(Binary, e, e');
    ProductWith(18446744073709551616.0, Two(e + e'));
  }

  lemma ProductWith(x: real, y: real)
    ensures Product(x, y) == x * y
  {
  }

  /** The approximation is the table's, picked for the exponent of the upper boundary. */
  ghost predicate FromTable(run: Run, i: int) {
    0 <= i < SIZE && Picks(run.hi.e, i) && run.c == Entry(i) && run.p == Exponent10(i)
  }

  /** `grisu2`: at most 17 digits, chosen from the safe interval. */
  method Grisu2(bits: nat, buffer: array<char>) returns (len: nat, k10: int, ghost run: Run, ghost i: int)
    requires 0 < bits < INFINITY && 17 <= buffer.Length
    modifies buffer
    ensures 1 <= len <= 17 && -340 <= len + k10 <= 360
    ensures RunOf(bits, run, buffer[..len]) && k10 == RunExponent(run) && FromTable(run, i)
  {
    hide *;
    var w := Normalize(DoubleToDiy(bits));
    var wMinus, wPlus := NormalizedBoundaries(bits, w);
    ghost var half := BoundedIsAligned(bits, wMinus, w, wPlus);
    AlignedExponents(bits, wMinus, w, wPlus, half);
    var cMk: DiyFp, k0: int;
    cMk, k0, i := CachedPower(wPlus.e);
    ExponentRange(i);
    SafeInterval(bits, wMinus, w, wPlus, cMk, half);
    ScaledInterval(wMinus, w, wPlus, cMk);
    var W := Multiply(w, cMk);
    var Wp := Multiply(wPlus, cMk);
    var Wm := Multiply(wMinus, cMk);
    Wm := DiyFp(Wm.f + 1, Wm.e);
    Wp := DiyFp(Wp.f - 1, Wp.e);
    OneBounds(-Wp.e);
    len, k10 := DigitGen(W, Wp, Wp.f - Wm.f, buffer, k0, 16);
    run := Run(wMinus, w, wPlus, cMk, -k0, k10 - k0);
    RunRecorded(bits, run, buffer[..len], k0, k10);
    FromTableIs(run, i);
  }

  lemma FromTableIs(run: Run, i: int)
    requires 0 <= i < SIZE && Picks(run.hi.e, i) && run.c == Entry(i) && run.p == Exponent10(i)
    ensures FromTable(run, i)
  {
    hide Picks, Entry, Exponent10;
  }

  lemma AlignedExponents(bits: nat, lo: DiyFp, mid: DiyFp, hi: DiyFp, half: int)
    requires Aligned(bits, lo, mid, hi, half)
    ensures lo.e == mid.e == hi.e && -1137 <= hi.e <= 960
  {
  }

  lemma ScaledInterval(lo: DiyFp, mid: DiyFp, hi: DiyFp, c: DiyFp)
    ensures var s := Scale10(lo, mid, hi, c);
            && s.lower == Multiply(lo, c).f + 1 && s.target == Multiply(mid, c).f && s.upper == Multiply(hi, c).f - 1
            && s.shift == -Multiply(hi, c).e
  {
    hide Multiply;
  }

  lemma RunRecorded(bits: nat, run: Run, digits: string, k0: int, k10: int)
    requires Bounded(bits, run.lo, run.mid, run.hi) && Normalized(run.c) && HalfUlp(run.c, run.p)
    requires k0 == -run.p && run.kappa == k10 - k0
    requires var s := Scale10(run.lo, run.mid, run.hi, run.c);
             32 <= s.shift <= 60 && Generated(s.upper, s.target, s.upper - s.lower, s.shift, digits, run.kappa)
    ensures RunOf(bits, run, digits) && k10 == RunExponent(run)
  {
    hide Bounded, HalfUlp, Normalized, Generated, Scale10;
  }

  lemma ExponentRange(i: int)
    requires 0 <= i < SIZE
    ensures -348 <= Exponent10(i) <= 340
  {
  }

  lemma SixteenDigits(x: int)
    ensures Times(Pow(10, 16), x) == 10000000000000000 * x
  {
    assert FastPow(10, 16) == 10000000000000000;
    hide Pow, FastPow;
    FastPowIsPow(10, 16);
  }

  lemma Unscale(l: real, v: real, h: real, ten: real, up: real, down: real, two: real, one: real)
    requires Product(ten, down) == up && Product(two, one) == 1.0 && 0.0 < down && 0.0 < one
    requires Product(l, down) <= Product(v, Product(up, one)) <= Product(h, down)
    ensures Product(l, two) <= Product(v, ten) <= Product(h, two)
  {
    var k := down * one;
    assert 0.0 < k;
    Regroup(l, two, down, one);
    Regroup(h, two, down, one);
    assert (v * ten) * k == v * (up * one) by {
      RealAssoc(v, ten, k);
      RealAssoc(ten, down, one);
    }
    RealStrict(v * ten, l * two, k);
    RealStrict(h * two, v * ten, k);
  }

  lemma Regroup(l: real, two: real, down: real, one: real)
    requires two * one == 1.0
    ensures (l * two) * (down * one) == l * down
  {
    calc {
      (l * two) * (down * one);
      { RealAssoc(l, two, down * one); RealAssoc(down, two, one); RealAssoc(two, down, one); }
      l * (down * (two * one));
      l * down;
    }
  }

  /** The generated number lies in the safe interval, now as real numbers. */
  lemma GeneratedWithin(s: Interval, digits: string, kappa: int)
    requires 0 <= s.shift && Generated(s.upper, s.target, s.upper - s.lower, s.shift, digits, kappa)
    ensures Product(s.lower as real, Two(-s.shift)) <= Denoted(digits, kappa) <= Product(s.upper as real, Two(-s.shift))
  {
    hide *;
    var n, m := if kappa < 0 then 0 else kappa, if kappa < 0 then -kappa else 0;
    GeneratedRange(s, digits, kappa);
    var up, down, one, v := Pow(10, n), Pow(10, m), Pow(2, s.shift), Num(digits);
    PowPositive(10, m);
    PowPositive(2, s.shift);
    AsReals(s.lower, down, v, up, one, s.upper);
    TenShift(kappa, n, m);
    TwoShift(s.shift);
    Unscale(s.lower as real, v as real, s.upper as real, Ten(kappa), up as real, down as real,
            Two(-s.shift), one as real);
    DenotedIs(digits, kappa);
  }

  lemma DenotedIs(digits: string, k10: int)
    requires AllDigits(digits)
    ensures Denoted(digits, k10) == Product(Num(digits) as real, Ten(k10))
  {
  }

  lemma GeneratedRange(s: Interval, digits: string, kappa: int)
    requires 0 <= s.shift && Generated(s.upper, s.target, s.upper - s.lower, s.shift, digits, kappa)
    ensures var up, down := Pow(10, if kappa < 0 then 0 else kappa), Pow(10, if kappa < 0 then -kappa else 0);
            AllDigits(digits)
            && Times(s.lower, down) <= Times(Num(digits), Times(up, Pow(2, s.shift))) <= Times(s.upper, down)
  {
    hide Pow, Num, Scale, Times;
    Subtraction(s.upper, s.lower, Pow(10, if kappa < 0 then -kappa else 0));
  }

  lemma TenShift(kappa: int, n: nat, m: nat)
    requires kappa + m == n
    ensures Product(Ten(kappa), Pow(10, m) as real) == Pow(10, n) as real
  {
    hide Scale, Pow, Product;
    ScaleProduct(Decimal, kappa, m);
    ScaleIsPow(Decimal, n);
    ScaleIsPow(Decimal, m);
  }

  lemma TwoShift(n: nat)
    ensures Product(Two(0 - n), Pow(2, n) as real) == 1.0
  {
    ScaleZero(Binary);
    hide Scale, Pow, Product;
    ScaleProduct(Binary, 0 - n, n);
    ScaleIsPow(Binary, n);
  }

  lemma ScaleZero(b: Radix)
    ensures Scale(b, 0) == 1.0
  {
  }

  lemma Subtraction(x: int, y: int, k: int)
    ensures Times(x, k) - Times(x - y, k) == Times(y, k)
  {
  }

  lemma AsReals(l: int, down: int, v: int, up: int, one: int, h: int)
    requires Times(l, down) <= Times(v, Times(up, one)) <= Times(h, down)
    ensures Product(l as real, down as real) <= Product(v as real, Product(up as real, one as real))
    ensures Product(v as real, Product(up as real, one as real)) <= Product(h as real, down as real)
  {
    ProductAsReal(l, down);
    ProductAsReal(h, down);
    ProductAsReal(up, one);
    ProductAsReal(v, up * one);
  }

  /** The decimal lies strictly between the boundaries grisu2 computed. */
  lemma InsideBoundaries(bits: nat, run: Run, digits: string)
    requires RunOf(bits, run, digits)
    ensures AllDigits(digits)
    ensures run.lo.Value() < Denoted(digits, RunExponent(run)) < run.hi.Value()
  {
    hide *;
    RunParts(bits, run, digits);
    var c, p, k10 := run.c, run.p, RunExponent(run);
    var s := Scale10(run.lo, run.mid, run.hi, c);
    var unit, x := Two(-s.shift), Denoted(digits, k10);
    GeneratedWithin(s, digits, run.kappa);
    BoundaryScaled(run.lo, c, p, unit, 1);
    BoundaryScaled(run.hi, c, p, unit, -1);
    PowerMoved(digits, k10, p);
    Cancel(run.lo.Value(), x, Ten(p));
    Cancel(x, run.hi.Value(), Ten(p));
  }

  lemma PowerMoved(digits: string, k10: int, p: int)
    requires AllDigits(digits)
    ensures Product(Denoted(digits, k10), Ten(p)) == Denoted(digits, k10 + p)
  {
    hide Scale, Product, Num;
    ScaleProduct(Decimal, k10, p);
    MoveFactor(Num(digits) as real, Ten(k10), Ten(p));
  }

  /** One unit inwards is strictly inside the exact boundary. */
  lemma BoundaryScaled(x: DiyFp, c: DiyFp, p: int, unit: real, d: int)
    requires HalfUlp(c, p) && unit == Two(x.e + c.e + 64)
    ensures d == 1 ==> Product(x.Value(), Ten(p)) < Product((Multiply(x, c).f + d) as real, unit)
    ensures d == -1 ==> Product((Multiply(x, c).f + d) as real, unit) < Product(x.Value(), Ten(p))
  {
    hide *;
    ScaledWithinOneUlp(x, c, p);
    OneMore(Multiply(x, c).f, d, unit);
  }

  lemma RunParts(bits: nat, run: Run, digits: string)
    requires RunOf(bits, run, digits)
    ensures AllDigits(digits) && run.lo.e == run.hi.e && HalfUlp(run.c, run.p)
    ensures RunExponent(run) + run.p == run.kappa
    ensures var s := Scale10(run.lo, run.mid, run.hi, run.c);
            && 32 <= s.shift && Generated(s.upper, s.target, s.upper - s.lower, s.shift, digits, run.kappa)
            && -s.shift == run.lo.e + run.c.e + 64
            && s.lower == Multiply(run.lo, run.c).f + 1 && s.upper == Multiply(run.hi, run.c).f + -1
  {
    hide *;
    RunOfParts(bits, run, digits);
    SameExponent(bits, run.lo, run.mid, run.hi);
    ScaledInterval(run.lo, run.mid, run.hi, run.c);
    GeneratedDigits(Scale10(run.lo, run.mid, run.hi, run.c), digits, run.kappa);
  }

  lemma SameExponent(bits: nat, lo: DiyFp, mid: DiyFp, hi: DiyFp)
    requires Bounded(bits, lo, mid, hi)
    ensures lo.e == hi.e
  {
    hide ShiftOf, Normalized, DoubleToDiy;
  }

  lemma RunOfParts(bits: nat, run: Run, digits: string)
    requires RunOf(bits, run, digits)
    ensures Bounded(bits, run.lo, run.mid, run.hi) && Normalized(run.c) && HalfUlp(run.c, run.p)
    ensures var s := Scale10(run.lo, run.mid, run.hi, run.c);
            32 <= s.shift <= 60 && Generated(s.upper, s.target, s.upper - s.lower, s.shift, digits, run.kappa)
    ensures RunExponent(run) + run.p == run.kappa
  {
    hide Bounded, HalfUlp, Normalized, Generated, Scale10;
  }

  lemma GeneratedDigits(s: Interval, digits: string, kappa: int)
    requires 0 <= s.shift && Generated(s.upper, s.target, s.upper - s.lower, s.shift, digits, kappa)
    ensures AllDigits(digits)
  {
  }

  lemma OneMore(m: int, d: int, unit: real)
    ensures Product((m + d) as real, unit) == Product(m as real, unit) + (d as real) * unit
  {
  }

  lemma MoveFactor(v: real, a: real, b: real)
    ensures Product(Product(v, a), b) == Product(v, Product(a, b))
  {
    RealAssoc(v, a, b);
  }

  lemma Cancel(x: real, y: real, k: real)
    requires 0.0 < k
    ensures Product(x, k) < Product(y, k) ==> x < y
  {
    RealStrict(x, y, k);
  }

  /** Every double but the exact powers of two with biased exponent 2 or more is read back
      from its digits by round-to-nearest, without even a tie. */
  lemma ReadsBack(bits: nat, run: Run, digits: string)
    requires RunOf(bits, run, digits) && !UnevenPower(bits)
    ensures AllDigits(digits) && RoundsTo(Denoted(digits, RunExponent(run)), bits)
  {
    hide *;
    InsideBoundaries(bits, run, digits);
    BoundariesAreMidpoints(bits, run, digits);
    BetweenMidpoints(Denoted(digits, RunExponent(run)), bits);
  }

  /** The computed boundaries: the upper one is the midpoint to the next double, the lower one
      the midpoint to the previous, were that as far away; for the least normal double half
      way closer. */
  lemma BoundariesAreMidpoints(bits: nat, run: Run, digits: string)
    requires RunOf(bits, run, digits)
    ensures 0 < bits < INFINITY
    ensures run.hi.Value() == Value(bits) + Ulp(bits) / 2.0
    ensures run.lo.Value() == Value(bits) - Ulp(bits) / (if bits == HIDDEN then 4.0 else 2.0)
    ensures !UnevenPower(bits) ==> Ulp(bits - 1) == Ulp(bits)
  {
    var half := BoundedIsAligned(bits, run.lo, run.mid, run.hi);
    ShiftKeepsValue(run.mid, DoubleToDiy(bits));
    Predecessor(bits);
    hide *;
    SumOfValues(bits, run.lo, run.mid, run.hi, half);
  }

  lemma SumOfValues(bits: nat, lo: DiyFp, mid: DiyFp, hi: DiyFp, half: int)
    requires Aligned(bits, lo, mid, hi, half)
    ensures hi.Value() == mid.Value() + Ulp(bits) / 2.0
    ensures lo.Value() == mid.Value() - Ulp(bits) / (if bits == HIDDEN then 4.0 else 2.0)
  {
    hide Scale, Ulp, Normalized;
    ProductSum(mid.f, half, Two(hi.e));
    ProductSum(mid.f, -half, Two(hi.e));
    ProductSum(mid.f, -(half / 2), Two(hi.e));
    ProductHalf(half, Two(hi.e));
    ProductNegated(half, Two(hi.e));
    ProductNegated(half / 2, Two(hi.e));
    hide Product;
  }

  lemma ProductSum(x: int, y: int, u: real)
    ensures Product((x + y) as real, u) == Product(x as real, u) + Product(y as real, u)
  {
  }

  lemma ProductNegated(x: int, u: real)
    ensures Product((-x) as real, u) == -Product(x as real, u)
  {
  }

  lemma ProductHalf(x: int, u: real)
    requires x % 2 == 0
    ensures Product((x / 2) as real, u) == Product(x as real, u) / 2.0
  {
    assert x as real == 2.0 * ((x / 2) as real);
  }
}
