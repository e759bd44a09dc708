/** The digits of src/grisu2.cpp are, at their last place, as close to the double as the scaled
    arithmetic can tell. */
module ClosestDecimals {
  import opened Powers
  import opened DiyFps
  import opened Digits
  import opened DigitGeneration
  import opened CachedPowers
  import opened Ieee
  import opened Boundaries
  import opened Grisu
  import opened PowersOfTwo

  /** Closer or equally close, without absolute values. */
  lemma GapHalves(t: int, v: int, z: int)
    requires Gap(t, v) <= Gap(t, z)
    ensures (v < z ==> 2 * t <= v + z) && (z < v ==> v + z <= 2 * t)
  {
  }

  lemma ChosenHalves(hi: int, width: int, target: int, unit: int, v: int, z: int)
    requires Chosen(hi, width, target, unit, v) && hi - width <= Times(z, unit) <= hi && 0 < unit
    ensures v < z ==> Times(2, target) <= Times(v + z, unit)
    ensures z < v ==> Times(v + z, unit) <= Times(2, target)
  {
    if v < z { TimesBeyond(v, z, unit); }
    if z < v { TimesBeyond(z, v, unit); }
    SumTimes(v, z, unit);
    GapHalves(target, Times(v, unit), Times(z, unit));
    hide Chosen;
  }

  lemma SumTimes(v: int, z: int, unit: int)
    ensures Times(v + z, unit) == Times(v, unit) + Times(z, unit) && Times(2, unit) == 2 * unit
  {
  }

  lemma DoubledFirst(x: int, y: int)
    ensures Times(2, Times(x, y)) == Times(2 * x, y)
  {
  }

  /** Any other multiple of the last place in the safe interval. */
  ghost predicate Candidate10(s: Interval, kappa: int, z: int) {
    !Above(s.lower, z, kappa, s.shift) && !Below(s.upper, z, kappa, s.shift)
  }

  lemma CandidateIn(s: Interval, kappa: int, z: int)
    requires 0 <= s.shift && Candidate10(s, kappa, z)
    ensures var up, down := Pow(10, if kappa < 0 then 0 else kappa), Pow(10, if kappa < 0 then -kappa else 0);
            Times(s.lower, down) <= Times(z, Times(up, Pow(2, s.shift))) <= Times(s.upper, down)
  {
    hide Pow, Times, Above, Below;
    Compare(s.lower, z, kappa, s.shift);
    Compare(s.upper, z, kappa, s.shift);
  }

  lemma GeneratedHalves(s: Interval, digits: string, kappa: int, z: int)
    requires 0 <= s.shift && Generated(s.upper, s.target, s.upper - s.lower, s.shift, digits, kappa)
    requires Candidate10(s, kappa, z)
    ensures AllDigits(digits)
    ensures Num(digits) < z ==> !Above(2 * s.target, Num(digits) + z, kappa, s.shift)
    ensures z < Num(digits) ==> !Below(2 * s.target, Num(digits) + z, kappa, s.shift)
  {
    CandidateIn(s, kappa, z);
    Compare(2 * s.target, Num(digits) + z, kappa, s.shift);
    var up, down := Pow(10, if kappa < 0 then 0 else kappa), Pow(10, if kappa < 0 then -kappa else 0);
    Subtraction(s.upper, s.lower, down);
    DoubledFirst(s.target, down);
    PowPositive(10, if kappa < 0 then 0 else kappa);
    PowPositive(2, s.shift);
    hide Pow, Times, Above, Below, Num, Chosen, Candidate10, FractionStop;
    PositiveTimes(up, Pow(2, s.shift));
    ChosenHalves(Times(s.upper, down), Times(s.upper - s.lower, down), Times(s.target, down),
                 Times(up, Pow(2, s.shift)), Num(digits), z);
  }

  lemma PositiveTimes(x: int, y: int)
    requires 0 < x && 0 < y
    ensures 0 < Times(x, y)
  {
    MulStrict(0, x, y);
  }

  /** Both decimals against the exact double, where the target is within t of it. */
  lemma CloserWithin(xv: real, xz: real, target: real, y: real, t: real)
    requires -t <= target - y <= t
    requires (xv < xz ==> 2.0 * target <= xv + xz) && (xz < xv ==> xv + xz <= 2.0 * target)
    ensures Distance(xv, y) <= Distance(xz, y) + 2.0 * t
  {
  }

  lemma DoubledReal(x: int, t: real, v: int, z: int, k: real)
    ensures Product((2 * x) as real, t) == 2.0 * Product(x as real, t)
    ensures Product((v + z) as real, k) == Product(v as real, k) + Product(z as real, k)
  {
  }

  /** In scaled numbers. */
  lemma ScaledCloser(s: Interval, digits: string, kappa: int, z: int, y: real)
    requires 0 <= s.shift && Generated(s.upper, s.target, s.upper - s.lower, s.shift, digits, kappa)
    requires Candidate10(s, kappa, z)
    requires var t := Two(-s.shift); -t <= Product(s.target as real, t) - y <= t
    ensures AllDigits(digits)
    ensures Distance(Product(Num(digits) as real, Ten(kappa)), y)
         <= Distance(Product(z as real, Ten(kappa)), y) + 2.0 * Two(-s.shift)
  {
    hide *;
    GeneratedHalves(s, digits, kappa, z);
    var v, t := Num(digits), Two(-s.shift);
    BelowAbove(2 * s.target, v + z, kappa, s.shift);
    DoubledReal(s.target, t, v, z, Ten(kappa));
    TenPositive(kappa);
    InOrder(v, z, Ten(kappa));
    CloserWithin(Product(v as real, Ten(kappa)), Product(z as real, Ten(kappa)), Product(s.target as real, t), y, t);
  }

  lemma TenPositive(k: int)
    ensures 0.0 < Ten(k)
  {
  }

  lemma InOrder(v: int, z: int, k: real)
    requires 0.0 < k
    ensures Product(v as real, k) < Product(z as real, k) <==> v < z
    ensures Product(z as real, k) < Product(v as real, k) <==> z < v
  {
    RealStrict(v as real, z as real, k);
    RealStrict(z as real, v as real, k);
  }

  /** The target is the double, scaled, to within a unit. */
  lemma TargetIsNear(bits: nat, run: Run, digits: string)
    requires RunOf(bits, run, digits)
    ensures bits < INFINITY
    ensures var s := Scale10(run.lo, run.mid, run.hi, run.c); var t := Two(-s.shift);
            -t <= Product(s.target as real, t) - Product(Value(bits), Ten(run.p)) <= t
  {
    hide *;
    RunParts(bits, run, digits);
    RunOfParts(bits, run, digits);
    MidIsValue(bits, run.lo, run.mid, run.hi);
    ScaledInterval(run.lo, run.mid, run.hi, run.c);
    ScaledWithinOneUlp(run.mid, run.c, run.p);
  }

  lemma MidIsValue(bits: nat, lo: DiyFp, mid: DiyFp, hi: DiyFp)
    requires Bounded(bits, lo, mid, hi)
    ensures bits < INFINITY && mid.Value() == Value(bits) && mid.e == lo.e
  {
    var half := BoundedIsAligned(bits, lo, mid, hi);
    ShiftKeepsValue(mid, DoubleToDiy(bits));
    hide Scale;
  }
}
