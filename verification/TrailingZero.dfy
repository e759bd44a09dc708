/** When the digits of src/grisu2.cpp end in a zero that stands for nothing: the second phase of the
    digit generator does not stop at a decimal that is the lower end of the safe interval, and one
    place further on the rounding may come back to it. */
module TrailingZeros {
  import opened Powers
  import opened DiyFps
  import opened Digits
  import opened DigitGeneration
  import opened Grisu

  /** The lower end of the interval is a decimal with j - 1 places behind the point, and not a whole
      number. The interval is less than a unit of that place wide and at least a tenth of it, and the
      target is less than a twentieth of it above the lower end. */
  ghost predicate ZeroAt(s: Interval, j: nat)
    requires 0 <= s.shift
  {
    var one := Pow(2, s.shift);
    && 2 <= j && Fractional(s.lower, s.shift) != 0 && (exists z :: Times(s.lower, Pow(10, j - 1)) == Times(z, one))
    && Times(s.upper - s.lower, Pow(10, j - 1)) < one <= Times(s.upper - s.lower, Pow(10, j))
    && 2 * Times(s.target - s.lower, Pow(10, j)) < one
  }

  ghost predicate EndsInZero(s: Interval)
    requires 0 <= s.shift
  {
    exists j: nat :: ZeroAt(s, j)
  }

  /** A multiple of ten that is chosen is the lower end. */
  lemma ZeroIsLowerEnd(hi: int, width: int, target: int, unit: int, v: int, top: int)
    requires Chosen(hi, width, target, unit, v) && v % 10 == 0 && 0 < unit && hi - width <= target
    requires hi - width < Times(top, unit) <= hi
    ensures Times(v, unit) == hi - width && unit <= width < 10 * unit && 2 * (target - (hi - width)) < unit
  {
    var z := v / 10;
    TenTimesUnit(z, unit);
    TenTimesUnit(z + 1, unit);
    TimesStep(v, unit);
    assert Times(10 * z + 10, unit) == Times(v, unit) + 10 * unit;
    if top <= v { MulMonotone(top, v, unit); }
    MulMonotone(v + 1, top, unit);
    hide Times;
    assert Times(z, 10 * unit) <= hi;
    assert v < top;
    assert Times(v + 1, unit) <= hi;
  }

  lemma TenTimesUnit(z: int, unit: int)
    ensures Times(z, 10 * unit) == Times(10 * z, unit)
  {
  }

  /** The other way round: the lower end, if it is a multiple of ten close to the target, is chosen. */
  lemma LowerEndIsChosen(hi: int, width: int, target: int, unit: int, v: int, w: int)
    requires Chosen(hi, width, target, unit, v) && 0 < unit && 0 <= width
    requires Times(w, unit) == hi - width <= target && 2 * (target - (hi - width)) < unit
    ensures v == w
  {
    assert Gap(target, Times(v, unit)) <= Gap(target, Times(w, unit));
    if v < w { TimesBeyond(v, w, unit); }
    if w < v { TimesBeyond(w, v, unit); }
    hide Times, Chosen;
  }

  /** No whole number in the interval: then the lower end is none. */
  lemma NotWhole(lower: int, upper: int, sh: nat)
    requires lower <= upper && upper - lower < Fractional(upper, sh)
    ensures Fractional(lower, sh) != 0
  {
    var one := Pow(2, sh);
    PowPositive(2, sh);
    hide Pow;
    var q, r := upper / one, lower / one;
    assert upper == q * one + upper % one;
    if lower % one == 0 {
      assert lower == r * one;
      if q < r { MulMonotone(q + 1, r, one); }
      MulMonotone(r, q, one);
      assert false;
    }
  }

  lemma WholeIs(lower: int, sh: nat, u: int)
    requires lower == Times(u, Pow(2, sh))
    ensures Fractional(lower, sh) == 0
  {
    PowPositive(2, sh);
    MultipleOf(u, Pow(2, sh));
  }

  lemma MultipleOf(u: int, one: int)
    requires 0 < one
    ensures u * one % one == 0
  {
    var q, r := u * one / one, u * one % one;
    assert u * one == q * one + r;
    assert (u - q) * one == r;
    if u - q >= 1 { MulMonotone(1, u - q, one); }
    if u - q <= -1 { MulMonotone(u - q, -1, one); }
  }

  // ---------------------------------------------------------------- a zero at the end

  lemma ScaledUp(x: int, k: nat)
    ensures Times(x, Pow(10, k + 1)) == 10 * Times(x, Pow(10, k)) && Times(x, Pow(10, 0)) == x
    ensures 0 < Pow(10, k) && (0 <= x ==> 0 <= Times(x, Pow(10, k)))
  {
    PowPositive(10, k);
    assert Pow(10, k + 1) == 10 * Pow(10, k) && Pow(10, 0) == 1;
    hide Pow;
    Assoc(x, 10, Pow(10, k));
    if 0 <= x { MulMonotone(0, x, Pow(10, k)); }
    Swap(x, Pow(10, k));
  }

  lemma Swap(x: int, p: int)
    ensures Times(x, 10 * p) == 10 * Times(x, p)
  {
  }

  /** The widths and distances at one scale. */
  lemma ScaledInterval10(s: Interval, k: nat)
    ensures var down := Pow(10, k);
            && Times(s.upper, down) - Times(s.upper - s.lower, down) == Times(s.lower, down)
            && Times(s.target, down) - Times(s.lower, down) == Times(s.target - s.lower, down)
  {
    hide Pow;
    Subtraction(s.upper, s.lower, Pow(10, k));
    Subtraction(s.target, s.target - s.lower, Pow(10, k));
  }

  ghost predicate Made(s: Interval, digits: string, kappa: int) {
    && 0 <= s.shift && s.lower <= s.target <= s.upper
    && Generated(s.upper, s.target, s.upper - s.lower, s.shift, digits, kappa)
  }

  /** What generation in the second phase gives, at the scale of its last digit. */
  lemma SecondPhase(s: Interval, digits: string, k: nat) returns (top: int)
    requires Made(s, digits, 0 - k) && 0 < k
    ensures AllDigits(digits) && s.upper - s.lower < Fractional(s.upper, s.shift)
    ensures var down, one := Pow(10, k), Pow(2, s.shift);
            && Chosen(Times(s.upper, down), Times(s.upper - s.lower, down), Times(s.target, down), Times(1, one),
                      Num(digits))
            && Times(s.lower, down) < Times(top, one) <= Times(s.upper, down)
  {
    assert Pow(10, 0) == 1;
    hide Chosen, Times, Fractional, Num;
    assert s.upper - (s.upper - s.lower) == s.lower;
    top :| Times(s.lower, Pow(10, k)) < Times(top, Pow(2, s.shift)) <= Times(s.upper, Pow(10, k));
  }

  lemma FirstPhase(s: Interval, digits: string, kappa: nat)
    requires Made(s, digits, kappa)
    ensures AllDigits(digits) && Num(digits) % 10 != 0
    ensures s.lower <= Times(Num(digits), Times(Pow(10, kappa), Pow(2, s.shift))) <= s.upper
  {
    GeneratedRange(s, digits, kappa);
    assert Pow(10, 0) == 1;
    hide Num, Chosen, Fractional;
  }

  /** In units of the last digit and of the one before. */
  lemma TenthOfEnd(lower: int, lower1: int, width: int, width1: int, one: int, v: int)
    requires lower == 10 * lower1 && width == 10 * width1 && Times(v, one) == lower && width < 10 * one && v % 10 == 0
    ensures lower1 == Times(v / 10, one) && width1 < one
  {
    TenTimesUnit(v / 10, one);
    Swap(v / 10, one);
    hide Times;
    assert 10 * (v / 10) == v;
  }

  /** The forward half: a zero at the end means that the lower end was met. */
  lemma ZeroMeetsEnd(s: Interval, digits: string, k: nat)
    requires Made(s, digits, 0 - k) && 0 < k && AllDigits(digits) && Num(digits) % 10 == 0
    ensures ZeroAt(s, k) && Times(Num(digits), Pow(2, s.shift)) == Times(s.lower, Pow(10, k))
  {
    hide *;
    MadeOrder(s, digits, 0 - k);
    var top := SecondPhase(s, digits, k);
    var one, v, down := Pow(2, s.shift), Num(digits), Pow(10, k);
    PowPositive(2, s.shift);
    ScaledInterval10(s, k);
    ScaledUp(s.lower, k - 1);
    ScaledUp(s.upper - s.lower, k - 1);
    ScaledUp(s.target - s.lower, k);
    TimesOneIs(one);
    ZeroIsLowerEnd(Times(s.upper, down), Times(s.upper - s.lower, down), Times(s.target, down), one, v, top);
    TenthOfEnd(Times(s.lower, down), Times(s.lower, Pow(10, k - 1)),
               Times(s.upper - s.lower, down), Times(s.upper - s.lower, Pow(10, k - 1)), one, v);
    NotWhole(s.lower, s.upper, s.shift);
    if k == 1 {
      ScaledUp(s.lower, 0);
      WholeIs(s.lower, s.shift, v / 10);
    }
    IsZeroAt(s, k, v / 10);
  }

  lemma MadeOrder(s: Interval, digits: string, kappa: int)
    requires Made(s, digits, kappa)
    ensures 0 <= s.shift && s.lower <= s.target <= s.upper
  {
  }

  lemma IsZeroAt(s: Interval, j: nat, z: int)
    requires 0 <= s.shift && 2 <= j && Fractional(s.lower, s.shift) != 0
    requires var one := Pow(2, s.shift);
             && Times(s.lower, Pow(10, j - 1)) == Times(z, one)
             && Times(s.upper - s.lower, Pow(10, j - 1)) < one <= Times(s.upper - s.lower, Pow(10, j))
             && 2 * Times(s.target - s.lower, Pow(10, j)) < one
    ensures ZeroAt(s, j)
  {
    hide Pow, Times, Fractional;
  }

  lemma TimesOneIs(one: int)
    ensures Times(1, one) == one
  {
  }

  lemma ScaledMore(x: int, k: nat, i: nat)
    ensures Times(x, Pow(10, k + i)) == Times(Times(x, Pow(10, k)), Pow(10, i))
  {
    PowAdd(10, k, i);
    hide Pow;
    Assoc(x, Pow(10, k), Pow(10, i));
  }

  /** Less than a unit above a multiple there is no other one. */
  lemma OnlyMultiple(z: int, t: int, one: int, x: int)
    requires 0 < one && Times(z, one) <= x < Times(z, one) + one && Times(t, one) == x
    ensures t == z
  {
    if z < t { MulMonotone(z + 1, t, one); }
    if t < z { MulMonotone(t + 1, z, one); }
  }

  lemma Reorder(t: int, one: int, p: int)
    ensures Times(Times(t, one), p) == Times(Times(t, p), one)
  {
    Assoc(t, one, p);
    Assoc(t, p, one);
  }

  lemma Between(a: int, b: int, c: int, p: int)
    requires a <= b <= c && 0 < p
    ensures Times(a, p) <= Times(b, p) <= Times(c, p)
    ensures a < b ==> Times(a, p) < Times(b, p)
    ensures Times(a, p) == Times(b, p) ==> a == b
  {
    MulMonotone(a, b, p);
    MulMonotone(b, c, p);
    if a < b { MulStrict(a, b, p); }
  }

  /** A multiple of the unit in the interval, seen p times larger, is the lower end. */
  lemma OnlyTheEnd(lower: int, upper: int, u: int, one: int, p: int, z: int)
    requires lower <= Times(u, one) <= upper && 0 < p && 0 < one
    requires Times(lower, p) == Times(z, one) && Times(upper, p) < Times(z, one) + one
    ensures Times(u, one) == lower
  {
    Between(lower, Times(u, one), upper, p);
    Reorder(u, one, p);
    OnlyMultiple(z, Times(u, p), one, Times(Times(u, one), p));
    hide Times;
  }

  /** The interval of ZeroAt, at the scale of the lower end's last place. */
  lemma EndScaled(s: Interval, j: nat) returns (z: int)
    requires 0 <= s.shift && ZeroAt(s, j)
    ensures 2 <= j && Fractional(s.lower, s.shift) != 0
    ensures var one, p, q := Pow(2, s.shift), Pow(10, j - 1), Pow(10, j);
            && 0 < one && 0 < p && Times(s.lower, p) == Times(z, one) && Times(s.upper, p) < Times(z, one) + one
            && Times(s.lower, q) == Times(10 * z, one) && Times(10 * z + 1, one) <= Times(s.upper, q)
            && Times(s.upper - s.lower, q) == Times(s.upper, q) - Times(s.lower, q)
            && 2 * (Times(s.target, q) - Times(s.lower, q)) < one
  {
    PowPositive(2, s.shift);
    PowPositive(10, j - 1);
    ScaledInterval10(s, j - 1);
    ScaledInterval10(s, j);
    ScaledUp(s.lower, j - 1);
    hide Pow, Fractional;
    z :| Times(s.lower, Pow(10, j - 1)) == Times(z, Pow(2, s.shift));
    TenTimesUnit(z, Pow(2, s.shift));
    Swap(z, Pow(2, s.shift));
    TimesStep(10 * z, Pow(2, s.shift));
  }

  lemma NotInFirstPhase(s: Interval, digits: string, kappa: int, j: nat)
    requires 0 <= s.shift && Made(s, digits, kappa) && ZeroAt(s, j)
    ensures kappa < 0
  {
    hide *;
    if 0 <= kappa {
      FirstPhase(s, digits, kappa);
      var z := EndScaled(s, j);
      var one, v := Pow(2, s.shift), Num(digits);
      var u := Times(v, Pow(10, kappa));
      Regrouped(v, Pow(10, kappa), one);
      OnlyTheEnd(s.lower, s.upper, u, one, Pow(10, j - 1), z);
      WholeIs(s.lower, s.shift, u);
      assert false;
    }
  }

  lemma Regrouped(v: int, p: int, one: int)
    ensures Times(v, Times(p, one)) == Times(Times(v, p), one)
  {
    Assoc(v, p, one);
  }

  lemma NotEarlier(s: Interval, digits: string, k: nat, j: nat)
    requires Made(s, digits, 0 - k) && ZeroAt(s, j) && 0 < k
    ensures j <= k
  {
    if k < j {
      hide *;
      MadeOrder(s, digits, 0 - k);
      var top := SecondPhase(s, digits, k);
      var z := EndScaled(s, j);
      var one, p := Pow(2, s.shift), Pow(10, j - 1 - k);
      PowPositive(10, j - 1 - k);
      ScaledMore(s.lower, k, j - 1 - k);
      ScaledMore(s.upper, k, j - 1 - k);
      OnlyTheEnd(Times(s.lower, Pow(10, k)), Times(s.upper, Pow(10, k)), top, one, p, z);
      assert false;
    }
  }

  lemma NotLater(s: Interval, digits: string, k: nat, j: nat)
    requires Made(s, digits, 0 - k) && ZeroAt(s, j) && 0 < k
    ensures k <= j
  {
    if j < k {
      hide *;
      MadeOrder(s, digits, 0 - k);
      var top := SecondPhase(s, digits, k);
      var z := EndScaled(s, j);
      var one, q := Pow(2, s.shift), Pow(10, k - j);
      PowPositive(10, k - j);
      ScaledUp(10 * z + 1, k - j - 1);
      var m := Times(10 * z + 1, Pow(10, k - j - 1));
      ScaledMore(s.lower, j, k - j);
      ScaledMore(s.upper, j, k - j);
      Reorder(10 * z, one, q);
      Reorder(10 * z + 1, one, q);
      TimesStep(10 * z, one);
      Between(Times(10 * z, one), Times(10 * z + 1, one), Times(s.upper, Pow(10, j)), q);
      TenTimesUnit(m, one);
      TimesOneIs(one);
      ScaledInterval10(s, k);
      NoMultipleInside(Times(s.upper, Pow(10, k)), Times(s.upper - s.lower, Pow(10, k)), Times(s.target, Pow(10, k)),
                       one, Num(digits), m);
      assert false;
    }
  }

  lemma NoMultipleInside(hi: int, width: int, target: int, unit: int, v: int, m: int)
    requires Chosen(hi, width, target, unit, v)
    ensures Times(m, 10 * unit) <= hi ==> Times(m, 10 * unit) <= hi - width
  {
    hide Times;
  }

  lemma LastDigitIs(digits: string)
    requires AllDigits(digits) && digits != []
    ensures EndsWithZero(digits) <==> Num(digits) % 10 == 0
  {
  }

  lemma MadeDigits(s: Interval, digits: string, kappa: int)
    requires Made(s, digits, kappa)
    ensures digits != [] && AllDigits(digits) && digits[0] != '0'
  {
  }

  /** The backward half. */
  lemma EndMakesZero(s: Interval, digits: string, kappa: int, j: nat)
    requires 0 <= s.shift && Made(s, digits, kappa) && ZeroAt(s, j)
    ensures kappa + j == 0 && EndsWithZero(digits)
  {
    hide *;
    MadeOrder(s, digits, kappa);
    MadeDigits(s, digits, kappa);
    NotInFirstPhase(s, digits, kappa, j);
    var k: nat := -kappa;
    NotEarlier(s, digits, k, j);
    NotLater(s, digits, k, j);
    var top := SecondPhase(s, digits, j);
    var z := EndScaled(s, j);
    var one, q := Pow(2, s.shift), Pow(10, j);
    TimesOneIs(one);
    ScaledInterval10(s, j);
    PowPositive(10, j);
    Between(s.lower, s.target, s.upper, q);
    LowerEndIsChosen(Times(s.upper, q), Times(s.upper - s.lower, q), Times(s.target, q), one, Num(digits), 10 * z);
    LastDigitIs(digits);
  }

  /** The digits end in a zero exactly if the interval is of that kind, and then the zero stands at the
      place j after the point. */
  lemma ZeroIff(s: Interval, digits: string, kappa: int)
    requires 0 <= s.shift && Made(s, digits, kappa)
    ensures EndsWithZero(digits) <==> EndsInZero(s)
    ensures forall j: nat :: ZeroAt(s, j) ==> kappa + j == 0
  {
    hide Made, ZeroAt, EndsWithZero;
    forall j: nat | ZeroAt(s, j) ensures kappa + j == 0 && EndsWithZero(digits) { EndMakesZero(s, digits, kappa, j); }
    if EndsWithZero(digits) { ZeroComes(s, digits, kappa); }
  }

  lemma ZeroComes(s: Interval, digits: string, kappa: int)
    requires 0 <= s.shift && Made(s, digits, kappa) && EndsWithZero(digits)
    ensures EndsInZero(s)
  {
    hide *;
    MadeDigits(s, digits, kappa);
    LastDigitIs(digits);
    if 0 <= kappa {
      FirstPhase(s, digits, kappa);
      assert false;
    }
    ZeroMeetsEnd(s, digits, -kappa);
    IsEnd(s, -kappa);
  }

  lemma IsEnd(s: Interval, j: nat)
    requires 0 <= s.shift && ZeroAt(s, j)
    ensures EndsInZero(s)
  {
    hide ZeroAt;
  }
}
