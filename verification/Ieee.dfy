/** IEEE 754 binary64 magnitudes: bit patterns, their values, and rounding to nearest. */
module Ieee {
  import opened Powers
  import opened DiyFps

  const HIDDEN := 0x10_0000_0000_0000
  const INFINITY := 0x7FF0_0000_0000_0000

  /** `double_to_diy` of the double whose bits (sign clear) are given. */
  function DoubleToDiy(bits: nat): (r: DiyFp)
    requires bits <= INFINITY
    ensures r.f < 2 * HIDDEN && (0 < bits ==> 0 < r.f) && -1074 <= r.e <= 972
  {
    var biased, sig := bits / HIDDEN, bits % HIDDEN;
    if biased != 0 then DiyFp(sig + HIDDEN, biased - 1075) else DiyFp(sig, -1074)
  }

  /** The number a bit pattern stands for; the pattern of infinity stands for 2^1024, the
      number that would come after the largest finite double. */
  function Value(bits: nat): real
    requires bits <= INFINITY
  {
    DoubleToDiy(bits).Value()
  }

  /** Unit in the last place: the distance to the next larger double. */
  function Ulp(bits: nat): (r: real)
    requires bits <= INFINITY
    ensures 0.0 < r
  {
    Two(DoubleToDiy(bits).e)
  }

  function Distance(x: real, y: real): (r: real)
    ensures 0.0 <= r
  {
    if x <= y then y - x else x - y
  }

  /** x rounds to bits under round-to-nearest, ties to even: section 4.3.1 of
      IEEE 754-2008. Rounding to infinity is overflow. */
  ghost predicate RoundsTo(x: real, bits: nat)
    requires bits <= INFINITY
  {
    forall other: nat | other <= INFINITY && other != bits ::
      Distance(x, Value(bits)) < Distance(x, Value(other))
      || (Distance(x, Value(bits)) == Distance(x, Value(other)) && bits % 2 == 0)
  }

  lemma Successor(bits: nat)
    requires bits < INFINITY
    ensures Value(bits + 1) == Value(bits) + Ulp(bits)
  {
    var d, d' := DoubleToDiy(bits), DoubleToDiy(bits + 1);
    SuccessorDiy(bits);
    ScaleStep(Binary, d.e);
    hide Scale, Product, DoubleToDiy;
    NextSignificand(d.f, d'.f, Two(d.e), Two(d'.e), d.e == d'.e);
  }

  lemma SuccessorDiy(bits: nat)
    requires bits < INFINITY
    ensures var d, d' := DoubleToDiy(bits), DoubleToDiy(bits + 1);
            || (d'.e == d.e && d'.f == d.f + 1)
            || (d'.e == d.e + 1 && d.f + 1 == 2 * HIDDEN && d'.f == HIDDEN)
  {
    var b, s := bits / HIDDEN, bits % HIDDEN;
    if s + 1 < HIDDEN {
      assert bits + 1 == b * HIDDEN + (s + 1);
    } else {
      assert bits + 1 == (b + 1) * HIDDEN;
    }
  }

  lemma NextSignificand(f: int, f': int, u: real, u': real, same: bool)
    requires if same then u' == u && f' == f + 1 else u' == 2.0 * u && f + 1 == 2 * HIDDEN && f' == HIDDEN
    ensures Product(f' as real, u') == Product(f as real, u) + u
  {
  }

  /** Larger bit patterns stand for larger numbers, by at least the smaller one's ulp. */
  lemma {:induction false} Increasing(a: nat, b: nat)
    requires a < b <= INFINITY
    ensures Value(a) + Ulp(a) <= Value(b)
    decreases b
  {
    hide Value;
    Successor(b - 1);
    if a < b - 1 { Increasing(a, b - 1); }
  }

  /** An exact power of two whose lower neighbour is only half as far away as the upper. */
  predicate UnevenPower(bits: nat) {
    bits % HIDDEN == 0 && 2 <= bits / HIDDEN
  }

  lemma Predecessor(bits: nat)
    requires 0 < bits < INFINITY
    ensures Value(bits) == Value(bits - 1) + Ulp(bits - 1)
    ensures if UnevenPower(bits) then 2.0 * Ulp(bits - 1) == Ulp(bits) else Ulp(bits - 1) == Ulp(bits)
  {
    hide Product, Scale;
    Successor(bits - 1);
    var b, s := bits / HIDDEN, bits % HIDDEN;
    if s == 0 {
      assert bits - 1 == (b - 1) * HIDDEN + (HIDDEN - 1);
      ScaleStep(Binary, DoubleToDiy(bits - 1).e);
    } else {
      assert bits - 1 == b * HIDDEN + (s - 1);
    }
  }

  /** Anything strictly between the midpoints to the neighbours rounds to bits, with no tie. */
  lemma BetweenMidpoints(x: real, bits: nat)
    requires 0 < bits < INFINITY
    requires Value(bits) - Ulp(bits - 1) / 2.0 < x < Value(bits) + Ulp(bits) / 2.0
    ensures RoundsTo(x, bits)
  {
    hide Value;
    forall other: nat | other <= INFINITY && other != bits
      ensures Distance(x, Value(bits)) < Distance(x, Value(other))
    {
      if bits < other {
        Increasing(bits, other);
      } else {
        Predecessor(bits);
        if other < bits - 1 { Increasing(other, bits - 1); }
      }
    }
  }

  /** Rounding is a function. */
  lemma RoundsToUnique(x: real, a: nat, b: nat)
    requires a <= INFINITY && b <= INFINITY && RoundsTo(x, a) && RoundsTo(x, b)
    ensures a == b
  {
    if a < b {
      RoundsToOne(x, a, b);
    } else if b < a {
      RoundsToOne(x, b, a);
    }
  }

  lemma RoundsToOne(x: real, a: nat, b: nat)
    requires a < b <= INFINITY
    ensures !(RoundsTo(x, a) && RoundsTo(x, b))
  {
    hide Value;
    if RoundsTo(x, a) && RoundsTo(x, b) {
      assert Distance(x, Value(a)) == Distance(x, Value(b)) && a % 2 == 0 && b % 2 == 0;
      Increasing(a, a + 1);
      Increasing(a + 1, b);
      Between(x, Value(a), Value(a + 1), Value(b));
      assert false;
    }
  }

  /** Of three points the middle one is closer to a point halfway between the outer two. */
  lemma Between(x: real, a: real, m: real, b: real)
    requires a < m < b && Distance(x, a) == Distance(x, b)
    ensures Distance(x, m) < Distance(x, a)
  {
  }
}
