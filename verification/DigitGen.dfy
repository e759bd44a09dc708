/** The digit generator of src/grisu2.cpp: `grisu_round` and `digit_gen`. */
module DigitGeneration {
  import opened Powers
  import opened DiyFps
  import opened Digits

  function Gap(x: int, y: int): nat {
    if x <= y then y - x else x - y
  }

  /** What digit generation promises of the number v * unit it settles on: it lies in
      [hi - width, hi], no multiple of ten units lies there (bar the lower end point), and
      of the multiples of one unit there it is the closest to the target, the larger of two
      equally close ones. */
  ghost predicate Chosen(hi: int, width: int, target: int, unit: int, v: int) {
    && hi - width <= Times(v, unit) <= hi
    && (forall z :: Times(z, 10 * unit) <= hi ==> Times(z, 10 * unit) <= hi - width)
    && (forall z :: hi - width <= Times(z, unit) <= hi ==>
          && Gap(target, Times(v, unit)) <= Gap(target, Times(z, unit))
          && (v < z ==> Gap(target, Times(v, unit)) < Gap(target, Times(z, unit))))
  }

  /** What is left of f behind the point, in units of 2^-sh. */
  function Fractional(f: int, sh: nat): int {
    PowPositive(2, sh);
    Tail(f, Pow(2, sh))
  }

  /** When the second phase stops: there is no whole number in the interval, and a multiple of the
      unit lies above its lower end. */
  ghost predicate FractionStop(mp: int, delta: int, sh: nat, k: nat) {
    && delta < Fractional(mp, sh)
    && exists top :: Times(mp - delta, Pow(10, k)) < Times(top, Pow(2, sh)) <= Times(mp, Pow(10, k))
  }

  /** The digits stand for Num(digits) * 10^kappa, a choice in [mp - delta, mp] * 2^-sh. The first
      phase leaves no zero at the end. */
  ghost predicate Generated(mp: int, w: int, delta: int, sh: nat, digits: string, kappa: int) {
    && digits != [] && AllDigits(digits) && digits[0] != '0'
    && (if kappa < 0 then FractionStop(mp, delta, sh, -kappa) else Num(digits) % 10 != 0)
    && var up, down := Pow(10, if kappa < 0 then 0 else kappa), Pow(10, if kappa < 0 then -kappa else 0);
       Chosen(Times(mp, down), Times(delta, down), Times(w, down), Times(up, Pow(2, sh)), Num(digits))
  }

  /** Of all the steps down that stay within width, m bring rest closest to wpW. */
  ghost predicate BestStep(width: int, wpW: int, unit: int, rest: int, m: nat) {
    && rest + Times(m, unit) <= width
    && forall j: nat :: rest + Times(j, unit) <= width ==>
         && Gap(wpW, rest + Times(m, unit)) <= Gap(wpW, rest + Times(j, unit))
         && (j < m ==> Gap(wpW, rest + Times(m, unit)) < Gap(wpW, rest + Times(j, unit)))
  }

  /** The loop condition of `grisu_round`; every intermediate result is a 64-bit word. */
  predicate StepDown(delta: u64, rest: u64, tenKappa: u64, wpW: u64)
    requires rest <= delta
  {
    rest < wpW && delta - rest >= tenKappa &&
    var next: u64 := rest + tenKappa;
    (next < wpW || (wpW - rest) > next - wpW)
  }

  method GrisuRound(buffer: array<char>, len: nat, delta: u64, rest: u64, tenKappa: u64, wpW: u64)
    returns (ghost m: nat)
    requires 1 <= len <= buffer.Length && IsDigit(buffer[len - 1])
    requires 0 < tenKappa && rest <= delta <= rest + Times(DigitValue(buffer[len - 1]), tenKappa)
    modifies buffer
    ensures m <= DigitValue(old(buffer[len - 1])) && BestStep(delta, wpW, tenKappa, rest, m)
    ensures buffer[..] == old(buffer[..])[len - 1 := DigitChar(DigitValue(old(buffer[len - 1])) - m)]
  {
    hide Times;
    m := 0;
    var cur: u64 := rest;
    ghost var d := DigitValue(buffer[len - 1]);
    TimesStep(0, tenKappa);
    while StepDown(delta, cur, tenKappa, wpW)
      invariant m <= d && cur == rest + Times(m, tenKappa) && cur <= delta
      invariant buffer[..] == old(buffer[..])[len - 1 := DigitChar(d - m)]
      invariant forall j: nat :: j < m ==> Gap(wpW, cur) < Gap(wpW, rest + Times(j, tenKappa))
      decreases delta - cur
    {
      assert m < d;
      TimesStep(m, tenKappa);
      assert Gap(wpW, cur + tenKappa) < Gap(wpW, cur);
      assert buffer[len - 1] == DigitChar(d - m);
      buffer[len - 1] := buffer[len - 1] - (1 as char);
      cur := cur + tenKappa;
      m := m + 1;
    }
    forall j: nat | rest + Times(j, tenKappa) <= delta && m <= j
      ensures Gap(wpW, cur) <= Gap(wpW, rest + Times(j, tenKappa))
    {
      if m < j { TimesBeyond(m, j, tenKappa); }
    }
  }

  lemma TimesStep(m: int, unit: int)
    ensures Times(0, unit) == 0 && Times(m + 1, unit) == Times(m, unit) + unit
  {
  }

  lemma TimesBeyond(m: int, j: int, unit: int)
    requires m < j && 0 <= unit
    ensures Times(m, unit) + unit <= Times(j, unit)
  {
    MulMonotone(m + 1, j, unit);
  }

  lemma TimesNonnegative(m: int, unit: int)
    requires 0 <= m && 0 <= unit
    ensures 0 <= Times(m, unit)
  {
    MulMonotone(0, m, unit);
  }

  /** Rounding the first prefix that comes within width of hi makes a choice. */
  lemma RoundingChooses(hi: int, width: int, wpW: int, unit: int, prefix: nat, d: nat, rest: int, m: nat)
    requires Times(10 * prefix + d, unit) + rest == hi
    requires 0 <= rest < unit && d <= 9 && m <= d && width <= rest + Times(d, unit)
    requires BestStep(width, wpW, unit, rest, m)
    ensures Chosen(hi, width, hi - wpW, unit, 10 * prefix + d - m)
  {
    hide Times, Gap, BestStep;
    var top := 10 * prefix + d;
    var v := top - m;
    CandidateAt(hi, wpW, unit, top, rest, m);
    BestStepFits(width, wpW, unit, rest, m);
    TimesNonnegative(m, unit);
    forall z | Times(z, 10 * unit) <= hi
      ensures Times(z, 10 * unit) <= hi - width
    {
      NoCoarserMultiple(hi, unit, prefix, d, rest, z);
    }
    forall z | hi - width <= Times(z, unit) <= hi
      ensures Gap(hi - wpW, Times(v, unit)) <= Gap(hi - wpW, Times(z, unit))
      ensures v < z ==> Gap(hi - wpW, Times(v, unit)) < Gap(hi - wpW, Times(z, unit))
    {
      CandidatesAreBelow(hi, unit, top, rest, z);
      NoCloserCandidate(hi, width, wpW, unit, top, rest, m, top - z);
    }
  }

  lemma CandidateAt(hi: int, wpW: int, unit: int, top: int, rest: int, j: int)
    requires Times(top, unit) + rest == hi
    ensures Times(top - j, unit) == hi - (rest + Times(j, unit))
    ensures Gap(hi - wpW, Times(top - j, unit)) == Gap(wpW, rest + Times(j, unit))
  {
  }

  lemma NoCloserCandidate(hi: int, width: int, wpW: int, unit: int, top: int, rest: int, m: nat, j: nat)
    requires Times(top, unit) + rest == hi && BestStep(width, wpW, unit, rest, m)
    requires hi - width <= Times(top - j, unit)
    ensures Gap(hi - wpW, Times(top - m, unit)) <= Gap(hi - wpW, Times(top - j, unit))
    ensures j < m ==> Gap(hi - wpW, Times(top - m, unit)) < Gap(hi - wpW, Times(top - j, unit))
  {
    CandidateAt(hi, wpW, unit, top, rest, j);
    CandidateAt(hi, wpW, unit, top, rest, m);
    hide Times, Gap;
    assert rest + Times(j, unit) <= width;
  }

  lemma NoCoarserMultiple(hi: int, unit: int, prefix: nat, d: nat, rest: int, z: int)
    requires Times(10 * prefix + d, unit) + rest == hi && 0 <= rest < unit && d <= 9
    requires Times(z, 10 * unit) <= hi
    ensures Times(z, 10 * unit) <= hi - (rest + Times(d, unit))
  {
    assert prefix * (10 * unit) == hi - (rest + d * unit);
    if prefix < z {
      MulMonotone(prefix + 1, z, 10 * unit);
      MulMonotone(d + 1, 10, unit);
      assert false;
    } else {
      MulMonotone(z, prefix, 10 * unit);
    }
  }

  lemma CandidatesAreBelow(hi: int, unit: int, top: int, rest: int, z: int)
    requires Times(top, unit) + rest == hi && 0 <= rest < unit && Times(z, unit) <= hi
    ensures z <= top
  {
    if top < z {
      MulMonotone(top + 1, z, unit);
      assert false;
    }
  }

  const KPOW10: seq<u64> := [
    1, 10, 100, 1000, 10000, 100000,
    1000000, 10000000, 100000000, 1000000000,
    10000000000, 100000000000, 1000000000000,
    10000000000000, 100000000000000, 1000000000000000,
    10000000000000000, 100000000000000000,
    1000000000000000000, 10000000000000000000
  ]

  lemma PowerTable(i: nat)
    requires i < 20
    ensures |KPOW10| == 20 && KPOW10[i] == Pow(10, i)
  {
    if i != 0 { PowerTable(i - 1); }
  }

  function DecCount(v: u32): (c: nat)
    ensures 1 <= c <= 10 && v < Pow(10, c) && (0 < v ==> Pow(10, c - 1) <= v)
  {
    assert Pow(10, 10) == 10000000000;
    assert Pow(10, 5) == 100000;
    if v < 10 then 1
    else if v < 100 then 2
    else if v < 1000 then 3
    else if v < 10000 then 4
    else if v < 100000 then 5
    else if v < 1000000 then 6
    else if v < 10000000 then 7
    else if v < 100000000 then 8
    else if v < 1000000000 then 9
    else 10
  }

  lemma PowersAtLimits()
    ensures Pow(2, 32) == TWO32 && Pow(2, 60) == 0x1000_0000_0000_0000
  {
    assert FastPow(2, 32) == TWO32 && FastPow(2, 60) == 0x1000_0000_0000_0000;
    hide Pow, FastPow;
    FastPowIsPow(2, 32);
    FastPowIsPow(2, 60);
  }

  lemma OneBounds(sh: nat)
    requires 32 <= sh <= 60
    ensures 0x1_0000_0000 <= Pow(2, sh) <= 0x1000_0000_0000_0000
  {
    PowersAtLimits();
    hide Pow;
    PowMonotone(2, 32, sh);
    PowMonotone(2, sh, 60);
  }

  /** What is left of mp after the digits taken so far. */
  function Rest(p1: int, one: int, p2: int): int {
    p1 * one + p2
  }

  function Head(f: int, one: int): int
    requires 0 < one
  {
    f / one
  }

  function Tail(f: int, one: int): int
    requires 0 < one
  {
    f % one
  }

  /** Splitting off the leading digit of the integer part. */
  lemma SplitInteger(v: nat, q: nat, one: nat, p1: nat, p2: nat, total: int)
    requires 0 < q && Times(v, Times(10 * q, one)) + Rest(p1, one, p2) == total
    ensures Times(10 * v + p1 / q, Times(q, one)) + Rest(p1 % q, one, p2) == total
  {
    var d, r := p1 / q, p1 % q;
    assert p1 == d * q + r;
    calc {
      (10 * v + d) * (q * one) + r * one + p2;
      10 * v * (q * one) + d * (q * one) + r * one + p2;
      { Assoc(d, q, one); Assoc(10 * v, q, one); Assoc(v, 10 * q, one); Assoc(v, 10, q); }
      v * ((10 * q) * one) + (d * q + r) * one + p2;
    }
  }

  /** A prefix of len digits that may not stop yet is shorter than the promised bound. */
  lemma PrefixIsShort(mp: int, delta: int, n: nat, v: int, len: nat, unit: int, scale: int)
    requires mp < Times(Pow(10, n), delta) && 0 < scale && 1 <= len
    requires Pow(10, len - 1) <= v && Times(v, unit) <= Times(mp, scale)
    requires 0 <= delta && Times(delta, scale) < unit
    ensures len <= n
  {
    MulMonotone(0, unit, v);
    if n < len {
      PowMonotone(10, n, len - 1);
      PowPositive(10, n);
      MulMonotone(Pow(10, n), v, unit);
      MulStrict(delta * scale, unit, Pow(10, n));
      MulStrict(mp, Pow(10, n) * delta, scale);
      Assoc(Pow(10, n), delta, scale);
      assert false;
    }
  }

  /** Append digit d, except that leading zeros are skipped. */
  method PutDigit(buffer: array<char>, len: nat, d: nat) returns (len': nat)
    requires len < buffer.Length && d <= 9
    requires AllDigits(buffer[..len]) && (len != 0 ==> buffer[0] != '0')
    modifies buffer
    ensures len' == (if d != 0 || len != 0 then len + 1 else 0)
    ensures AllDigits(buffer[..len']) && (len' != 0 ==> buffer[0] != '0')
    ensures Num(buffer[..len']) == 10 * Num(old(buffer[..len])) + d
    ensures len' != 0 ==> buffer[..len'] == old(buffer[..len]) + [DigitChar(d)]
  {
    len' := len;
    if d != 0 || len != 0 {
      NumSnoc(buffer[..len], DigitChar(d));
      buffer[len] := DigitChar(d);
      len' := len + 1;
      assert buffer[..len'] == old(buffer[..len]) + [DigitChar(d)];
    }
  }

  lemma LastDigit(prefix: string, d: nat)
    requires AllDigits(prefix) && d <= 9 && (prefix != [] ==> prefix[0] != '0')
    ensures AllDigits(prefix + [DigitChar(d)]) && Num(prefix + [DigitChar(d)]) == 10 * Num(prefix) + d
    ensures (prefix + [DigitChar(d)])[0] == '0' ==> Num(prefix) == 0 && d == 0
  {
    NumSnoc(prefix, DigitChar(d));
  }

  /** What GrisuRound leaves in the buffer is a choice, with no leading zero. */
  lemma RoundedDigits(prefix: string, d: nat, m: nat, hi: int, width: int, wpW: int, unit: int, rest: int)
    requires AllDigits(prefix) && m <= d <= 9 && (prefix != [] ==> prefix[0] != '0')
    requires Times(10 * Num(prefix) + d, unit) + rest == hi && width < hi
    requires 0 <= rest < unit && width <= rest + Times(d, unit) && BestStep(width, wpW, unit, rest, m)
    ensures var after := prefix + [DigitChar(d - m)];
            AllDigits(after) && after[0] != '0' && Chosen(hi, width, hi - wpW, unit, Num(after))
  {
    hide *;
    BestStepFits(width, wpW, unit, rest, m);
    LastDigit(prefix, d - m);
    RoundingChooses(hi, width, wpW, unit, Num(prefix), d, rest, m);
    if (prefix + [DigitChar(d - m)])[0] == '0' {
      SingleDigitLeft(d, m, unit, rest, hi, width);
      assert false;
    }
  }

  lemma BestStepFits(width: int, wpW: int, unit: int, rest: int, m: nat)
    requires BestStep(width, wpW, unit, rest, m)
    ensures rest + Times(m, unit) <= width
  {
  }

  lemma SingleDigitLeft(d: nat, m: nat, unit: int, rest: int, hi: int, width: int)
    requires Times(d, unit) + rest == hi && width < hi && rest + Times(m, unit) <= width
    ensures d != m
  {
  }

  lemma SplitFraction(v: nat, one: nat, p2: nat, total: int)
    requires 0 < one && Times(v, one) + p2 == total
    ensures Times(10 * v + 10 * p2 / one, one) + 10 * p2 % one == 10 * total
  {
    var d := 10 * p2 / one;
    assert 10 * p2 == d * one + 10 * p2 % one;
  }

  /** As long as delta has not outgrown the fraction, it was scaled at most 18 times. */
  lemma FewScalings(delta0: int, k: nat, one: int)
    requires 1 <= delta0 && Times(delta0, Pow(10, k)) < one <= 0x1000_0000_0000_0000
    ensures k <= 18
  {
    if 18 < k {
      PowerTable(19);
      PowMonotone(10, 19, k);
      hide Pow;
      MulMonotone(1, delta0, Pow(10, k));
      assert false;
    }
  }

  lemma OneDigitLeft(p2: nat, one: nat)
    requires p2 < one
    ensures 10 * p2 / one <= 9
  {
    if 10 * p2 / one >= 10 {
      MulMonotone(10, 10 * p2 / one, one);
      assert false;
    }
  }

  /** The digits s, followed by the fraction p2 / one, are mp / one scaled by 10^k. */
  ghost predicate Fraction(s: string, one: int, p2: int, delta: int, mp: int, delta0: int, k: nat) {
    && s != [] && AllDigits(s) && s[0] != '0' && Pow(10, |s| - 1) <= Num(s)
    && delta == Times(delta0, Pow(10, k)) && 0 <= p2 < one
    && Times(Num(s), one) + p2 == Times(mp, Pow(10, k))
  }

  lemma FractionStep(s: string, one: int, p2: int, delta: int, mp: int, delta0: int, k: nat)
    requires Fraction(s, one, p2, delta, mp, delta0, k)
    ensures AllDigits(s) && s[0] != '0' && 10 * p2 / one <= 9
    ensures 0 <= p2 < one && delta == Times(delta0, Pow(10, k))
    ensures Fraction(s + [DigitChar(10 * p2 / one)], one, 10 * p2 % one, 10 * delta, mp, delta0, k + 1)
  {
    var d := 10 * p2 / one;
    OneDigitLeft(p2, one);
    SplitFraction(Num(s), one, p2, Times(mp, Pow(10, k)));
    NumSnoc(s, DigitChar(d));
    Assoc(mp, Pow(10, k), 10);
    Assoc(delta0, Pow(10, k), 10);
  }

  /** Why the rounding step after the second phase makes a choice, without overflow. */
  lemma FractionChosen(prefix: string, d: nat, m: nat, after: string, mp: int, w: int, delta0: int,
                       sh: nat, p2: int, delta: int, kappa: int)
    requires w <= mp && mp - w <= delta0 && 1 <= delta0 < mp && kappa < 0
    requires AllDigits(prefix) && prefix != [] && m <= d <= 9
    requires after == prefix + [DigitChar(d - m)]
    requires Fraction(prefix + [DigitChar(d)], Pow(2, sh), p2, delta, mp, delta0, -kappa)
    requires delta <= p2 + Times(d, Pow(2, sh)) && BestStep(delta, Times(mp - w, Pow(10, -kappa)), Pow(2, sh), p2, m)
    requires p2 < delta && delta0 < Fractional(mp, sh)
    ensures Generated(mp, w, delta0, sh, after, kappa)
  {
    var down, one := Pow(10, -kappa), Pow(2, sh);
    var hi := Times(mp, down);
    assert Pow(10, 0) == 1;
    FractionValues(prefix, d, one, p2, delta, mp, w, delta0, -kappa);
    StopAt(mp, delta0, sh, -kappa, 10 * Num(prefix) + d, p2);
    hide Pow, Num, BestStep, Chosen, Fraction, FractionStop;
    RoundedDigits(prefix, d, m, hi, delta, Times(mp - w, down), one, p2);
  }

  lemma StopAt(mp: int, delta0: int, sh: nat, k: nat, top: int, p2: int)
    requires delta0 < Fractional(mp, sh)
    requires Times(top, Pow(2, sh)) + p2 == Times(mp, Pow(10, k)) && 0 <= p2 < Times(delta0, Pow(10, k))
    ensures FractionStop(mp, delta0, sh, k)
  {
    ScaledGap(mp, mp - delta0, Pow(10, k));
    hide Times, Pow, Fractional;
  }

  lemma FractionValues(prefix: string, d: nat, one: int, p2: int, delta: int, mp: int, w: int, delta0: int, k: nat)
    requires AllDigits(prefix) && d <= 9 && 0 <= delta0 < mp
    requires Fraction(prefix + [DigitChar(d)], one, p2, delta, mp, delta0, k)
    ensures prefix != [] ==> prefix[0] != '0'
    ensures Times(10 * Num(prefix) + d, one) + p2 == Times(mp, Pow(10, k)) && 0 <= p2 < one
    ensures delta == Times(delta0, Pow(10, k)) < Times(mp, Pow(10, k))
    ensures Times(mp, Pow(10, k)) - Times(mp - w, Pow(10, k)) == Times(w, Pow(10, k))
  {
    hide *;
    FractionFacts(prefix + [DigitChar(d)], one, p2, delta, mp, delta0, k);
    FirstStays(prefix, d);
    LastDigitValue(prefix, d);
    PowPositive(10, k);
    TimesStrict(delta0, mp, Pow(10, k));
    ScaledGap(mp, w, Pow(10, k));
  }

  lemma FractionFacts(s: string, one: int, p2: int, delta: int, mp: int, delta0: int, k: nat)
    requires Fraction(s, one, p2, delta, mp, delta0, k)
    ensures AllDigits(s) && s != [] && s[0] != '0' && 0 <= p2 < one
    ensures delta == Times(delta0, Pow(10, k)) && Times(Num(s), one) + p2 == Times(mp, Pow(10, k))
  {
    hide Pow, Num, Times, AllDigits;
  }

  lemma FirstStays(prefix: string, d: nat)
    requires d <= 9
    ensures prefix != [] ==> (prefix + [DigitChar(d)])[0] == prefix[0]
  {
  }

  lemma LastDigitValue(prefix: string, d: nat)
    requires AllDigits(prefix) && d <= 9
    ensures AllDigits(prefix + [DigitChar(d)]) && Num(prefix + [DigitChar(d)]) == 10 * Num(prefix) + d
  {
    NumSnoc(prefix, DigitChar(d));
  }

  lemma TimesStrict(x: int, y: int, k: int)
    requires x < y && 0 < k
    ensures Times(x, k) < Times(y, k)
  {
    MulStrict(x, y, k);
  }

  lemma ScaledGap(mp: int, w: int, k: int)
    ensures Times(mp, k) - Times(mp - w, k) == Times(w, k)
  {
  }

  /** The end of the second phase: the last digit is rounded, no word overflows. */
  method RoundFraction(mp: u64, w: u64, delta0: u64, sh: nat, buffer: array<char>, len: nat, p2: u64, delta: u64,
                       kappa: int, ghost prefix: string, ghost d: nat)
    requires 32 <= sh <= 60 && w <= mp && mp - w <= delta0 && 1 <= delta0 < mp
    requires -19 <= kappa < 0 && p2 < delta <= p2 + Times(d, Pow(2, sh))
    requires AllDigits(prefix) && prefix != [] && d <= 9 && |prefix| + 1 == len <= buffer.Length
    requires buffer[..len] == prefix + [DigitChar(d)]
    requires Fraction(buffer[..len], Pow(2, sh), p2, delta, mp, delta0, -kappa) && delta0 < Fractional(mp, sh)
    modifies buffer
    ensures Generated(mp, w, delta0, sh, buffer[..len], kappa)
  {
    hide *;
    OneBounds(sh);
    var one: u64 := Pow(2, sh);
    var idx := -kappa;
    if idx < 0 { idx := 0; }
    if idx >= 20 { idx := 19; }
    PowerTable(idx);
    ScaledGapFits(buffer[..len], one, p2, delta, mp, w, delta0, -kappa);
    assert buffer[len - 1] == buffer[..len][len - 1] == DigitChar(d);
    ghost var m := GrisuRound(buffer, len, delta, p2, one, Times(mp - w, KPOW10[idx]));
    assert buffer[..len] == prefix + [DigitChar(d - m)];
    FractionChosen(prefix, d, m, buffer[..len], mp, w, delta0, sh, p2, delta, kappa);
  }

  /** The second phase: one fractional digit at a time, by multiplying with ten. */
  method FractionDigits(mp: u64, w: u64, delta0: u64, sh: nat, buffer: array<char>, len0: nat, p20: u64, ghost n: nat)
    returns (len: nat, kappa: int)
    requires 32 <= sh <= 60 && w <= mp && mp - w <= delta0 && 1 <= delta0 < mp < Times(Pow(10, n), delta0)
    requires 1 <= len0 <= n < buffer.Length && delta0 < p20 == Fractional(mp, sh)
    requires Fraction(buffer[..len0], Pow(2, sh), p20, delta0, mp, delta0, 0)
    modifies buffer
    ensures 1 <= len <= n + 1 && -19 <= kappa < 0 && len + kappa == len0
    ensures Generated(mp, w, delta0, sh, buffer[..len], kappa)
  {
    hide *;
    OneBounds(sh);
    var one: u64 := Pow(2, sh);
    var p2: u64, delta: u64 := p20, delta0;
    len, kappa := len0, 0;
    while true
      invariant len + kappa == len0 && 1 <= len <= n && kappa <= 0 && 1 <= delta <= p2
      invariant Fraction(buffer[..len], one, p2, delta, mp, delta0, -kappa)
      decreases 0x1_0000_0000_0000_0000 - delta
    {
      ghost var prefix, k := buffer[..len], -kappa;
      FractionStep(prefix, one, p2, delta, mp, delta0, k);
      FewScalings(delta0, k, one);
      FractionTail(10 * p2, one);
      p2 := p2 * 10;
      delta := delta * 10;
      var d := p2 / one;
      len := PutDigit(buffer, len, d);
      p2 := p2 % one;
      kappa := kappa - 1;
      assert buffer[..len] == prefix + [DigitChar(d)];
      if p2 < delta {
        RoundFraction(mp, w, delta0, sh, buffer, len, p2, delta, kappa, prefix, d);
        return;
      }
      FractionIsShort(buffer[..len], one, p2, delta, mp, delta0, -kappa, n);
    }
  }

  lemma FractionTail(p: nat, one: nat)
    requires 0 < one
    ensures p % one + Times(p / one, one) == p
  {
  }

  lemma ScaledGapFits(s: string, one: int, p2: int, delta: int, mp: int, w: int, delta0: int, k: nat)
    requires Fraction(s, one, p2, delta, mp, delta0, k) && 0 <= mp - w <= delta0
    ensures 0 <= Times(mp - w, Pow(10, k)) <= delta
  {
    PowPositive(10, k);
    MulMonotone(0, mp - w, Pow(10, k));
    MulMonotone(mp - w, delta0, Pow(10, k));
  }

  lemma FractionIsShort(s: string, one: int, p2: int, delta: int, mp: int, delta0: int, k: nat, n: nat)
    requires Fraction(s, one, p2, delta, mp, delta0, k)
    requires 0 <= delta0 && mp < Times(Pow(10, n), delta0) && delta <= p2
    ensures |s| <= n
  {
    PowPositive(10, k);
    PrefixIsShort(mp, delta0, n, Num(s), |s|, one, Pow(10, k));
  }

  /** The digits s, kappa digits p1 of the integer part still to come, and the fraction p2
      make up mp. */
  ghost predicate IntegerPart(s: string, one: int, kappa: nat, p1: int, p2: int, mp: int) {
    && AllDigits(s) && 0 <= p1 < Pow(10, kappa) && 0 <= p2 < one
    && Times(Num(s), Times(Pow(10, kappa), one)) + Rest(p1, one, p2) == mp
    && (if s == [] then 0 < kappa && Pow(10, kappa - 1) <= p1 else s[0] != '0' && Pow(10, |s| - 1) <= Num(s))
  }

  lemma IntegerStep(s: string, one: int, kappa: nat, p1: nat, p2: nat, mp: int, q: int)
    requires IntegerPart(s, one, kappa, p1, p2, mp) && 0 < kappa && q == Pow(10, kappa - 1)
    ensures 0 < q && 0 <= Head(p1, q) <= 9 && 0 <= Tail(p1, q) <= p1
    ensures AllDigits(s) && (s != [] ==> s[0] != '0')
    ensures s == [] ==> Head(p1, q) != 0
    ensures IntegerPart(s + [DigitChar(Head(p1, q))], one, kappa - 1, Tail(p1, q), p2, mp)
    ensures Rest(p1, one, p2) == Times(Head(p1, q), Times(q, one)) + Rest(Tail(p1, q), one, p2)
  {
    PowPositive(10, kappa - 1);
    var d := p1 / q;
    assert p1 < 10 * q;
    assert s == [] ==> q <= p1;
    hide Pow;
    LeadingDigit(p1, q);
    SplitInteger(Num(s), q, one, p1, p2, mp);
    SplitInteger(0, q, one, p1, p2, Rest(p1, one, p2));
    AppendKeepsSize(s, d);
  }

  lemma AppendKeepsSize(s: string, d: nat)
    requires AllDigits(s) && d <= 9
    requires if s == [] then 1 <= d else s[0] != '0' && Pow(10, |s| - 1) <= Num(s)
    ensures AllDigits(s + [DigitChar(d)]) && Num(s + [DigitChar(d)]) == 10 * Num(s) + d
    ensures (s + [DigitChar(d)])[0] != '0' && Pow(10, |s|) <= Num(s + [DigitChar(d)])
  {
    NumSnoc(s, DigitChar(d));
    if s == [] {
      assert Pow(10, 0) == 1;
    } else {
      assert Pow(10, |s|) == 10 * Pow(10, |s| - 1);
    }
  }

  lemma LeadingDigit(p1: nat, q: nat)
    requires 0 < q && p1 < 10 * q
    ensures 0 <= p1 / q <= 9 && (q <= p1 ==> 1 <= p1 / q) && 0 <= p1 % q < q && p1 % q <= p1
  {
    assert p1 == p1 / q * q + p1 % q;
    if 10 <= p1 / q { MulMonotone(10, p1 / q, q); assert false; }
    if p1 / q < 1 { MulMonotone(p1 / q, 0, q); }
  }

  lemma IntegerIsShort(s: string, one: int, kappa: nat, p1: int, p2: int, mp: int, delta: int, n: nat)
    requires IntegerPart(s, one, kappa, p1, p2, mp)
    requires 0 <= delta < Rest(p1, one, p2) && mp < Times(Pow(10, n), delta)
    ensures |s| <= n
  {
    if s != [] {
      UnitFits(s, one, kappa, p1, p2, mp);
      var unit := Times(Pow(10, kappa), one);
      assert Times(Num(s), unit) <= Times(mp, 1) && Times(delta, 1) == delta;
      hide IntegerPart;
      PrefixIsShort(mp, delta, n, Num(s), |s|, unit, 1);
    }
  }

  lemma UnitFits(s: string, one: int, kappa: nat, p1: int, p2: int, mp: int)
    requires IntegerPart(s, one, kappa, p1, p2, mp) && s != []
    ensures 0 <= Rest(p1, one, p2) < Times(Pow(10, kappa), one) <= mp
  {
    PowPositive(10, |s| - 1);
    UnitFitsIn(Num(s), Pow(10, kappa), one, p1, p2, mp);
  }

  lemma UnitFitsIn(v: int, q: int, one: int, p1: int, p2: int, mp: int)
    requires 1 <= v && 0 <= p1 < q && 0 <= p2 < one && Times(v, Times(q, one)) + Rest(p1, one, p2) == mp
    ensures 0 <= Rest(p1, one, p2) < Times(q, one) <= mp
  {
    MulMonotone(0, p1, one);
    assert Rest(p1, one, p2) < (p1 + 1) * one;
    MulMonotone(p1 + 1, q, one);
    MulMonotone(1, v, q * one);
  }

  lemma IntegerChosen(prefix: string, d: nat, m: nat, after: string, mp: int, w: int, delta: int,
                      sh: nat, p1: int, p2: int, kappa: int)
    requires w <= mp && 0 <= delta < mp && 0 <= kappa
    requires AllDigits(prefix) && m <= d <= 9 && after == prefix + [DigitChar(d - m)]
    requires IntegerPart(prefix + [DigitChar(d)], Pow(2, sh), kappa, p1, p2, mp)
    requires delta < Rest(p1, Pow(2, sh), p2) + Times(d, Times(Pow(10, kappa), Pow(2, sh)))
    requires BestStep(delta, mp - w, Times(Pow(10, kappa), Pow(2, sh)), Rest(p1, Pow(2, sh), p2), m)
    ensures Generated(mp, w, delta, sh, after, kappa)
  {
    hide *;
    var one, unit, rest := Pow(2, sh), Times(Pow(10, kappa), Pow(2, sh)), Rest(p1, Pow(2, sh), p2);
    IntegerValues(prefix, d, one, p1, p2, mp, kappa);
    RoundedDigits(prefix, d, m, mp, delta, mp - w, unit, rest);
    BestStepFits(delta, mp - w, unit, rest, m);
    LessThanDigit(d, m, unit, rest, delta);
    NoZeroLeft(prefix, d - m);
    WholeGenerated(mp, w, delta, sh, after, kappa);
  }

  lemma LessThanDigit(d: nat, m: nat, unit: int, rest: int, delta: int)
    requires m <= d && rest + Times(m, unit) <= delta < rest + Times(d, unit)
    ensures m < d
  {
  }

  lemma WholeGenerated(mp: int, w: int, delta: int, sh: nat, digits: string, kappa: nat)
    requires digits != [] && AllDigits(digits) && digits[0] != '0' && Num(digits) % 10 != 0
    requires Chosen(mp, delta, w, Times(Pow(10, kappa), Pow(2, sh)), Num(digits))
    ensures Generated(mp, w, delta, sh, digits, kappa)
  {
    assert Pow(10, 0) == 1;
    TimesOne(mp);
    TimesOne(w);
    TimesOne(delta);
    hide Pow, Num, Chosen, Times;
  }

  lemma NoZeroLeft(prefix: string, d: nat)
    requires AllDigits(prefix) && 1 <= d <= 9
    ensures AllDigits(prefix + [DigitChar(d)]) && Num(prefix + [DigitChar(d)]) % 10 != 0
  {
    NumSnoc(prefix, DigitChar(d));
  }

  lemma TimesOne(x: int)
    ensures Times(x, 1) == x
  {
  }

  lemma IntegerValues(prefix: string, d: nat, one: int, p1: int, p2: int, mp: int, kappa: nat)
    requires AllDigits(prefix) && d <= 9
    requires IntegerPart(prefix + [DigitChar(d)], one, kappa, p1, p2, mp)
    ensures prefix != [] ==> prefix[0] != '0'
    ensures Times(10 * Num(prefix) + d, Times(Pow(10, kappa), one)) + Rest(p1, one, p2) == mp
    ensures 0 <= Rest(p1, one, p2) < Times(Pow(10, kappa), one)
  {
    hide *;
    IntegerFacts(prefix + [DigitChar(d)], one, kappa, p1, p2, mp);
    FirstStays(prefix, d);
    LastDigitValue(prefix, d);
    UnitFits(prefix + [DigitChar(d)], one, kappa, p1, p2, mp);
  }

  lemma IntegerFacts(s: string, one: int, kappa: nat, p1: int, p2: int, mp: int)
    requires IntegerPart(s, one, kappa, p1, p2, mp)
    ensures AllDigits(s) && (s != [] ==> s[0] != '0')
    ensures Times(Num(s), Times(Pow(10, kappa), one)) + Rest(p1, one, p2) == mp
  {
    hide Pow, Num, Times, Rest, AllDigits;
  }

  method RoundInteger(mp: u64, w: u64, delta: u64, sh: nat, buffer: array<char>, len: nat, p1: u64, p2: u64,
                      kappa: nat, ghost prefix: string, ghost d: nat)
    requires 32 <= sh <= 60 && w <= mp && 0 <= delta < mp && kappa <= 9
    requires AllDigits(prefix) && d <= 9 && |prefix| + 1 == len <= buffer.Length
    requires buffer[..len] == prefix + [DigitChar(d)]
    requires IntegerPart(buffer[..len], Pow(2, sh), kappa, p1, p2, mp)
    requires Rest(p1, Pow(2, sh), p2) <= delta < Rest(p1, Pow(2, sh), p2) + Times(d, Times(Pow(10, kappa), Pow(2, sh)))
    modifies buffer
    ensures Generated(mp, w, delta, sh, buffer[..len], kappa)
  {
    hide *;
    OneBounds(sh);
    var one: u64 := Pow(2, sh);
    PowerTable(kappa);
    UnitFits(buffer[..len], one, kappa, p1, p2, mp);
    var tenKappa: u64 := Times(KPOW10[kappa], one);
    var rest: u64 := Rest(p1, one, p2);
    assert buffer[len - 1] == buffer[..len][len - 1] == DigitChar(d);
    ghost var m := GrisuRound(buffer, len, delta, rest, tenKappa, mp - w);
    assert buffer[..len] == prefix + [DigitChar(d - m)];
    IntegerChosen(prefix, d, m, buffer[..len], mp, w, delta, sh, p1, p2, kappa);
  }

  /** `digit_gen`: the digits of the number nearest to w that is as coarse as [mp - delta, mp]
      allows. n bounds the number of digits through mp / delta. */
  method DigitGen(w: DiyFp, mp: DiyFp, delta: u64, buffer: array<char>, k: int, ghost n: nat)
    returns (len: nat, k': int)
    requires -60 <= mp.e <= -32 && w.f <= mp.f && mp.f - w.f <= delta
    requires Pow(2, -mp.e) <= mp.f && 1 <= delta < mp.f < Times(Pow(10, n), delta) && n < buffer.Length
    modifies buffer
    ensures 1 <= len <= n + 1 && 1 <= len + (k' - k) <= 10 && -19 <= k' - k
    ensures Generated(mp.f, w.f, delta, -mp.e, buffer[..len], k' - k)
  {
    hide *;
    var sh := -mp.e;
    OneBounds(sh);
    var one: u64 := Pow(2, sh);
    assert buffer[..0] == [];
    FirstPart(mp.f, one);
    var p1: u32, p2: u64 := Head(mp.f, one), Tail(mp.f, one);
    var kappa := DecCount(p1);
    len, k' := 0, k;
    ghost var count := kappa;
    while kappa > 0
      invariant 0 <= kappa <= count && len + kappa == count && len <= n
      invariant IntegerPart(buffer[..len], one, kappa, p1, p2, mp.f) && delta < Rest(p1, one, p2)
    {
      ghost var prefix := buffer[..len];
      PowerTable(kappa - 1);
      var q := KPOW10[kappa - 1];
      IntegerStep(prefix, one, kappa, p1, p2, mp.f, q);
      var d := Head(p1, q);
      p1 := Tail(p1, q);
      len := PutDigit(buffer, len, d);
      kappa := kappa - 1;
      assert buffer[..len] == prefix + [DigitChar(d)];
      UnitFits(buffer[..len], one, kappa, p1, p2, mp.f);
      var tmp: u64 := Rest(p1, one, p2);
      if tmp <= delta {
        k' := k + kappa;
        RoundInteger(mp.f, w.f, delta, sh, buffer, len, p1, p2, kappa, prefix, d);
        return;
      }
      IntegerIsShort(buffer[..len], one, kappa, p1, p2, mp.f, delta, n);
    }
    IntegerDone(buffer[..len], one, p1, p2, mp.f, delta);
    FractionalIs(mp.f, sh);
    var fk: int;
    len, fk := FractionDigits(mp.f, w.f, delta, sh, buffer, len, p2, n);
    k' := k + fk;
  }

  lemma FractionalIs(f: int, sh: nat)
    ensures 0 < Pow(2, sh) && Fractional(f, sh) == Tail(f, Pow(2, sh))
  {
    PowPositive(2, sh);
  }

  lemma IntegerDone(s: string, one: int, p1: int, p2: int, mp: int, delta: int)
    requires IntegerPart(s, one, 0, p1, p2, mp)
    ensures s != [] && p1 == 0 && Rest(p1, one, p2) == p2 && Fraction(s, one, p2, delta, mp, delta, 0)
  {
    assert Pow(10, 0) == 1;
  }

  lemma HeadAndTail(f: int, one: int)
    requires 0x1_0000_0000 <= one <= f < 0x1_0000_0000_0000_0000
    ensures 0 < Head(f, one) < 0x1_0000_0000 && 0 <= Tail(f, one) < one && Rest(Head(f, one), one, Tail(f, one)) == f
  {
    QuotientBelow(f, one, TWO32);
    AtLeastOne(f, one);
  }

  lemma AtLeastOne(f: int, one: int)
    requires 0 < one <= f
    ensures 0 < f / one
  {
    if f / one <= 0 { MulMonotone(f / one, 0, one); assert false; }
  }

  lemma QuotientBelow(f: nat, one: nat, bound: int)
    requires 0 < one && f < bound * one
    ensures f / one < bound
  {
    if bound <= f / one { MulMonotone(bound, f / one, one); assert false; }
  }

  lemma FirstPart(mp: int, one: int)
    requires 0x1_0000_0000 <= one <= mp < 0x1_0000_0000_0000_0000
    ensures Rest(Head(mp, one), one, Tail(mp, one)) == mp && 0 < Head(mp, one) < 0x1_0000_0000
    ensures 0 <= Tail(mp, one) < one
    ensures IntegerPart([], one, DecCount(Head(mp, one)), Head(mp, one), Tail(mp, one), mp)
  {
    HeadAndTail(mp, one);
    hide Head, Tail, Rest;
  }
}
