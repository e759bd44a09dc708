/** `format_double` of src/grisu2.cpp, and what reading its text back gives. */
module FormatDoubles {
  import opened Common
  import opened Powers
  import opened DiyFps
  import opened Digits
  import opened CachedPowers
  import opened Ieee
  import opened Boundaries
  import opened Grisu
  import opened Prettifier
  import opened ClosestDecimals
  import opened TrailingZeros
  import opened ShortDoubles
  import opened ShortForms
  import opened PowersOfTwo
  import opened PowerCertificates

  /** The magnitudes that do not read back: powers of two for which the narrower lower half of
      the rounding interval matters. */
  predicate Misreads(magnitude: nat) {
    UnevenPower(magnitude) && Misread(Biased(magnitude))
  }

  /** What a magnitude is read back as. */
  function ReadAs(magnitude: nat): nat {
    if Misreads(magnitude) then magnitude - 1 else magnitude
  }

  /** The digits of any run round to the double, or for a misread power to its lower
      neighbour. */
  lemma DigitsReadAs(bits: nat, run: Run, digits: string, i: int)
    requires RunOf(bits, run, digits) && FromTable(run, i)
    ensures AllDigits(digits) && bits < INFINITY && RoundsTo(Denoted(digits, RunExponent(run)), ReadAs(bits))
  {
    hide *;
    RunBounds(bits, run, digits);
    ReadAsIs(bits);
    if UnevenPower(bits) {
      PowerShape(bits, run, digits);
      BiasedAtLeastTwo(bits);
      AllSettled(Biased(bits));
      var c := CertificateFor(Biased(bits), Misread(Biased(bits)), run.c, i, run);
      Decides(bits, run, digits, c);
    } else {
      ReadsBack(bits, run, digits);
    }
  }

  lemma RunBounds(bits: nat, run: Run, digits: string)
    requires RunOf(bits, run, digits)
    ensures 0 < bits < INFINITY
  {
    hide *;
    BoundariesAreMidpoints(bits, run, digits);
  }

  lemma ReadAsIs(bits: nat)
    ensures ReadAs(bits) == if UnevenPower(bits) && Misread(Biased(bits)) then bits - 1 else bits
  {
    hide Misread, UnevenPower, Biased;
  }

  lemma BiasedAtLeastTwo(bits: nat)
    requires UnevenPower(bits)
    ensures 2 <= Biased(bits)
  {
  }

  lemma CertificateFor(be: nat, misread: bool, power: DiyFp, i: int, run: Run) returns (c: Certificate)
    requires Settled(be, misread) && FromTable(run, i) && run.hi.e == be - 1086 && power == run.c
    ensures Certified(c) && BoundsOf(power, c.target, c.a, c.b, c.m) && c.shift == -(be - 1086 + power.e + 64)
    ensures c.misread == misread
  {
    hide Certified, BoundsOf, Entry, Picks;
    c :| Fits(c, be) && c.misread == misread;
    assert BoundsOf(Entry(i), c.target, c.a, c.b, c.m);
  }

  /** A double is printed so that it reads back exactly when it is not misread. */
  lemma ReadsBackIff(bits: nat, run: Run, digits: string, i: int)
    requires RunOf(bits, run, digits) && FromTable(run, i)
    ensures AllDigits(digits) && bits < INFINITY
    ensures RoundsTo(Denoted(digits, RunExponent(run)), bits) <==> !Misreads(bits)
  {
    hide RunOf, FromTable, RoundsTo, Denoted, Misreads;
    DigitsReadAs(bits, run, digits, i);
    if Misreads(bits) && RoundsTo(Denoted(digits, RunExponent(run)), bits) {
      RoundsToUnique(Denoted(digits, RunExponent(run)), bits, bits - 1);
      assert false;
    }
  }

  /** 2^64 is one of those that do not read back. */
  lemma TwoTo64Misreads()
    ensures Misreads(1087 * HIDDEN) && Value(1087 * HIDDEN) == 18446744073709551616.0
  {
    assert DoubleToDiy(1087 * HIDDEN) == DiyFp(HIDDEN, 12);
    ScaleIsPow(Binary, 12);
    assert Pow(2, 12) == 4096;
  }

  /** No number with fewer digits was missed: one that keeps two scaled units away from both
      ends of the rounding interval has its last digit at the printed place or a finer one. */
  lemma NoShorter(bits: nat, run: Run, digits: string, v: int, k: int)
    requires RunOf(bits, run, digits)
    requires var unit := Two(run.lo.e + run.c.e + 64);
             && Product(run.lo.Value(), Ten(run.p)) + 2.0 * unit <= Product(v as real, Ten(k + run.p))
             && Product(v as real, Ten(k + run.p)) <= Product(run.hi.Value(), Ten(run.p)) - 2.0 * unit
    ensures k <= RunExponent(run)
  {
    hide *;
    RunParts(bits, run, digits);
    var s, place := Scale10(run.lo, run.mid, run.hi, run.c), k + run.p;
    var unit := Two(run.lo.e + run.c.e + 64);
    ScaledWithinOneUlp(run.lo, run.c, run.p);
    ScaledWithinOneUlp(run.hi, run.c, run.p);
    OneMore(Multiply(run.lo, run.c).f, 1, unit);
    OneMore(Multiply(run.hi, run.c).f, -1, unit);
    BelowAbove(s.lower, v, place, s.shift);
    BelowAbove(s.upper, v, place, s.shift);
    NotFiner(s, digits, run.kappa, place, v);
  }

  /** The decimal lies within 63/64 of the way to either end of the interval that is searched: half an
      ulp above and below, for the least normal double a quarter below. */
  ghost predicate WellInside(bits: nat, v: int, k: int)
    requires bits < INFINITY
  {
    var d := Product(v as real, Ten(k)) - Value(bits);
    && 64.0 * d <= 63.0 * (Ulp(bits) / 2.0)
    && -63.0 * (Ulp(bits) / (if bits == HIDDEN then 4.0 else 2.0)) <= 64.0 * d
  }

  /** A scaled unit is small against the interval. */
  lemma UnitIsSmall(bits: nat, run: Run, digits: string)
    requires RunOf(bits, run, digits)
    ensures bits < INFINITY && 512.0 * Two(run.lo.e + run.c.e + 64) <= Product(Ulp(bits), Ten(run.p))
  {
    hide *;
    RunOfParts(bits, run, digits);
    RunBounds(bits, run, digits);
    var half := BoundedIsAligned(bits, run.lo, run.mid, run.hi);
    var e, c := run.lo.e, run.c;
    UlpAtLeast(bits, run.lo, run.mid, run.hi, half);
    TenAtLeast(c, run.p);
    TwoTo64(e, c.e);
    ProductsAtLeast(Ulp(bits), Ten(run.p), Two(e), Two(c.e));
  }

  lemma UlpAtLeast(bits: nat, lo: DiyFp, mid: DiyFp, hi: DiyFp, half: int)
    requires Aligned(bits, lo, mid, hi, half)
    ensures bits < INFINITY && 2048.0 * Two(lo.e) <= Ulp(bits)
  {
    hide Scale, Ulp, Normalized, Times;
    RealMonotone(1024.0, half as real, Two(hi.e));
  }

  lemma TenAtLeast(c: DiyFp, p: int)
    requires Normalized(c) && HalfUlp(c, p)
    ensures 4611686018427387904.0 * Two(c.e) <= Ten(p)
  {
    HalfUlpExpanded(c, c, p);
    hide Scale, HalfUlp;
    assert 9223372036854775808.0 <= c.f as real;
    TwoPositive(c.e);
    BelowByHalf(c.f as real, Two(c.e), Ten(p));
  }

  lemma TwoPositive(k: int)
    ensures 0.0 < Two(k)
  {
  }

  lemma BelowByHalf(f: real, two: real, ten: real)
    requires 9223372036854775808.0 <= f && 0.0 < two && 2.0 * (Product(f, two) - ten) <= two
    ensures 4611686018427387904.0 * two <= ten
  {
    RealMonotone(9223372036854775808.0, f, two);
  }

  lemma ProductsAtLeast(x: real, y: real, a: real, b: real)
    requires 0.0 < a && 0.0 < b && 2048.0 * a <= x && 4611686018427387904.0 * b <= y
    ensures 512.0 * (18446744073709551616.0 * Product(a, b)) <= Product(x, y)
  {
    RealMonotone(2048.0 * a, x, 4611686018427387904.0 * b);
    RealMonotone(4611686018427387904.0 * b, y, x);
    RealAssoc(2048.0, a, 4611686018427387904.0 * b);
    RealAssoc(a, 4611686018427387904.0, b);
  }

  /** A boundary, a decimal a 256th of an ulp away from it, and both scaled. */
  lemma ScaledMargin(a: real, b: real, ulp: real, t: real, u: real)
    requires ulp <= 256.0 * (b - a) && 0.0 < t && 512.0 * u <= Product(ulp, t)
    ensures Product(a, t) + 2.0 * u <= Product(b, t)
  {
    RealMonotone(ulp, 256.0 * (b - a), t);
    assert 256.0 * (b - a) * t == 256.0 * (b * t - a * t);
  }

  /** Such a decimal, scaled, keeps two units away from both scaled ends. */
  lemma InsideScaled(bits: nat, run: Run, digits: string, v: int, k: int)
    requires RunOf(bits, run, digits) && bits < INFINITY && WellInside(bits, v, k)
    ensures var t, u := Ten(run.p), Two(run.lo.e + run.c.e + 64);
            && Product(run.lo.Value(), t) + 2.0 * u <= Product(v as real, Ten(k + run.p))
            && Product(v as real, Ten(k + run.p)) <= Product(run.hi.Value(), t) - 2.0 * u
            && Product(Product(v as real, Ten(k)), t) == Product(v as real, Ten(k + run.p))
  {
    hide *;
    BoundariesAreMidpoints(bits, run, digits);
    UnitIsSmall(bits, run, digits);
    var x, t, u, ulp := Product(v as real, Ten(k)), Ten(run.p), Two(run.lo.e + run.c.e + 64), Ulp(bits);
    InsideBy(bits, v, k);
    ScaledMargin(run.lo.Value(), x, ulp, t, u);
    ScaledMargin(x, run.hi.Value(), ulp, t, u);
    ScaleProduct(Decimal, k, run.p);
    MoveFactor(v as real, Ten(k), t);
    TenIs(k + run.p);
    TenIs(k);
    TenIs(run.p);
  }

  /** No decimal well inside the interval has a coarser last place than the one that is printed. */
  lemma NoShorterInside(bits: nat, run: Run, digits: string, v: int, k: int)
    requires RunOf(bits, run, digits) && bits < INFINITY && WellInside(bits, v, k)
    ensures k <= RunExponent(run)
  {
    hide *;
    InsideScaled(bits, run, digits, v, k);
    NoShorter(bits, run, digits, v, k);
  }

  lemma DistanceScaled(a: real, b: real, k: real)
    requires 0.0 < k
    ensures Distance(Product(a, k), Product(b, k)) == Product(Distance(a, b), k)
  {
    RealStrict(a, b, k);
    RealStrict(b, a, k);
    assert (b - a) * k == b * k - a * k && (a - b) * k == a * k - b * k;
  }

  lemma DistanceUnscaled(d: real, e: real, ulp: real, k: real, t: real)
    requires 0.0 < k && Product(d, k) <= Product(e, k) + 2.0 * t && 512.0 * t <= Product(ulp, k)
    ensures d <= e + ulp / 256.0
  {
    assert (e + ulp / 256.0) * k == e * k + ulp * k / 256.0;
    RealStrict(e + ulp / 256.0, d, k);
  }

  /** And of the decimals with that last place none is closer to the double, up to a 256th of an
      ulp. */
  lemma ClosestPrinted(bits: nat, run: Run, digits: string, z: int)
    requires RunOf(bits, run, digits) && bits < INFINITY && WellInside(bits, z, RunExponent(run))
    ensures AllDigits(digits)
    ensures Distance(Denoted(digits, RunExponent(run)), Value(bits))
         <= Distance(Product(z as real, Ten(RunExponent(run))), Value(bits)) + Ulp(bits) / 256.0
  {
    hide *;
    var k10, k := RunExponent(run), Ten(run.p);
    var s, u := Scale10(run.lo, run.mid, run.hi, run.c), Two(run.lo.e + run.c.e + 64);
    RunParts(bits, run, digits);
    InsideScaled(bits, run, digits, z, k10);
    ScaledWithinOneUlp(run.lo, run.c, run.p);
    ScaledWithinOneUlp(run.hi, run.c, run.p);
    OneMore(Multiply(run.lo, run.c).f, 1, u);
    OneMore(Multiply(run.hi, run.c).f, -1, u);
    BelowAbove(s.lower, z, run.kappa, s.shift);
    BelowAbove(s.upper, z, run.kappa, s.shift);
    IsCandidate(s, run.kappa, z);
    TargetIsNear(bits, run, digits);
    ScaledCloser(s, digits, run.kappa, z, Product(Value(bits), k));
    PowerMoved(digits, k10, run.p);
    DenotedIs(digits, run.kappa);
    TenPositive(run.p);
    DistanceScaled(Denoted(digits, k10), Value(bits), k);
    DistanceScaled(Product(z as real, Ten(k10)), Value(bits), k);
    UnitIsSmall(bits, run, digits);
    DistanceUnscaled(Distance(Denoted(digits, k10), Value(bits)),
                     Distance(Product(z as real, Ten(k10)), Value(bits)), Ulp(bits), k, u);
  }

  lemma IsCandidate(s: Interval, kappa: int, z: int)
    requires !Above(s.lower, z, kappa, s.shift) && !Below(s.upper, z, kappa, s.shift)
    ensures Candidate10(s, kappa, z)
  {
    hide Above, Below;
  }

  lemma TenIs(k: int)
    ensures Ten(k) == Scale(Decimal, k)
  {
  }

  lemma InsideBy(bits: nat, v: int, k: int)
    requires bits < INFINITY && WellInside(bits, v, k)
    ensures var x, ulp := Product(v as real, Ten(k)), Ulp(bits);
            && ulp <= 256.0 * (x - (Value(bits) - ulp / (if bits == HIDDEN then 4.0 else 2.0)))
            && ulp <= 256.0 * (Value(bits) + ulp / 2.0 - x)
  {
    hide Product, Scale, Value, Ulp;
  }

  // ---------------------------------------------------------------- the whole text

  /** The text stands for the double with these bits, up to misreading. */
  ghost predicate Shows(text: string, bits: nat) {
    var negative, magnitude := TWO63 <= bits, bits % TWO63;
    var n := Parse(text);
    && n.Some?
    && if INFINITY < magnitude then n.value == NotANumber(negative)
       else if magnitude == INFINITY then n.value == Infinite(negative)
       else
         && n.value.Finite? && n.value.negative == negative
         && if magnitude == 0 then n.value.mantissa == 0
            else RoundsTo(DecimalValue(n.value.mantissa, n.value.exponent), ReadAs(magnitude))
  }

  function Sign(bits: nat): string {
    if TWO63 <= bits then "-" else ""
  }

  /** Reading takes the sign off. */
  lemma ParseSigned(bits: nat, body: string)
    requires body != [] && body[0] != '-'
    ensures Parse(Sign(bits) + body) ==
      if body == "inf" then Some(Infinite(TWO63 <= bits))
      else if body == "nan" then Some(NotANumber(TWO63 <= bits))
      else if ParseUnsigned(body).None? then None
      else Some(Finite(TWO63 <= bits, ParseUnsigned(body).value.0, ParseUnsigned(body).value.1))
  {
    hide ParseUnsigned;
    assert (Sign(bits) + body)[|Sign(bits)|..] == body;
  }

  lemma ZeroShown(bits: nat)
    requires bits % TWO63 == 0
    ensures Shows(Sign(bits) + "0", bits)
  {
    ParseSigned(bits, "0");
    ParseWhole("0");
    ParsePlain("0");
    assert Num("0") == 0;
    hide ParseUnsigned, Parse, ParseMantissa, Num;
  }

  lemma InfinityShown(bits: nat)
    requires bits % TWO63 == INFINITY
    ensures Shows(Sign(bits) + "inf", bits)
  {
    ParseSigned(bits, "inf");
    hide Parse;
  }

  lemma NanShown(bits: nat)
    requires INFINITY < bits % TWO63
    ensures Shows(Sign(bits) + "nan", bits)
  {
    ParseSigned(bits, "nan");
    hide Parse;
  }

  lemma FiniteShown(bits: nat, digits: string, k10: int)
    requires 0 < bits % TWO63 < INFINITY && 1 <= |digits| <= 17 && AllDigits(digits)
    requires -1000 < |digits| + k10 - 1 < 1000 && RoundsTo(Denoted(digits, k10), ReadAs(bits % TWO63))
    ensures 1 <= |Layout(digits, k10)| && Shows(Sign(bits) + Layout(digits, k10), bits)
  {
    var body := Layout(digits, k10);
    LayoutLength(digits, k10);
    assert IsDigit(body[0]) && body[0] != '-' && body[0] != 'i' && body[0] != 'n';
    assert body != "inf" && body != "nan";
    hide Layout, Parse, RoundsTo, DecimalValue, ReadAs, ParseUnsigned, Num;
    LayoutDenotes(digits, k10);
    ParseSigned(bits, body);
    DenotedIs(digits, k10);
  }

  // ---------------------------------------------------------------- no longer than need be

  /** Nothing in the text could be left out. There is no leading zero; the exponent is there exactly for
      numbers below 10^-6 and from 10^21 on; a fraction does not end in a zero, but for the doubles of
      LeavesZero; and no decimal well inside the interval has a coarser last place. */
  ghost predicate ShortBody(body: string, magnitude: nat)
    requires magnitude < INFINITY
  {
    var n := ParseUnsigned(body);
    && n.Some? && Tidy(body)
    && ('.' in body ==> (IdleZero(body) <==> LeavesZero(magnitude)))
    && var x := DecimalValue(n.value.0, n.value.1);
       && ('e' in body <==> x < Ten(-6) || Ten(21) <= x)
       && exists d: nat, k10: int :: x == DecimalValue(d, k10) && LastPlace(magnitude, d, k10)
  }

  /** The last place of d * 10^k10 is used, no decimal well inside needs only coarser ones, and none with
      that last place is closer to the double by more than a 256th of an ulp. */
  ghost predicate LastPlace(magnitude: nat, d: nat, k10: int)
    requires magnitude < INFINITY
  {
    && 0 < d < Pow(10, 17) && (d % 10 == 0 <==> LeavesZero(magnitude))
    && (forall v: int, k: int :: WellInside(magnitude, v, k) ==> k <= k10)
    && forall z: int :: WellInside(magnitude, z, k10) ==>
         Distance(DecimalValue(d, k10), Value(magnitude))
         <= Distance(Product(z as real, Ten(k10)), Value(magnitude)) + Ulp(magnitude) / 256.0
  }

  ghost predicate ShortText(text: string, bits: nat) {
    var sign, magnitude := Sign(bits), bits % TWO63;
    && (magnitude == 0 ==> text == sign + "0")
    && (0 < magnitude < INFINITY ==> sign <= text && ShortBody(text[|sign|..], magnitude))
  }

  lemma RunDigits(bits: nat, run: Run, digits: string)
    requires RunOf(bits, run, digits)
    ensures AllDigits(digits) && digits != [] && digits[0] != '0'
  {
    hide *;
    RunMade(bits, run, digits);
    MadeDigits(Scale10(run.lo, run.mid, run.hi, run.c), digits, run.kappa);
  }

  lemma LastPlaceIs(bits: nat, run: Run, digits: string, i: int)
    requires RunOf(bits, run, digits) && FromTable(run, i) && |digits| <= 17
    ensures AllDigits(digits) && bits < INFINITY && LastPlace(bits, Num(digits), RunExponent(run))
  {
    hide RunOf, FromTable, WellInside, LeavesZero, Num, Pow, RunExponent, DecimalValue, Scale, Product, Value, Ulp;
    hide Distance;
    RunDigits(bits, run, digits);
    RunBounds(bits, run, digits);
    NumBound(digits);
    NumAtLeast(digits);
    PowPositive(10, |digits| - 1);
    PowMonotone(10, |digits|, 17);
    LastDigitIs(digits);
    ZeroEndIff(bits, run, digits, i);
    forall v: int, k: int | WellInside(bits, v, k) ensures k <= RunExponent(run) {
      NoShorterInside(bits, run, digits, v, k);
    }
    var k10 := RunExponent(run);
    forall z: int | WellInside(bits, z, k10)
      ensures Distance(DecimalValue(Num(digits), k10), Value(bits))
           <= Distance(Product(z as real, Ten(k10)), Value(bits)) + Ulp(bits) / 256.0
    {
      ClosestPrinted(bits, run, digits, z);
    }
  }

  lemma BodyIsShort(bits: nat, run: Run, digits: string, i: int)
    requires RunOf(bits, run, digits) && FromTable(run, i) && 1 <= |digits| <= 17
    requires -1000 < |digits| + RunExponent(run) - 1 < 1000
    ensures bits < INFINITY && ShortBody(Layout(digits, RunExponent(run)), bits)
  {
    hide *;
    var k10 := RunExponent(run);
    RunDigits(bits, run, digits);
    RunBounds(bits, run, digits);
    LayoutDenotes(digits, k10);
    LayoutForms(digits, k10);
    FormsAre(digits, k10);
    ExponentIff(digits, k10);
    ZeroEndIff(bits, run, digits, i);
    LastPlaceIs(bits, run, digits, i);
    IsShortBody(Layout(digits, k10), bits, Num(digits), k10);
  }

  lemma FormsAre(digits: string, k10: int)
    requires digits != [] && -1000 < |digits| + k10 - 1 < 1000 && Forms(digits, k10)
    ensures var body, kk := Layout(digits, k10), |digits| + k10;
            && Tidy(body) && ('e' in body <==> kk <= -6 || 21 < kk)
            && ('.' in body ==> (IdleZero(body) <==> EndsWithZero(digits)))
  {
    hide Layout, Tidy, IdleZero, EndsWithZero;
  }

  lemma IsShortBody(body: string, magnitude: nat, d: nat, k10: int)
    requires magnitude < INFINITY && LastPlace(magnitude, d, k10) && Tidy(body) && ParseUnsigned(body).Some?
    requires '.' in body ==> (IdleZero(body) <==> LeavesZero(magnitude))
    requires var r := ParseUnsigned(body).value; DecimalValue(r.0, r.1) == DecimalValue(d, k10)
    requires 'e' in body <==> DecimalValue(d, k10) < Ten(-6) || Ten(21) <= DecimalValue(d, k10)
    ensures ShortBody(body, magnitude)
  {
    hide LastPlace, Tidy, ParseUnsigned, IdleZero, LeavesZero, DecimalValue, Scale;
  }

  lemma TextIsShort(bits: nat, body: string)
    requires 0 < bits % TWO63 < INFINITY && ShortBody(body, bits % TWO63)
    ensures ShortText(Sign(bits) + body, bits)
  {
    hide ShortBody;
    assert (Sign(bits) + body)[|Sign(bits)|..] == body;
  }

  /** `format_double`: at most 25 characters, from which the reader recovers the double, and none of
      them idle. */
  method FormatDouble(out: array<char>, bits: u64) returns (n: nat)
    requires 25 <= out.Length
    modifies out
    ensures 1 <= n <= 25 && Shows(out[..n], bits) && ShortText(out[..n], bits)
  {
    hide Shows, ShortBody, Layout, RunOf, FromTable, RunExponent, RoundsTo, ReadAs, Denoted, AllDigits;
    var negative := bits / TWO63 != 0;
    var magnitude := bits % TWO63;
    var pos := 0;
    if negative {
      out[pos] := '-';
      pos := pos + 1;
    }
    ghost var sign := out[..pos];
    assert sign == Sign(bits);
    if magnitude == 0 {
      out[pos] := '0';
      assert out[..pos + 1] == sign + "0";
      ZeroShown(bits);
      return pos + 1;
    }
    if magnitude >= INFINITY {
      if magnitude == INFINITY {
        n := Append(out, pos, "inf");
        InfinityShown(bits);
        return;
      }
      n := Append(out, pos, "nan");
      NanShown(bits);
      return;
    }
    var digits := new char[24];
    var len, k10, run, i := Grisu2(magnitude, digits);
    DigitsReadAs(magnitude, run, digits[..len], i);
    n := Prettify(digits, len, k10, out, pos);
    FiniteShown(bits, digits[..len], k10);
    BodyIsShort(magnitude, run, digits[..len], i);
    TextIsShort(bits, Layout(digits[..len], k10));
  }
}
