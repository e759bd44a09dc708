/** What the texts of src/grisu2.cpp look like, whatever layout is chosen: nothing in them could be
    left out. */
module ShortForms {
  import opened Powers
  import opened Digits
  import opened Prettifier

  /** Where the mantissa ends. */
  function MantissaEnd(body: string): (e: nat)
    ensures e <= |body|
  {
    Find(body, 'e')
  }

  /** No leading zero but in front of a point; an exponent has a sign, does not begin with a zero, and
      stands behind one digit, or one digit, a point and more of them. */
  predicate Tidy(body: string) {
    && body != "" && (body[0] == '0' ==> |body| >= 2 && body[1] == '.')
    && ('e' in body ==>
          var e := MantissaEnd(body);
          && 1 <= e && e + 2 < |body| && (body[e + 1] == '+' || body[e + 1] == '-') && body[e + 2] != '0'
          && body[0] != '0' && (e == 1 || body[1] == '.'))
  }

  /** A fraction that ends in a zero. */
  predicate IdleZero(body: string) {
    '.' in body && 0 < MantissaEnd(body) && body[MantissaEnd(body) - 1] == '0'
  }

  // ---------------------------------------------------------------- the layouts

  lemma ExponentBegins(v: nat)
    requires 0 < v < 1000
    ensures ExponentDigits(v)[0] != '0'
  {
  }

  lemma ExponentTextBegins(exp: int)
    requires -1000 < exp < 1000 && exp != 0
    ensures var t := ExponentText(exp); (t[0] == '+' || t[0] == '-') && t[1] != '0'
  {
    ExponentBegins(if exp < 0 then -exp else exp);
  }

  lemma PlainTidy(body: string)
    requires 'e' !in body && body != "" && (body[0] == '0' ==> |body| >= 2 && body[1] == '.')
    ensures Tidy(body) && MantissaEnd(body) == |body|
  {
    FindNone(body, 'e');
  }

  /** A mantissa with an exponent. */
  lemma ScaledTidy(m: string, exp: int)
    requires 'e' !in m && m != "" && m[0] != '0' && (|m| == 1 || m[1] == '.') && -1000 < exp < 1000 && exp != 0
    ensures var s := Scaled(m, exp);
            && Tidy(s) && 'e' in s && MantissaEnd(s) == |m| && s[|m| - 1] == m[|m| - 1]
            && ('.' in m ==> '.' in s)
  {
    var s, t := Scaled(m, exp), ExponentText(exp);
    ExponentTextBegins(exp);
    FindFirst(m, 'e', t);
    hide ExponentText;
    assert s == m + ['e'] + t;
    assert s[|m|] == 'e' && s[|m| + 1] == t[0] && s[|m| + 2] == t[1] && s[0] == m[0] && s[|m| - 1] == m[|m| - 1];
    assert 1 < |m| ==> s[1] == m[1];
    if '.' in m {
      var i :| 0 <= i < |m| && m[i] == '.';
      assert s[i] == '.';
    }
  }

  lemma NoPointInScaled(m: string, exp: int)
    requires '.' !in m && -1000 < exp < 1000
    ensures '.' !in Scaled(m, exp)
  {
    var t := ExponentDigits(if exp < 0 then -exp else exp);
    DigitsAreNot(t, '.');
  }

  /** When there is an exponent, and when there is an idle zero. */
  ghost predicate Forms(digits: string, k10: int)
    requires digits != [] && -1000 < |digits| + k10 - 1 < 1000
  {
    var body, kk := Layout(digits, k10), |digits| + k10;
    && Tidy(body) && ('e' in body <==> kk <= -6 || 21 < kk)
    && ('.' in body ==> (IdleZero(body) <==> EndsWithZero(digits)))
  }

  lemma PaddedForm(digits: string, k10: int)
    requires digits != [] && AllDigits(digits) && digits[0] != '0' && |digits| <= |digits| + k10 <= 21
    ensures Forms(digits, k10)
  {
    var body := digits + Zeros(k10);
    LayoutIs(digits, k10);
    ConcatDigits(digits, Zeros(k10));
    DigitsAreNot(body, 'e');
    DigitsAreNot(body, '.');
    hide Layout, Zeros, Tidy;
    PlainTidy(body);
  }

  lemma PointForm(digits: string, k10: int)
    requires digits != [] && AllDigits(digits) && digits[0] != '0' && 0 < |digits| + k10 <= 21 && k10 < 0
    ensures Forms(digits, k10)
  {
    var kk := |digits| + k10;
    var body := Pointed(digits[..kk], digits[kk..]);
    LayoutIs(digits, k10);
    DigitsAreNot(digits, 'e');
    hide Layout, Tidy;
    assert body[|body| - 1] == digits[|digits| - 1];
    PlainTidy(body);
  }

  lemma SmallForm(digits: string, k10: int)
    requires digits != [] && AllDigits(digits) && digits[0] != '0' && -6 < |digits| + k10 <= 0
    ensures Forms(digits, k10)
  {
    var z := Zeros(-(|digits| + k10));
    var body := Pointed("0", z + digits);
    LayoutIs(digits, k10);
    DigitsAreNot(z, 'e');
    DigitsAreNot(digits, 'e');
    hide Layout, Tidy, Zeros;
    assert body == "0." + z + digits;
    assert body[|body| - 1] == digits[|digits| - 1] && body[1] == '.';
    PlainTidy(body);
  }

  lemma OneDigitForm(digits: string, k10: int)
    requires |digits| == 1 && AllDigits(digits) && digits[0] != '0' && -1000 < k10 < 1000
    requires 1 + k10 <= -6 || 21 < 1 + k10
    ensures Forms(digits, k10)
  {
    LayoutIs(digits, k10);
    DigitsAreNot(digits, 'e');
    DigitsAreNot(digits, '.');
    hide Layout, Tidy, Scaled, AllDigits;
    ScaledTidy(digits, k10);
    NoPointInScaled(digits, k10);
  }

  lemma ManyDigitsMantissa(digits: string)
    requires 1 < |digits| && AllDigits(digits) && digits[0] != '0'
    ensures var m := Pointed(digits[..1], digits[1..]);
            'e' !in m && m != "" && m[0] != '0' && m[1] == '.' && m[|m| - 1] == digits[|digits| - 1] && '.' in m
  {
    DigitsAreNot(digits, 'e');
  }

  lemma ManyDigitsForm(digits: string, k10: int)
    requires 1 < |digits| && AllDigits(digits) && digits[0] != '0' && -1000 < |digits| + k10 - 1 < 1000
    requires |digits| + k10 <= -6 || 21 < |digits| + k10
    ensures Forms(digits, k10)
  {
    hide *;
    LayoutIs(digits, k10);
    ManyDigitsMantissa(digits);
    ScaledTidy(Pointed(digits[..1], digits[1..]), |digits| + k10 - 1);
    IsForm(digits, k10);
  }

  lemma IsForm(digits: string, k10: int)
    requires digits != [] && -1000 < |digits| + k10 - 1 < 1000 && (|digits| + k10 <= -6 || 21 < |digits| + k10)
    requires var body := Layout(digits, k10); var e := MantissaEnd(body);
             Tidy(body) && 'e' in body && '.' in body && 0 < e && body[e - 1] == digits[|digits| - 1]
    ensures Forms(digits, k10)
  {
    hide Layout, MantissaEnd, Tidy;
  }

  lemma LayoutForms(digits: string, k10: int)
    requires digits != [] && AllDigits(digits) && digits[0] != '0' && -1000 < |digits| + k10 - 1 < 1000
    ensures Forms(digits, k10)
  {
    hide *;
    var kk := |digits| + k10;
    if 0 < kk <= 21 {
      if 0 <= k10 { PaddedForm(digits, k10); } else { PointForm(digits, k10); }
    } else if -6 < kk <= 0 {
      SmallForm(digits, k10);
    } else {
      if |digits| == 1 { OneDigitForm(digits, k10); } else { ManyDigitsForm(digits, k10); }
    }
  }

  // ---------------------------------------------------------------- size

  lemma {:induction false} NumAtLeast(s: string)
    requires AllDigits(s) && s != [] && s[0] != '0'
    ensures Pow(10, |s| - 1) <= Num(s)
  {
    if |s| == 1 {
      assert s[..0] == [];
    } else {
      NumAtLeast(s[..|s| - 1]);
    }
  }

  lemma ProductOrdered(x: int, y: int, k: real)
    requires 0.0 < k
    ensures x <= y ==> Product(x as real, k) <= Product(y as real, k)
    ensures x < y ==> Product(x as real, k) < Product(y as real, k)
  {
    if x <= y { RealMonotone(x as real, y as real, k); }
    if x < y { RealStrict(x as real, y as real, k); assert (x as real) < y as real; }
  }

  lemma PowerShifted(n: nat, k: int)
    ensures Ten(n + k) == Product(Pow(10, n) as real, Ten(k))
  {
    hide Scale, Pow, Product;
    ScaleIsPow(Decimal, n);
    ScaleProduct(Decimal, n, k);
  }

  /** The number lies between two powers of ten, given by the place of its first digit. */
  lemma SizeOf(digits: string, k10: int)
    requires AllDigits(digits) && digits != [] && digits[0] != '0'
    ensures Ten(|digits| + k10 - 1) <= DecimalValue(Num(digits), k10) < Ten(|digits| + k10)
  {
    NumAtLeast(digits);
    NumBound(digits);
    hide Pow, Num, Scale, Product;
    PowerShifted(|digits| - 1, k10);
    PowerShifted(|digits|, k10);
    ProductOrdered(Pow(10, |digits| - 1), Num(digits), Ten(k10));
    ProductOrdered(Num(digits), Pow(10, |digits|), Ten(k10));
  }

  lemma {:induction false} TenGrows(a: int, b: int)
    requires a <= b
    ensures Ten(a) <= Ten(b)
    decreases b - a
  {
    if a < b {
      TenGrows(a, b - 1);
      ScaleProduct(Decimal, b - 1, 1);
      assert Ten(1) == 10.0;
      hide Scale;
    }
  }

  /** So the exponent is written exactly for numbers below 10^-6 and from 10^21 on. */
  lemma ExponentIff(digits: string, k10: int)
    requires AllDigits(digits) && digits != [] && digits[0] != '0'
    ensures var kk, x := |digits| + k10, DecimalValue(Num(digits), k10);
            kk <= -6 || 21 < kk <==> x < Ten(-6) || Ten(21) <= x
  {
    var kk := |digits| + k10;
    SizeOf(digits, k10);
    hide Scale, DecimalValue, Num;
    if kk <= -6 { TenGrows(kk, -6); } else { TenGrows(-6, kk - 1); }
    if 21 < kk { TenGrows(21, kk - 1); } else { TenGrows(kk, 21); }
  }

  /** Some texts. */
  lemma LayoutSamples()
    ensures Layout("1", 0) == "1" && Layout("12", 3) == "12000" && Layout("15", -1) == "1.5"
  {
    LayoutIs("1", 0);
    LayoutIs("12", 3);
    LayoutIs("15", -1);
    hide Layout;
    assert Zeros(0) == "" && Zeros(3) == "000";
    assert "15"[..1] == "1" && "15"[1..] == "5";
  }

  lemma MoreSamples()
    ensures Layout("15", -4) == "0.0015" && Layout("1", -7) == "1e-7" && Layout("15", 20) == "1.5e+21"
  {
    LayoutIs("15", -4);
    LayoutIs("1", -7);
    LayoutIs("15", 20);
    hide Layout;
    assert Zeros(2) == "00";
    assert "15"[..1] == "1" && "15"[1..] == "5";
    assert ExponentText(-7) == "-7" && ExponentText(21) == "+21";
  }
}
