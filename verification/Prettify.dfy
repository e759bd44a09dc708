/** `prettify` of src/grisu2.cpp, and a reader of decimal numerals to judge it by. */
module Prettifier {
  import opened Common
  import opened Powers
  import opened Digits
  import opened Texts

  // ---------------------------------------------------------------- reading

  datatype Number = Finite(negative: bool, mantissa: nat, exponent: int)
                  | Infinite(negative: bool)
                  | NotANumber(negative: bool)

  /** The first position of c in s, or the length of s. */
  function Find(s: string, c: char): (i: nat)
    ensures i <= |s| && c !in s[..i] && (i < |s| ==> s[i] == c)
  {
    if s == [] || s[0] == c then 0
    else
      var i := Find(s[1..], c);
      assert s[..i + 1] == [s[0]] + s[1..][..i];
      i + 1
  }

  /** sign digit+ */
  function ParseExponent(s: string): Option<int> {
    if |s| < 2 || !AllDigits(s[1..]) then None
    else if s[0] == '+' then Some(Num(s[1..]))
    else if s[0] == '-' then Some(0 - Num(s[1..]))
    else None
  }

  /** digit+ ['.' digit+] */
  function ParseMantissa(s: string): Option<(nat, int)> {
    var d := Find(s, '.');
    var whole, fraction := s[..d], if d < |s| then s[d + 1..] else [];
    if whole == [] || !AllDigits(whole) || !AllDigits(fraction) || (d < |s| && fraction == []) then None
    else Some((Num(whole + fraction), -|fraction|))
  }

  /** mantissa ['e' exponent]: mantissa digits and the power of ten they are scaled by. */
  function ParseUnsigned(s: string): Option<(nat, int)> {
    var e := Find(s, 'e');
    var m := ParseMantissa(s[..e]);
    var x := if e < |s| then ParseExponent(s[e + 1..]) else Some(0);
    if m.None? || x.None? then None
    else Some((m.value.0, m.value.1 + x.value))
  }

  function Parse(s: string): Option<Number> {
    var negative := s != [] && s[0] == '-';
    var body := if negative then s[1..] else s;
    if body == "inf" then Some(Infinite(negative))
    else if body == "nan" then Some(NotANumber(negative))
    else
      var u := ParseUnsigned(body);
      if u.None? then None else Some(Finite(negative, u.value.0, u.value.1))
  }

  // ---------------------------------------------------------------- printing

  function ExponentDigits(v: nat): (s: string)
    requires v < 1000
    ensures AllDigits(s) && 1 <= |s| <= 3
  {
    if 100 <= v then [DigitChar(v / 100), DigitChar(v % 100 / 10), DigitChar(v % 100 % 10)]
    else if 10 <= v then [DigitChar(v / 10), DigitChar(v % 10)]
    else [DigitChar(v)]
  }

  function ExponentText(exp: int): (s: string)
    requires -1000 < exp < 1000
    ensures 2 <= |s| <= 4
  {
    if exp < 0 then "-" + ExponentDigits(-exp) else "+" + ExponentDigits(exp)
  }

  function Pointed(whole: string, fraction: string): string {
    whole + "." + fraction
  }

  function Scaled(m: string, exp: int): string
    requires -1000 < exp < 1000
  {
    m + "e" + ExponentText(exp)
  }

  /** The layouts `prettify` chooses from. */
  function Layout(digits: string, k10: int): string
    requires digits != [] && -1000 < |digits| + k10 - 1 < 1000
  {
    var kk := |digits| + k10;
    if 0 < kk <= 21 then
      if |digits| <= kk then digits + Zeros(kk - |digits|)
      else Pointed(digits[..kk], digits[kk..])
    else if -6 < kk <= 0 then Pointed("0", Zeros(-kk) + digits)
    else if |digits| == 1 then Scaled(digits, kk - 1)
    else Scaled(Pointed(digits[..1], digits[1..]), kk - 1)
  }

  // ---------------------------------------------------------------- reading what was printed

  lemma {:induction false} FindFirst(a: string, c: char, b: string)
    requires c !in a
    ensures Find(a + [c] + b, c) == |a|
  {
    if a == [] {
      assert (a + [c] + b)[0] == c;
    } else {
      assert (a + [c] + b)[1..] == a[1..] + [c] + b;
      FindFirst(a[1..], c, b);
    }
  }

  lemma {:induction false} FindNone(a: string, c: char)
    requires c !in a
    ensures Find(a, c) == |a|
  {
    if a != [] { FindNone(a[1..], c); }
  }

  lemma DigitsAreNot(s: string, c: char)
    requires AllDigits(s) && !IsDigit(c)
    ensures c !in s
  {
  }

  lemma ExponentDigitsValue(v: nat)
    requires v < 1000
    ensures Num(ExponentDigits(v)) == v
  {
    var s := ExponentDigits(v);
    if 100 <= v {
      OneDigit(s[0]);
      NumSnoc(s[..1], s[1]);
      NumSnoc(s[..2], s[2]);
      assert s == s[..2] + [s[2]] && s[..2] == s[..1] + [s[1]] && s[..1] == [s[0]];
    } else if 10 <= v {
      OneDigit(s[0]);
      NumSnoc(s[..1], s[1]);
      assert s == s[..1] + [s[1]] && s[..1] == [s[0]];
    } else {
      OneDigit(s[0]);
    }
  }

  lemma OneDigit(c: char)
    requires IsDigit(c)
    ensures AllDigits([c]) && Num([c]) == DigitValue(c)
  {
    assert [c][..0] == [];
  }

  lemma ExponentRoundTrip(exp: int)
    requires -1000 < exp < 1000
    ensures ParseExponent(ExponentText(exp)) == Some(exp)
  {
    var t := ExponentDigits(if exp < 0 then -exp else exp);
    ExponentDigitsValue(if exp < 0 then -exp else exp);
    assert ExponentText(exp)[1..] == t;
  }

  lemma ParseWhole(whole: string)
    requires whole != [] && AllDigits(whole)
    ensures ParseMantissa(whole) == Some((Num(whole), 0)) && 'e' !in whole
  {
    DigitsAreNot(whole, '.');
    DigitsAreNot(whole, 'e');
    FindNone(whole, '.');
    assert whole[..|whole|] == whole && whole + [] == whole;
  }

  lemma ParsePoint(whole: string, fraction: string)
    requires whole != [] && AllDigits(whole) && fraction != [] && AllDigits(fraction)
    ensures ParseMantissa(Pointed(whole, fraction)) == Some((Num(whole + fraction), -|fraction|))
    ensures 'e' !in Pointed(whole, fraction)
  {
    var s := whole + "." + fraction;
    DigitsAreNot(whole, '.');
    DigitsAreNot(whole, 'e');
    DigitsAreNot(fraction, 'e');
    FindFirst(whole, '.', fraction);
    assert s[..|whole|] == whole && s[|whole| + 1..] == fraction;
  }

  lemma ParsePlain(m: string)
    requires 'e' !in m
    ensures ParseUnsigned(m) == ParseMantissa(m)
  {
    FindNone(m, 'e');
    assert m[..|m|] == m;
  }

  lemma ParseScientific(m: string, exp: int)
    requires 'e' !in m && -1000 < exp < 1000 && ParseMantissa(m).Some?
    ensures ParseUnsigned(Scaled(m, exp)) == Some((ParseMantissa(m).value.0, ParseMantissa(m).value.1 + exp))
  {
    hide ParseUnsigned, ParseMantissa, ParseExponent, ExponentText, Find;
    var t := ExponentText(exp);
    var s := m + "e" + t;
    assert s == Scaled(m, exp);
    hide *;
    FindFirst(m, 'e', t);
    ExponentRoundTrip(exp);
    assert s[..|m|] == m && s[|m| + 1..] == t;
    UnsignedWithExponent(s, |m|);
  }

  lemma UnsignedWithExponent(s: string, e: nat)
    requires Find(s, 'e') == e < |s| && ParseMantissa(s[..e]).Some? && ParseExponent(s[e + 1..]).Some?
    ensures ParseUnsigned(s) == Some((ParseMantissa(s[..e]).value.0,
                                      ParseMantissa(s[..e]).value.1 + ParseExponent(s[e + 1..]).value))
  {
    hide ParseMantissa, ParseExponent, Find;
  }

  lemma PaddedValue(digits: string, k: nat)
    requires AllDigits(digits)
    ensures DecimalValue(Num(digits + Zeros(k)), 0) == DecimalValue(Num(digits), k)
  {
    hide Scale, Num, Pow, Zeros, Product;
    NumConcat(digits, Zeros(k));
    NumZeros(k);
    ScaleIsPow(Decimal, k);
    ScaleIsPow(Decimal, 0);
    PowZero();
    MovePower(Num(digits), Pow(10, k));
  }

  lemma PowZero()
    ensures Pow(10, 0) == 1
  {
  }

  lemma MovePower(m: int, p: int)
    ensures Product((m * p) as real, 1.0) == Product(m as real, p as real)
  {
    ProductAsReal(m, p);
  }

  lemma LeadingZeros(digits: string, n: nat)
    requires AllDigits(digits)
    ensures Num("0" + (Zeros(n) + digits)) == Num(digits)
  {
    NumConcat("0", Zeros(n) + digits);
    NumConcat(Zeros(n), digits);
    NumZeros(n);
    assert "0"[..0] == [];
    assert Num("0") == 0;
    hide Num, Pow;
  }

  /** Whatever layout is chosen, the text denotes exactly Num(digits) * 10^k10. */
  lemma LayoutDenotes(digits: string, k10: int)
    requires digits != [] && AllDigits(digits) && -1000 < |digits| + k10 - 1 < 1000
    ensures ParseUnsigned(Layout(digits, k10)).Some?
    ensures var r := ParseUnsigned(Layout(digits, k10)).value;
            DecimalValue(r.0, r.1) == DecimalValue(Num(digits), k10)
  {
    hide *;
    var kk := |digits| + k10;
    if 0 < kk <= 21 {
      if |digits| <= kk { LayoutPadded(digits, k10); } else { LayoutPoint(digits, k10); }
    } else if -6 < kk <= 0 {
      LayoutSmall(digits, k10);
    } else {
      LayoutScientific(digits, k10);
    }
  }

  lemma LayoutIs(digits: string, k10: int)
    requires digits != [] && -1000 < |digits| + k10 - 1 < 1000
    ensures var kk := |digits| + k10; var s := Layout(digits, k10);
            && (0 < kk <= 21 && 0 <= k10 ==> s == digits + Zeros(k10))
            && (0 < kk <= 21 && k10 < 0 ==> s == Pointed(digits[..kk], digits[kk..]))
            && (-6 < kk <= 0 ==> s == Pointed("0", Zeros(-kk) + digits))
            && ((kk <= -6 || 21 < kk) && |digits| == 1 ==> s == Scaled(digits, kk - 1))
            && ((kk <= -6 || 21 < kk) && |digits| != 1 ==> s == Scaled(Pointed(digits[..1], digits[1..]), kk - 1))
  {
    hide Pointed, Scaled, Zeros;
  }

  lemma ZeroIsDigit()
    ensures AllDigits("0")
  {
  }

  lemma LayoutPadded(digits: string, k10: int)
    requires digits != [] && AllDigits(digits) && |digits| <= |digits| + k10 <= 21
    ensures ParseUnsigned(Layout(digits, k10)) == Some((Num(digits + Zeros(k10)), 0))
    ensures DecimalValue(Num(digits + Zeros(k10)), 0) == DecimalValue(Num(digits), k10)
  {
    hide *;
    LayoutIs(digits, k10);
    ConcatDigits(digits, Zeros(k10));
    ParseWhole(digits + Zeros(k10));
    ParsePlain(digits + Zeros(k10));
    PaddedValue(digits, k10);
  }

  lemma ConcatDigits(s: string, t: string)
    requires AllDigits(s) && AllDigits(t)
    ensures AllDigits(s + t)
  {
  }

  lemma LayoutPoint(digits: string, k10: int)
    requires digits != [] && AllDigits(digits) && 0 < |digits| + k10 <= 21 && k10 < 0
    ensures ParseUnsigned(Layout(digits, k10)) == Some((Num(digits), k10))
  {
    hide *;
    LayoutIs(digits, k10);
    var kk := |digits| + k10;
    SplitDigits(digits, kk);
    ParsePoint(digits[..kk], digits[kk..]);
    ParsePlain(Pointed(digits[..kk], digits[kk..]));
  }

  lemma LayoutSmall(digits: string, k10: int)
    requires digits != [] && AllDigits(digits) && -6 < |digits| + k10 <= 0
    ensures ParseUnsigned(Layout(digits, k10)) == Some((Num(digits), k10))
  {
    hide *;
    LayoutIs(digits, k10);
    ZeroIsDigit();
    var z := Zeros(-(|digits| + k10));
    ConcatDigits(z, digits);
    ParsePoint("0", z + digits);
    ParsePlain(Pointed("0", z + digits));
    LeadingZeros(digits, |z|);
  }

  lemma LayoutScientific(digits: string, k10: int)
    requires digits != [] && AllDigits(digits) && -1000 < |digits| + k10 - 1 < 1000
    requires |digits| + k10 <= -6 || 21 < |digits| + k10
    ensures ParseUnsigned(Layout(digits, k10)) == Some((Num(digits), k10))
  {
    var exp := |digits| + k10 - 1;
    hide *;
    LayoutIs(digits, k10);
    if |digits| == 1 {
      ParseWhole(digits);
      ParseScientific(digits, exp);
    } else {
      SplitDigits(digits, 1);
      ParsePoint(digits[..1], digits[1..]);
      ParseScientific(Pointed(digits[..1], digits[1..]), exp);
    }
  }

  lemma SplitDigits(digits: string, k: nat)
    requires 0 < k < |digits| && AllDigits(digits)
    ensures AllDigits(digits[..k]) && AllDigits(digits[k..]) && digits[..k] + digits[k..] == digits
    ensures digits[..k] != [] && digits[k..] != []
  {
  }

  lemma LayoutLength(digits: string, k10: int)
    requires 1 <= |digits| <= 17 && AllDigits(digits) && -1000 < |digits| + k10 - 1 < 1000
    ensures 1 <= |Layout(digits, k10)| <= 24 && IsDigit(Layout(digits, k10)[0])
  {
  }

  // ---------------------------------------------------------------- writing into the output

  /** memcpy of s to the end of what has been written so far. */
  method Append(out: array<char>, end: nat, s: string) returns (end': nat)
    requires end + |s| <= out.Length
    modifies out
    ensures end' == end + |s| && out[..end'] == old(out[..end]) + s
  {
    for i := 0 to |s|
      invariant out[..end + i] == old(out[..end]) + s[..i]
    {
      out[end + i] := s[i];
      assert out[..end + i + 1] == out[..end + i] + [s[i]];
    }
    assert s[..|s|] == s;
    end' := end + |s|;
  }

  method AppendZeros(out: array<char>, end: nat, n: nat) returns (end': nat)
    requires end + n <= out.Length
    modifies out
    ensures end' == end + n && out[..end'] == old(out[..end]) + Zeros(n)
  {
    for i := 0 to n
      invariant out[..end + i] == old(out[..end]) + Zeros(i)
    {
      out[end + i] := '0';
      assert out[..end + i + 1] == out[..end + i] + ['0'];
      assert Zeros(i + 1) == Zeros(i) + ['0'];
    }
    end' := end + n;
  }

  method AppendMagnitude(out: array<char>, end: nat, v: nat) returns (end': nat)
    requires v < 1000 && end + 3 <= out.Length
    modifies out
    ensures end' == end + |ExponentDigits(v)| && out[..end'] == old(out[..end]) + ExponentDigits(v)
  {
    var exp := v;
    if exp >= 100 {
      end' := Append(out, end, [DigitChar(exp / 100)]);
      exp := exp % 100;
      end' := Append(out, end', [DigitChar(exp / 10)]);
      end' := Append(out, end', [DigitChar(exp % 10)]);
    } else if exp >= 10 {
      end' := Append(out, end, [DigitChar(exp / 10)]);
      end' := Append(out, end', [DigitChar(exp % 10)]);
    } else {
      end' := Append(out, end, [DigitChar(exp)]);
    }
  }

  method AppendExponent(out: array<char>, end: nat, exp: int) returns (end': nat)
    requires -1000 < exp < 1000 && end + 4 <= out.Length
    modifies out
    ensures end' == end + |ExponentText(exp)| && out[..end'] == old(out[..end]) + ExponentText(exp)
  {
    hide ExponentDigits;
    end' := Append(out, end, if exp < 0 then "-" else "+");
    end' := AppendMagnitude(out, end', if exp < 0 then -exp else exp);
    assert out[..end'] == old(out[..end]) + ExponentText(exp);
  }

  /** a, a point, b. */
  method AppendPointed(out: array<char>, end: nat, a: string, b: string) returns (end': nat)
    requires end + |a| + 1 + |b| <= out.Length
    modifies out
    ensures end' == end + |a| + 1 + |b| && out[..end'] == old(out[..end]) + Pointed(a, b)
  {
    end' := Append(out, end, a);
    end' := Append(out, end', ".");
    end' := Append(out, end', b);
    assert out[..end'] == old(out[..end]) + Pointed(a, b);
  }

  /** m, the letter e, the exponent. */
  method AppendScaled(out: array<char>, end: nat, exp: int, ghost before: string, ghost m: string) returns (end': nat)
    requires -1000 < exp < 1000 && end + 5 <= out.Length && out[..end] == before + m
    modifies out
    ensures end' == end + 1 + |ExponentText(exp)| && out[..end'] == before + Scaled(m, exp)
  {
    hide ExponentText;
    end' := Append(out, end, "e");
    end' := AppendExponent(out, end', exp);
    assert out[..end'] == before + m + "e" + ExponentText(exp);
    Regroup(before, m, "e");
    Regroup(before, m + "e", ExponentText(exp));
  }

  /** `prettify`, writing behind the first `end` characters of out. */
  method Prettify(buffer: array<char>, len: nat, k10: int, out: array<char>, end: nat) returns (end': nat)
    requires 1 <= len <= 17 && len <= buffer.Length && AllDigits(buffer[..len])
    requires -1000 < len + k10 - 1 < 1000 && end + 24 <= out.Length
    modifies out
    ensures end <= end' <= end + 24
    ensures out[..end'] == old(out[..end]) + Layout(old(buffer[..len]), k10)
  {
    hide AllDigits, ExponentText, Zeros, Pointed, Scaled;
    var digits := buffer[..len];
    ghost var before := out[..end];
    LayoutLength(digits, k10);
    var kk := len + k10;
    assert kk - 1 == len + k10 - 1;
    if kk > 0 && kk <= 21 {
      if len <= kk {
        end' := Append(out, end, digits);
        end' := AppendZeros(out, end', kk - len);
        Regroup(before, digits, Zeros(kk - len));
        return;
      }
      end' := AppendPointed(out, end, digits[..kk], digits[kk..]);
      return;
    }
    if kk <= 0 && kk > -6 {
      end' := Append(out, end, "0.");
      end' := AppendZeros(out, end', -kk);
      end' := Append(out, end', digits);
      RegroupSmall(before, Zeros(-kk), digits);
      return;
    }
    if len == 1 {
      end' := Append(out, end, digits);
      end' := AppendScaled(out, end', kk - 1, before, digits);
      return;
    }
    end' := AppendPointed(out, end, digits[..1], digits[1..]);
    end' := AppendScaled(out, end', kk - 1, before, Pointed(digits[..1], digits[1..]));
  }

  lemma RegroupSmall(p: string, z: string, digits: string)
    ensures p + "0." + z + digits == p + Pointed("0", z + digits)
  {
  }
}
