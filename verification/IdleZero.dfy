/** A double whose text ends in a zero that stands for nothing: 0x1.0bc033c186e32p-918 is printed as
    4.720138864843750e-277. */
module IdleZeros {
  import opened Powers
  import opened DiyFps
  import opened Digits
  import opened DigitGeneration
  import opened CachedPowers
  import opened Ieee
  import opened Boundaries
  import opened Grisu
  import opened TrailingZeros
  import opened ShortDoubles
  import opened Prettifier

  const IDLE := 0x690_BC03_3C18_6E32
  const LOWER := 0x5A07_8D94_C000_0000
  const TARGET := 0x5A07_8D94_C000_02AF
  const UPPER := 0x5A07_8D94_C000_055F

  function Safe(): Interval {
    Interval(LOWER, TARGET, UPPER, 37)
  }

  lemma IdleIs()
    ensures DoubleToDiy(IDLE) == DiyFp(0x10_BC03_3C18_6E32, -970) && IDLE != HIDDEN
  {
  }

  lemma Eleven()
    ensures Pow(2, 11) == 0x800 && Pow(2, 10) == 0x400
  {
  }

  lemma IdleBounds(bits: nat, lo: DiyFp, mid: DiyFp, hi: DiyFp)
    requires bits == IDLE && Bounded(bits, lo, mid, hi)
    ensures mid == DiyFp(0x85E0_19E0_C371_9000, -981)
    ensures lo == DiyFp(0x85E0_19E0_C371_8C00, -981) && hi == DiyFp(0x85E0_19E0_C371_9400, -981)
  {
    IdleIs();
    Eleven();
    var d := DiyFp(0x10_BC03_3C18_6E32, -970);
    hide DoubleToDiy, Pow;
    NormalizedUnique(mid, DiyFp(0x85E0_19E0_C371_9000, -981), d);
    NormalizedUnique(hi, DiyFp(0x85E0_19E0_C371_9400, -981), UpperHalf(d));
    SameShift(lo, DiyFp(0x85E0_19E0_C371_8C00, -981), LowerHalf(IDLE, d));
  }

  lemma IdlePick(i: int)
    requires 0 <= i < SIZE && Picks(-981, i)
    ensures i == 79 && Entry(i) == DiyFp(0xAC28_20D9_623B_F429, 880) && Exponent10(i) == 284
  {
    assert Picks(-981, 79);
    hide Picks;
    PickUnique(-981, i, 79);
  }

  lemma IdleInterval()
    ensures Scale10(DiyFp(0x85E0_19E0_C371_8C00, -981), DiyFp(0x85E0_19E0_C371_9000, -981),
                    DiyFp(0x85E0_19E0_C371_9400, -981), DiyFp(0xAC28_20D9_623B_F429, 880)) == Safe()
  {
  }

  lemma PowersHere()
    ensures Pow(2, 37) == 0x20_0000_0000 && Pow(10, 7) == 1000_0000 && Pow(10, 8) == 1_0000_0000
  {
    assert FastPow(2, 37) == 0x20_0000_0000;
    hide Pow, FastPow;
    FastPowIsPow(2, 37);
    PowerTable(7);
    PowerTable(8);
  }

  lemma IdleEnds()
    ensures ZeroAt(Safe(), 8)
  {
    PowersHere();
    hide Pow;
    IsZeroAt(Safe(), 8, 472013886484375);
  }

  /** Two numerals of one number, neither with a leading zero, are the same. */
  lemma {:induction false} NumeralUnique(a: string, b: string)
    requires AllDigits(a) && AllDigits(b) && a != [] && b != [] && a[0] != '0' && b[0] != '0' && Num(a) == Num(b)
    ensures a == b
  {
    hide Num;
    var a', b' := a[..|a| - 1], b[..|b| - 1];
    LastTakenOff(a);
    LastTakenOff(b);
    if a' == [] || b' == [] {
      if a' != [] { NonZero(a'); }
      if b' != [] { NonZero(b'); }
    } else {
      NumeralUnique(a', b');
    }
  }

  lemma LastTakenOff(a: string)
    requires AllDigits(a) && a != []
    ensures var a', d := a[..|a| - 1], DigitValue(a[|a| - 1]);
            && AllDigits(a') && Num(a') == Num(a) / 10 && d == Num(a) % 10
            && a == a' + [DigitChar(d)] && (a' == [] ==> Num(a') == 0)
  {
  }

  lemma {:induction false} NonZero(a: string)
    requires AllDigits(a) && a != [] && a[0] != '0'
    ensures 0 < Num(a)
  {
    if |a| != 1 { NonZero(a[..|a| - 1]); }
  }

  lemma FirstEight()
    ensures AllDigits("47201388") && Num("47201388") == 47201388
  {
    EightDigits("47201388");
    hide Num;
  }

  lemma LastEight()
    ensures AllDigits("64843750") && Num("64843750") == 64843750
  {
    EightDigits("64843750");
    hide Num;
  }

  lemma IdleDigits()
    ensures AllDigits("4720138864843750") && Num("4720138864843750") == 4720138864843750
  {
    FirstEight();
    LastEight();
    PowersHere();
    hide Num, AllDigits, Pow;
    NumConcat("47201388", "64843750");
    assert "47201388" + "64843750" == "4720138864843750";
  }

  lemma EightDigits(s: string)
    requires AllDigits(s) && |s| == 8
    ensures Num(s) == 1000_0000 * DigitValue(s[0]) + 100_0000 * DigitValue(s[1]) + 10_0000 * DigitValue(s[2])
                    + 1_0000 * DigitValue(s[3]) + 1000 * DigitValue(s[4]) + 100 * DigitValue(s[5])
                    + 10 * DigitValue(s[6]) + DigitValue(s[7])
  {
    FourDigits(s[..4]);
    FourDigits(s[4..]);
    NumConcat(s[..4], s[4..]);
    assert s == s[..4] + s[4..];
    assert Pow(10, 4) == 1_0000;
    hide Num;
  }

  lemma FourDigits(s: string)
    requires AllDigits(s) && |s| == 4
    ensures Num(s) == 1000 * DigitValue(s[0]) + 100 * DigitValue(s[1]) + 10 * DigitValue(s[2]) + DigitValue(s[3])
  {
    assert s[..1] == [s[0]] && s[..2] == s[..1] + [s[1]] && s[..3] == s[..2] + [s[2]] && s == s[..3] + [s[3]];
    OneDigit(s[0]);
    hide Num;
    NumSnoc(s[..1], s[1]);
    NumSnoc(s[..2], s[2]);
    NumSnoc(s[..3], s[3]);
  }

  /** Every run on this double: the digits end in a zero, and so does the fraction of the text. */
  lemma IdleZeroPrinted(bits: nat, run: Run, digits: string, i: int)
    requires bits == IDLE && RunOf(bits, run, digits) && FromTable(run, i)
    ensures digits == "4720138864843750" && RunExponent(run) == -292 && LeavesZero(bits)
    ensures Layout(digits, RunExponent(run)) == "4.720138864843750e-277"
  {
    hide *;
    RunOfParts(bits, run, digits);
    IdleBounds(bits, run.lo, run.mid, run.hi);
    FromTableParts(run, i);
    IdlePick(i);
    IdleInterval();
    RunMade(bits, run, digits);
    IdleEnds();
    EndMakesZero(Safe(), digits, run.kappa, 8);
    ZeroEndIff(bits, run, digits, i);
    FromTablePlace(run, i);
    IdleValue(digits, run.kappa);
    IdleText();
  }

  lemma FromTablePlace(run: Run, i: int)
    requires FromTable(run, i)
    ensures run.p == Exponent10(i) && RunExponent(run) == run.kappa - run.p
  {
    hide Picks, Entry;
  }

  lemma IdleValue(digits: string, kappa: int)
    requires Made(Safe(), digits, kappa) && kappa == -8 && EndsWithZero(digits)
    ensures digits == "4720138864843750"
  {
    hide *;
    MadeDigits(Safe(), digits, -8);
    LastDigitIs(digits);
    ZeroMeetsEnd(Safe(), digits, 8);
    PowersHere();
    IdleDigits();
    QuotientIs(Num(digits));
    NumeralUnique(digits, "4720138864843750");
  }

  lemma QuotientIs(v: int)
    requires Times(v, Pow(2, Safe().shift)) == Times(Safe().lower, Pow(10, 8))
    ensures v == 4720138864843750
  {
    PowersHere();
    hide Pow;
  }

  lemma IdleExponent()
    ensures ExponentText(-277) == "-277"
  {
    assert ExponentDigits(277) == ['2', '7', '7'];
  }

  lemma IdleMantissa()
    ensures var digits := "4720138864843750";
            |digits| == 16 && Pointed(digits[..1], digits[1..]) == "4.720138864843750"
  {
    assert "4720138864843750"[..1] == "4" && "4720138864843750"[1..] == "720138864843750";
  }

  lemma IdleScaled()
    ensures Scaled("4.720138864843750", -277) == "4.720138864843750e-277"
  {
    IdleExponent();
    hide ExponentText;
  }

  lemma IdleText()
    ensures Layout("4720138864843750", -292) == "4.720138864843750e-277"
  {
    hide *;
    IdleMantissa();
    LayoutIs("4720138864843750", -292);
    IdleScaled();
  }
}
