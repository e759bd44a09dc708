/** The doubles whose digits end in an idle zero: a property of the bits alone. */
module ShortDoubles {
  import opened Powers
  import opened DiyFps
  import opened Digits
  import opened DigitGeneration
  import opened CachedPowers
  import opened Ieee
  import opened Boundaries
  import opened Grisu
  import opened TrailingZeros

  /** The safe interval of the double meets TrailingZeros.EndsInZero. */
  ghost predicate LeavesZero(bits: nat) {
    exists lo, mid, hi, i :: ZeroInterval(bits, lo, mid, hi, i)
  }

  ghost predicate ZeroInterval(bits: nat, lo: DiyFp, mid: DiyFp, hi: DiyFp, i: int) {
    && Bounded(bits, lo, mid, hi) && 0 <= i < SIZE && Picks(hi.e, i)
    && var s := Scale10(lo, mid, hi, Entry(i)); 0 <= s.shift && EndsInZero(s)
  }

  lemma SameShift(x: DiyFp, y: DiyFp, v: DiyFp)
    requires ShiftOf(x, v) && ShiftOf(y, v) && x.e == y.e
    ensures x == y
  {
    hide Pow;
  }

  /** Boundaries and cached power are determined by the double. */
  lemma OneInterval(bits: nat, lo: DiyFp, mid: DiyFp, hi: DiyFp, i: int, lo': DiyFp, mid': DiyFp, hi': DiyFp, i': int)
    requires Bounded(bits, lo, mid, hi) && Bounded(bits, lo', mid', hi')
    requires 0 <= i < SIZE && 0 <= i' < SIZE && Picks(hi.e, i) && Picks(hi'.e, i')
    ensures lo == lo' && mid == mid' && hi == hi' && i == i'
  {
    var d := DoubleToDiy(bits);
    hide Normalized, ShiftOf, DoubleToDiy, Picks;
    NormalizedUnique(mid, mid', d);
    NormalizedUnique(hi, hi', UpperHalf(d));
    SameShift(lo, lo', LowerHalf(bits, d));
    PickUnique(hi.e, i, i');
  }

  lemma RunMade(bits: nat, run: Run, digits: string)
    requires RunOf(bits, run, digits)
    ensures Made(Scale10(run.lo, run.mid, run.hi, run.c), digits, run.kappa)
    ensures 0 <= Scale10(run.lo, run.mid, run.hi, run.c).shift
  {
    hide *;
    RunOfParts(bits, run, digits);
    var half := BoundedIsAligned(bits, run.lo, run.mid, run.hi);
    SafeInterval(bits, run.lo, run.mid, run.hi, run.c, half);
    IsMade(Scale10(run.lo, run.mid, run.hi, run.c), digits, run.kappa);
  }

  lemma IsMade(s: Interval, digits: string, kappa: int)
    requires 0 <= s.shift && s.lower <= s.target <= s.upper
    requires Generated(s.upper, s.target, s.upper - s.lower, s.shift, digits, kappa)
    ensures Made(s, digits, kappa)
  {
    hide Generated;
  }

  /** The digits of a double end in a zero exactly if it is one of those. */
  lemma ZeroEndIff(bits: nat, run: Run, digits: string, i: int)
    requires RunOf(bits, run, digits) && FromTable(run, i)
    ensures EndsWithZero(digits) <==> LeavesZero(bits)
  {
    hide *;
    RunOfParts(bits, run, digits);
    RunMade(bits, run, digits);
    FromTableParts(run, i);
    ZeroIff(Scale10(run.lo, run.mid, run.hi, run.c), digits, run.kappa);
    ThisInterval(bits, run.lo, run.mid, run.hi, i);
  }

  lemma FromTableParts(run: Run, i: int)
    requires FromTable(run, i)
    ensures 0 <= i < SIZE && Picks(run.hi.e, i) && run.c == Entry(i)
  {
    hide Picks, Entry;
  }

  lemma ThisInterval(bits: nat, lo: DiyFp, mid: DiyFp, hi: DiyFp, i: int)
    requires Bounded(bits, lo, mid, hi) && 0 <= i < SIZE && Picks(hi.e, i)
    requires 0 <= Scale10(lo, mid, hi, Entry(i)).shift
    ensures LeavesZero(bits) <==> EndsInZero(Scale10(lo, mid, hi, Entry(i)))
  {
    hide Bounded, Picks, Entry, Scale10, EndsInZero;
    var s := Scale10(lo, mid, hi, Entry(i));
    if LeavesZero(bits) {
      var lo', mid', hi', i' :| ZeroInterval(bits, lo', mid', hi', i');
      OneInterval(bits, lo, mid, hi, i, lo', mid', hi', i');
    }
    if EndsInZero(s) { assert ZeroInterval(bits, lo, mid, hi, i); }
  }
}
