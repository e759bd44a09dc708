/** The 64-bit "do it yourself" floating-point numbers of src/grisu2.cpp: f * 2^e. */
module DiyFps {
  import opened Powers

  /** A 64-bit word. An assignment to one carries the obligation that nothing wraps. */
  type u64 = x: int | 0 <= x < 0x1_0000_0000_0000_0000
  type u32 = x: int | 0 <= x < 0x1_0000_0000

  datatype DiyFp = DiyFp(f: u64, e: int) {
    function Value(): real { Product(f as real, Two(e)) }
  }

  function Subtract(x: DiyFp, y: DiyFp): (r: DiyFp)
    requires y.f <= x.f
    ensures r.f + y.f == x.f && r.e == x.e
  {
    DiyFp(x.f - y.f, x.e)
  }

  lemma WordProduct(x: int, y: int)
    requires 0 <= x < TWO32 && 0 <= y < TWO32
    ensures 0 <= x * y <= (TWO32 - 1) * (TWO32 - 1)
  {
    MulMonotone(0, x, y);
    MulMonotone(x, TWO32 - 1, y);
    assert (TWO32 - 1) * y <= (TWO32 - 1) * (TWO32 - 1);
  }

  lemma {:induction false} ExpandProduct(a: int, b: int, c: int, d: int)
    ensures (a * TWO32 + b) * (c * TWO32 + d) == a * c * TWO64 + (a * d + b * c) * TWO32 + b * d
  {
    calc {
      (a * TWO32 + b) * (c * TWO32 + d);
      (a * TWO32) * (c * TWO32 + d) + b * (c * TWO32 + d);
      a * TWO32 * c * TWO32 + a * TWO32 * d + b * c * TWO32 + b * d;
    }
  }

  /** Adding up the four partial products by halves rounds their exact sum once. */
  lemma SumOfPartials(ac: nat, ad: nat, bc: nat, bd: nat)
    ensures ac + ad / TWO32 + bc / TWO32 + (bd / TWO32 + ad % TWO32 + bc % TWO32 + TWO31) / TWO32
         == (ac * TWO64 + (ad + bc) * TWO32 + bd + TWO63) / TWO64
  {
    var h := bd / TWO32 + ad % TWO32 + bc % TWO32 + TWO31;
    var exact := ac * TWO64 + (ad + bc) * TWO32 + bd + TWO63;
    var q := ac + ad / TWO32 + bc / TWO32 + h / TWO32;
    assert exact == q * TWO64 + (h % TWO32) * TWO32 + bd % TWO32;
    assert q * TWO64 <= exact < (q + 1) * TWO64;
  }

  /** The product is rounded to nearest, halves upwards, and no partial sum wraps. */
  function Multiply(x: DiyFp, y: DiyFp): (r: DiyFp)
    ensures r.f == (x.f * y.f + TWO63) / TWO64
    ensures r.e == x.e + y.e + 64
  {
    var a: u32, b: u32 := x.f / TWO32, x.f % TWO32;
    var c: u32, d: u32 := y.f / TWO32, y.f % TWO32;
    WordProduct(a, c); WordProduct(b, c); WordProduct(a, d); WordProduct(b, d);
    var ac: u64 := a * c;
    var bc: u64 := b * c;
    var ad: u64 := a * d;
    var bd: u64 := b * d;
    var mid: u64 := bd / TWO32 + ad % TWO32 + bc % TWO32;
    var rounded: u64 := mid + TWO31;
    ExpandProduct(a, b, c, d);
    SumOfPartials(ac, ad, bc, bd);
    DiyFp(ac + ad / TWO32 + bc / TWO32 + rounded / TWO32, x.e + y.e + 64)
  }

  /** r is v shifted left: the same number. */
  ghost predicate ShiftOf(r: DiyFp, v: DiyFp) {
    r.e <= v.e && r.f == v.f * Pow(2, v.e - r.e)
  }

  lemma ShiftMore(r: DiyFp, v: DiyFp, k: nat)
    requires ShiftOf(r, v) && r.f * Pow(2, k) < TWO64
    ensures ShiftOf(DiyFp(r.f * Pow(2, k), r.e - k), v)
  {
    PowAdd(2, v.e - r.e, k);
    Assoc(v.f, Pow(2, v.e - r.e), Pow(2, k));
  }

  lemma ShiftTrans(r: DiyFp, s: DiyFp, v: DiyFp)
    requires ShiftOf(r, s) && ShiftOf(s, v)
    ensures ShiftOf(r, v)
  {
    PowAdd(2, v.e - s.e, s.e - r.e);
    Assoc(v.f, Pow(2, v.e - s.e), Pow(2, s.e - r.e));
  }

  lemma ShiftKeepsValue(r: DiyFp, v: DiyFp)
    requires ShiftOf(r, v)
    ensures r.Value() == v.Value()
  {
    hide Scale;
    var k := v.e - r.e;
    ScaleIsPow(Binary, k);
    ScaleAdd(Binary, k, r.e);
    ProductAsReal(v.f, Pow(2, k));
    RealAssoc(v.f as real, Pow(2, k) as real, Two(r.e));
  }

  predicate Normalized(v: DiyFp) {
    TWO63 <= v.f
  }

  /** The test `f & 0xFFC0000000000000`: one of the ten top bits is set. */
  predicate TopTenBits(f: u64) {
    f / 0x40_0000_0000_0000 != 0
  }

  /** The test `f & 2^63`. */
  predicate TopBit(f: u64) {
    f / TWO63 % 2 == 1
  }

  /** The test `f & 2^62`. */
  predicate SecondBit(f: u64) {
    f / 0x4000_0000_0000_0000 % 2 == 1
  }

  /** Shift left one place at a time until the top bit is set. */
  method ShiftToTop(v: DiyFp) returns (r: DiyFp)
    requires 0 < v.f
    ensures Normalized(r) && ShiftOf(r, v)
  {
    r := v;
    while !TopBit(r.f)
      invariant 0 < r.f && ShiftOf(r, v)
      decreases TWO64 - r.f
    {
      ShiftMore(r, v, 1);
      r := DiyFp(r.f * 2, r.e - 1);
    }
  }

  method Normalize(v: DiyFp) returns (r: DiyFp)
    requires 0 < v.f
    ensures Normalized(r) && ShiftOf(r, v)
  {
    r := v;
    while !TopTenBits(r.f)
      invariant 0 < r.f && ShiftOf(r, v)
      decreases TWO64 - r.f
    {
      assert Pow(2, 10) == 1024;
      ShiftMore(r, v, 10);
      r := DiyFp(r.f * 1024, r.e - 10);
    }
    var s := r;
    r := ShiftToTop(s);
    ShiftTrans(r, s, v);
  }

  method NormalizeBoundary(v: DiyFp) returns (r: DiyFp)
    requires 0 < v.f < TWO63
    ensures Normalized(r) && ShiftOf(r, v)
  {
    r := v;
    while !SecondBit(r.f)
      invariant 0 < r.f < TWO63 && ShiftOf(r, v)
      decreases TWO64 - r.f
    {
      ShiftMore(r, v, 1);
      r := DiyFp(r.f * 2, r.e - 1);
    }
    ShiftMore(r, v, 1);
    r := DiyFp(r.f * 2, r.e - 1);  // shift into top
    var s := r;
    r := ShiftToTop(s);
    ShiftTrans(r, s, v);
  }

  /** There is only one way to normalise. */
  lemma NormalizedUnique(r: DiyFp, s: DiyFp, v: DiyFp)
    requires ShiftOf(r, v) && ShiftOf(s, v) && Normalized(r) && Normalized(s)
    ensures r == s
  {
    if r.e < s.e {
      ShiftGrows(r, s, v);
    } else if s.e < r.e {
      ShiftGrows(s, r, v);
    }
  }

  lemma ShiftGrows(r: DiyFp, s: DiyFp, v: DiyFp)
    requires ShiftOf(r, v) && ShiftOf(s, v) && r.e < s.e
    ensures r.f == s.f * Pow(2, s.e - r.e) && 2 * s.f <= r.f
  {
    PowAdd(2, v.e - s.e, s.e - r.e);
    Assoc(v.f, Pow(2, v.e - s.e), Pow(2, s.e - r.e));
    PowMonotone(2, 1, s.e - r.e);
    MulMonotone(2, Pow(2, s.e - r.e), s.f);
  }
}
