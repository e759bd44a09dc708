/** Powers of a base, as naturals and (for negative exponents too) as reals. */
module Powers {

  const TWO31 := 0x8000_0000
  const TWO32 := 0x1_0000_0000
  const TWO63 := 0x8000_0000_0000_0000
  const TWO64 := 0x1_0000_0000_0000_0000

  function Pow(b: nat, n: nat): nat {
    if n == 0 then 1 else b * Pow(b, n - 1)
  }

  lemma {:induction false} PowPositive(b: nat, n: nat)
    requires 0 < b
    ensures 0 < Pow(b, n)
  {
    if n != 0 { PowPositive(b, n - 1); }
  }

  lemma {:induction false} PowAdd(b: nat, m: nat, n: nat)
    ensures Pow(b, m + n) == Pow(b, m) * Pow(b, n)
  {
    if m != 0 {
      PowAdd(b, m - 1, n);
      Assoc(b, Pow(b, m - 1), Pow(b, n));
    }
  }

  /** A product the solver does not look into where `Times` is hidden. */
  function Times(x: int, y: int): int {
    x * y
  }

  lemma Assoc(x: int, y: int, z: int)
    ensures x * (y * z) == (x * y) * z
  {
  }

  lemma MulMonotone(x: int, y: int, k: int)
    requires x <= y && 0 <= k
    ensures x * k <= y * k && k * x <= k * y
  {
  }

  lemma MulStrict(x: int, y: int, k: int)
    requires x < y && 0 < k
    ensures x * k < y * k && k * x < k * y
  {
  }

  lemma PowMonotone(b: nat, m: nat, n: nat)
    requires 0 < b && m <= n
    ensures Pow(b, m) <= Pow(b, n)
  {
    PowAdd(b, m, n - m);
    PowPositive(b, m);
    PowPositive(b, n - m);
    MulMonotone(1, Pow(b, n - m), Pow(b, m));
  }

  /** The power again by repeated squaring: the form in which constants are evaluated. */
  function FastPow(b: nat, n: nat): nat {
    if n == 0 then 1
    else
      var h := FastPow(b, n / 2);
      if n % 2 == 0 then h * h else b * (h * h)
  }

  lemma {:induction false} FastPowIsPow(b: nat, n: nat)
    ensures FastPow(b, n) == Pow(b, n)
  {
    if n != 0 {
      FastPowIsPow(b, n / 2);
      PowAdd(b, n / 2, n / 2);
      if n % 2 != 0 { assert n - 1 == n / 2 + n / 2; }
    }
  }

  /** The two radices in play; multiplication by either is multiplication by a literal. */
  datatype Radix = Binary | Decimal {
    function Base(): nat { if Binary? then 2 else 10 }

    function Up(x: real): (r: real)
      ensures 0.0 < x ==> 0.0 < r
    {
      if Binary? then 2.0 * x else 10.0 * x
    }

    function Down(x: real): (r: real)
      ensures 0.0 < x ==> 0.0 < r
      ensures Up(r) == x
    {
      if Binary? then x / 2.0 else x / 10.0
    }
  }

  /** radix to the k for any integer k. */
  function Scale(b: Radix, k: int): (r: real)
    ensures 0.0 < r
    decreases if 0 <= k then k else -k
  {
    if k == 0 then 1.0
    else if 0 < k then b.Up(Scale(b, k - 1))
    else b.Down(Scale(b, k + 1))
  }

  function Two(k: int): (r: real)
    ensures 0.0 < r
  {
    Scale(Binary, k)
  }

  function Ten(k: int): (r: real)
    ensures 0.0 < r
  {
    Scale(Decimal, k)
  }

  lemma ScaleStep(b: Radix, k: int)
    ensures Scale(b, k + 1) == b.Up(Scale(b, k))
  {
  }

  /** A product the solver does not look into where `Product` is hidden. */
  function Product(x: real, y: real): real {
    x * y
  }

  lemma ProductUp(b: Radix, x: real, y: real)
    ensures Product(b.Up(x), y) == b.Up(Product(x, y))
  {
    if b.Binary? { RealAssoc(2.0, x, y); } else { RealAssoc(10.0, x, y); }
  }

  lemma {:induction false} ScaleProduct(b: Radix, j: int, k: int)
    ensures Scale(b, j + k) == Product(Scale(b, j), Scale(b, k))
    decreases if 0 <= j then j else -j
  {
    if j == 0 { assert Scale(b, 0) == 1.0; }
    hide Product;
    if 0 < j {
      ScaleProduct(b, j - 1, k);
      ScaleStep(b, j - 1);
      ScaleStep(b, j - 1 + k);
      ProductUp(b, Scale(b, j - 1), Scale(b, k));
    } else if j < 0 {
      ScaleProduct(b, j + 1, k);
      ScaleStep(b, j);
      ScaleStep(b, j + k);
      ProductUp(b, Scale(b, j), Scale(b, k));
    }
  }

  /** Scale is a homomorphism from (int, +) to (real, *). */
  lemma ScaleAdd(b: Radix, j: int, k: int)
    ensures Scale(b, j + k) == Scale(b, j) * Scale(b, k)
  {
    hide Scale;
    ScaleProduct(b, j, k);
  }

  lemma {:induction false} ScaleIsPow(b: Radix, n: nat)
    ensures Scale(b, n) == Pow(b.Base(), n) as real
  {
    if n != 0 { ScaleIsPow(b, n - 1); }
  }

  lemma ScaleInverse(b: Radix, k: int)
    ensures Product(Scale(b, k), Scale(b, -k)) == 1.0
  {
    assert Scale(b, 0) == 1.0;
    hide Scale, Product;
    ScaleProduct(b, k, -k);
    assert k + -k == 0;
  }

  lemma ProductAsReal(x: int, y: int)
    ensures (x * y) as real == (x as real) * (y as real)
  {
  }

  lemma RealAssoc(x: real, y: real, z: real)
    ensures x * (y * z) == (x * y) * z
  {
  }

  lemma RealMonotone(x: real, y: real, k: real)
    requires x <= y && 0.0 <= k
    ensures x * k <= y * k
  {
  }

  lemma RealStrict(x: real, y: real, k: real)
    requires 0.0 < k
    ensures x < y <==> x * k < y * k
  {
  }
}
