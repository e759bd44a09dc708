/** The cached powers of ten of src/grisu2.cpp and the choice of one by `cached_power`. */
module CachedPowers {
  import opened Powers
  import opened DiyFps

  const SIZE := 87

  /** x * 2^n and x * 10000^m, in few steps and by multiplication with literals only: the form
      in which large powers are evaluated. */
  function ShiftUp(x: int, n: nat): int
    decreases n
  {
    if n == 0 then x
    else if 256 <= n then
      ShiftUp(0x1_0000_0000_0000_0000_0000_0000_0000_0000_0000_0000_0000_0000_0000_0000_0000_0000 * x, n - 256)
    else if 128 <= n then ShiftUp(0x1_0000_0000_0000_0000_0000_0000_0000_0000 * x, n - 128)
    else if 64 <= n then ShiftUp(0x1_0000_0000_0000_0000 * x, n - 64)
    else if 32 <= n then ShiftUp(0x1_0000_0000 * x, n - 32)
    else if 16 <= n then ShiftUp(0x1_0000 * x, n - 16)
    else if 8 <= n then ShiftUp(0x100 * x, n - 8)
    else if 4 <= n then ShiftUp(0x10 * x, n - 4)
    else if 2 <= n then ShiftUp(0x4 * x, n - 2)
    else ShiftUp(2 * x, n - 1)
  }

  function TenThousandUp(x: int, m: nat): int
    decreases m
  {
    if m == 0 then x
    else if 16 <= m then
      TenThousandUp(1_0000_0000_0000_0000_0000_0000_0000_0000_0000_0000_0000_0000_0000_0000_0000_0000 * x, m - 16)
    else if 8 <= m then TenThousandUp(1_0000_0000_0000_0000_0000_0000_0000_0000 * x, m - 8)
    else if 4 <= m then TenThousandUp(1_0000_0000_0000_0000 * x, m - 4)
    else if 2 <= m then TenThousandUp(1_0000_0000 * x, m - 2)
    else TenThousandUp(1_0000 * x, m - 1)
  }

  lemma LargePowersOfTwo()
    ensures Pow(2, 1) == 2 && Pow(2, 2) == 4 && Pow(2, 4) == 16 && Pow(2, 8) == 256
    ensures Pow(2, 16) == 0x1_0000
    ensures Pow(2, 32) == 0x1_0000_0000
    ensures Pow(2, 64) == 0x1_0000_0000_0000_0000
    ensures Pow(2, 128) == 0x1_0000_0000_0000_0000_0000_0000_0000_0000
    ensures Pow(2, 256) == 0x1_0000_0000_0000_0000_0000_0000_0000_0000_0000_0000_0000_0000_0000_0000_0000_0000
  {
    assert Pow(2, 8) == 256;
    hide Pow;
    PowAdd(2, 8, 8);
    PowAdd(2, 16, 16);
    PowAdd(2, 32, 32);
    PowAdd(2, 64, 64);
    PowAdd(2, 128, 128);
  }

  lemma ShiftStep(x: int, c: nat, k: nat, n: nat)
    requires k <= n && c == Pow(2, k)
    ensures (c * x) * Pow(2, n - k) == x * Pow(2, n)
  {
    PowAdd(2, k, n - k);
    hide Pow;
    Assoc(x, c, Pow(2, n - k));
  }

  lemma {:induction false} ShiftUpIsPow(x: int, n: nat)
    ensures ShiftUp(x, n) == x * Pow(2, n)
    decreases n
  {
    if n != 0 {
      LargePowersOfTwo();
      var k := if 256 <= n then 256 else if 128 <= n then 128 else if 64 <= n then 64 else if 32 <= n then 32
        else if 16 <= n then 16 else if 8 <= n then 8 else if 4 <= n then 4 else if 2 <= n then 2 else 1;
      ShiftUpIsPow(Pow(2, k) * x, n - k);
      ShiftStep(x, Pow(2, k), k, n);
    }
  }

  lemma LargePowersOfTen()
    ensures Pow(10, 4) == 1_0000
    ensures Pow(10, 8) == 1_0000_0000
    ensures Pow(10, 16) == 1_0000_0000_0000_0000
    ensures Pow(10, 32) == 1_0000_0000_0000_0000_0000_0000_0000_0000
    ensures Pow(10, 64) == 1_0000_0000_0000_0000_0000_0000_0000_0000_0000_0000_0000_0000_0000_0000_0000_0000
  {
    assert Pow(10, 4) == 1_0000;
    hide Pow;
    PowAdd(10, 4, 4);
    PowAdd(10, 8, 8);
    PowAdd(10, 16, 16);
    PowAdd(10, 32, 32);
  }

  lemma TenThousandStep(x: int, c: nat, k: nat, m: nat)
    requires k <= m && c == Pow(10, 4 * k)
    ensures (c * x) * Pow(10, 4 * (m - k)) == x * Pow(10, 4 * m)
  {
    PowAdd(10, 4 * k, 4 * (m - k));
    hide Pow;
    Assoc(x, c, Pow(10, 4 * (m - k)));
  }

  lemma {:induction false} TenThousandUpIsPow(x: int, m: nat)
    ensures TenThousandUp(x, m) == x * Pow(10, 4 * m)
    decreases m
  {
    if m != 0 {
      LargePowersOfTen();
      var k := if 16 <= m then 16 else if 8 <= m then 8 else if 4 <= m then 4
        else if 2 <= m then 2 else 1;
      var c := Pow(10, 4 * k);
      TenThousandUpIsPow(c * x, m - k);
      TenThousandStep(x, c, k, m);
      hide Pow;
    }
  }

  /** The double nearest to log10(2), times 2^53. */
  const LOG := 2711437152599295
  const LOG_UNIT := 0x20_0000_0000_0000

  /** The two roundings in `(-61 - e) * 0.30102999566398114 + 347` together stay below
      2^-43: half a unit in the last place of a product below 512 and of a sum below 1024. */
  const LOG_ERROR := 0x400

  /** f 2^e is within half a unit in the last place of 10^p. */
  ghost predicate HalfUlp(r: DiyFp, p: int) {
    -Two(r.e) <= 2.0 * (r.Value() - Ten(p)) <= Two(r.e)
  }

  /** Any n = -61 - e for which `cached_power` may pick this entry brings the scaled
      exponent 3 - n + r.e into [-60, -32]. */
  predicate Serves(e: int, p: int) {
    && p * LOG_UNIT + LOG_ERROR < (e + 64) * LOG
    && (e + 34) * LOG <= (p - 8) * LOG_UNIT - LOG_ERROR
  }

  ghost predicate NearTen(r: DiyFp, p: int) {
    Normalized(r) && HalfUlp(r, p) && Serves(r.e, p)
  }

  predicate OffPositive(f: int, e: nat, m: nat) {
    var d := ShiftUp(f, e) - TenThousandUp(1, m);
    2 * d < -ShiftUp(1, e) || ShiftUp(1, e) < 2 * d
  }

  predicate OffExact(f: int, e: nat, m: nat) {
    f != TenThousandUp(ShiftUp(1, e), m)
  }

  predicate OffNegative(f: int, e: nat, m: nat) {
    var d := TenThousandUp(f, m) - ShiftUp(1, e);
    2 * d < -TenThousandUp(1, m) || TenThousandUp(1, m) < 2 * d
  }

  /** |2 (f t - s)| <= t, from integers to reals. */
  lemma LiftHalf(f: int, s: int, t: int)
    requires -t <= 2 * (f * t - s) <= t
    ensures -(t as real) <= 2.0 * ((f as real) * (t as real) - (s as real)) <= (t as real)
  {
    ProductAsReal(f, t);
    assert (2 * (f * t - s)) as real == 2.0 * ((f * t) as real - s as real);
  }

  lemma PositiveHalfUlp(f: u64, e: nat, m: nat)
    requires !OffPositive(f, e, m)
    ensures HalfUlp(DiyFp(f, e), 4 * m)
  {
    hide Scale, Pow, ShiftUp, TenThousandUp;
    ShiftUpIsPow(f, e);
    ShiftUpIsPow(1, e);
    TenThousandUpIsPow(1, m);
    ScaleIsPow(Binary, e);
    ScaleIsPow(Decimal, 4 * m);
    LiftHalf(f, Pow(10, 4 * m), Pow(2, e));
  }

  lemma ExactHalfUlp(f: u64, e: int, m: nat)
    requires 0 <= e && !OffExact(f, e, m)
    ensures HalfUlp(DiyFp(f, -e), 4 * m)
  {
    hide Scale, Pow, ShiftUp, TenThousandUp;
    ShiftUpIsPow(1, e);
    TenThousandUpIsPow(Pow(2, e), m);
    ScaleIsPow(Binary, e);
    ScaleIsPow(Decimal, 4 * m);
    ScaleInverse(Binary, e);
    ProductAsReal(Pow(2, e), Pow(10, 4 * m));
    CancelFactor(Two(e), Two(-e), Ten(4 * m));
  }

  lemma CancelFactor(x: real, x': real, y: real)
    requires x * x' == 1.0
    ensures (x * y) * x' == y
  {
  }

  lemma NegativeHalfUlp(f: u64, e: int, m: int)
    requires 0 <= e && 0 <= m && !OffNegative(f, e, m)
    ensures HalfUlp(DiyFp(f, -e), -4 * m)
  {
    hide Scale, Pow, ShiftUp, TenThousandUp;
    TenThousandUpIsPow(f, m);
    TenThousandUpIsPow(1, m);
    ShiftUpIsPow(1, e);
    ScaleIsPow(Binary, e);
    ScaleIsPow(Decimal, 4 * m);
    ScaleInverse(Binary, e);
    ScaleInverse(Decimal, 4 * m);
    LiftHalf(f, Pow(2, e), Pow(10, 4 * m));
    DivideBoth(f as real, Two(e), Two(-e), Ten(4 * m), Ten(-4 * m));
  }

  /** From |2 (f t - s)| <= t to |2 (f / s - 1 / t)| <= 1 / s. */
  lemma DivideBoth(f: real, s: real, s': real, t: real, t': real)
    requires 0.0 < s' && 0.0 < t' && s * s' == 1.0 && t * t' == 1.0
    requires -t <= 2.0 * (f * t - s) <= t
    ensures -s' <= 2.0 * (f * s' - t') <= s'
  {
    var k := s' * t';
    assert t * k == s' by { CancelFactor(t, t', s'); }
    assert s * k == t' by { CancelFactor(s, s', t'); }
    assert (f * t - s) * k == f * s' - t' by { RealAssoc(f, t, k); }
    RealMonotone(-t, 2.0 * (f * t - s), k);
    RealMonotone(2.0 * (f * t - s), t, k);
  }

  function Positive(f: u64, e: nat, m: nat): (r: DiyFp)
    requires TWO63 <= f && Serves(e, 4 * m) && !OffPositive(f, e, m)
    ensures NearTen(r, 4 * m)
  {
    PositiveHalfUlp(f, e, m);
    DiyFp(f, e)
  }

  function Exact(f: u64, e: nat, m: nat): (r: DiyFp)
    requires TWO63 <= f && Serves(0 - e, 4 * m) && !OffExact(f, e, m)
    ensures NearTen(r, 4 * m)
  {
    ExactHalfUlp(f, e, m);
    DiyFp(f, 0 - e)
  }

  function Negative(f: u64, e: nat, m: nat): (r: DiyFp)
    requires TWO63 <= f && Serves(0 - e, -4 * m) && !OffNegative(f, e, m)
    ensures NearTen(r, -4 * m)
  {
    NegativeHalfUlp(f, e, m);
    DiyFp(f, 0 - e)
  }

  function Entry0(): DiyFp { Negative(0xfa8f_d5a0_081c_0288, 1220, 87) }
  function Entry1(): DiyFp { Negative(0xbaae_e17f_a23e_bf76, 1193, 85) }
  function Entry2(): DiyFp { Negative(0x8b16_fb20_3055_ac76, 1166, 83) }
  function Entry3(): DiyFp { Negative(0xcf42_894a_5dce_35ea, 1140, 81) }
  function Entry4(): DiyFp { Negative(0x9a6b_b0aa_5565_3b2d, 1113, 79) }
  function Entry5(): DiyFp { Negative(0xe61a_cf03_3d1a_45df, 1087, 77) }
  function Entry6(): DiyFp { Negative(0xab70_fe17_c79a_c6ca, 1060, 75) }
  function Entry7(): DiyFp { Negative(0xff77_b1fc_bebc_dc4f, 1034, 73) }
  function Entry8(): DiyFp { Negative(0xbe56_91ef_416b_d60c, 1007, 71) }
  function Entry9(): DiyFp { Negative(0x8dd0_1fad_907f_fc3c, 980, 69) }
  function Entry10(): DiyFp { Negative(0xd351_5c28_3155_9a83, 954, 67) }
  function Entry11(): DiyFp { Negative(0x9d71_ac8f_ada6_c9b5, 927, 65) }
  function Entry12(): DiyFp { Negative(0xea9c_2277_23ee_8bcb, 901, 63) }
  function Entry13(): DiyFp { Negative(0xaecc_4991_4078_536d, 874, 61) }
  function Entry14(): DiyFp { Negative(0x823c_1279_5db6_ce57, 847, 59) }
  function Entry15(): DiyFp { Negative(0xc210_9436_4dfb_5637, 821, 57) }
  function Entry16(): DiyFp { Negative(0x9096_ea6f_3848_984f, 794, 55) }
  function Entry17(): DiyFp { Negative(0xd774_85cb_2582_3ac7, 768, 53) }
  function Entry18(): DiyFp { Negative(0xa086_cfcd_97bf_97f4, 741, 51) }
  function Entry19(): DiyFp { Negative(0xef34_0a98_172a_ace5, 715, 49) }
  function Entry20(): DiyFp { Negative(0xb238_67fb_2a35_b28e, 688, 47) }
  function Entry21(): DiyFp { Negative(0x84c8_d4df_d2c6_3f3b, 661, 45) }
  function Entry22(): DiyFp { Negative(0xc5dd_4427_1ad3_cdba, 635, 43) }
  function Entry23(): DiyFp { Negative(0x936b_9fce_bb25_c996, 608, 41) }
  function Entry24(): DiyFp { Negative(0xdbac_6c24_7d62_a584, 582, 39) }
  function Entry25(): DiyFp { Negative(0xa3ab_6658_0d5f_daf6, 555, 37) }
  function Entry26(): DiyFp { Negative(0xf3e2_f893_dec3_f126, 529, 35) }
  function Entry27(): DiyFp { Negative(0xb5b5_ada8_aaff_80b8, 502, 33) }
  function Entry28(): DiyFp { Negative(0x8762_5f05_6c7c_4a8b, 475, 31) }
  function Entry29(): DiyFp { Negative(0xc9bc_ff60_34c1_3053, 449, 29) }
  function Entry30(): DiyFp { Negative(0x964e_858c_91ba_2655, 422, 27) }
  function Entry31(): DiyFp { Negative(0xdff9_7724_7029_7ebd, 396, 25) }
  function Entry32(): DiyFp { Negative(0xa6df_bd9f_b8e5_b88f, 369, 23) }
  function Entry33(): DiyFp { Negative(0xf8a9_5fcf_8874_7d94, 343, 21) }
  function Entry34(): DiyFp { Negative(0xb944_7093_8fa8_9bcf, 316, 19) }
  function Entry35(): DiyFp { Negative(0x8a08_f0f8_bf0f_156b, 289, 17) }
  function Entry36(): DiyFp { Negative(0xcdb0_2555_6531_31b6, 263, 15) }
  function Entry37(): DiyFp { Negative(0x993f_e2c6_d07b_7fac, 236, 13) }
  function Entry38(): DiyFp { Negative(0xe45c_10c4_2a2b_3b06, 210, 11) }
  function Entry39(): DiyFp { Negative(0xaa24_2499_6973_92d3, 183, 9) }
  function Entry40(): DiyFp { Negative(0xfd87_b5f2_8300_ca0e, 157, 7) }
  function Entry41(): DiyFp { Negative(0xbce5_0864_9211_1aeb, 130, 5) }
  function Entry42(): DiyFp { Negative(0x8cbc_cc09_6f50_88cc, 103, 3) }
  function Entry43(): DiyFp { Negative(0xd1b7_1758_e219_652c, 77, 1) }
  function Entry44(): DiyFp { Exact(0x9c40_0000_0000_0000, 50, 1) }
  function Entry45(): DiyFp { Exact(0xe8d4_a510_0000_0000, 24, 3) }
  function Entry46(): DiyFp { Positive(0xad78_ebc5_ac62_0000, 3, 5) }
  function Entry47(): DiyFp { Positive(0x813f_3978_f894_0984, 30, 7) }
  function Entry48(): DiyFp { Positive(0xc097_ce7b_c907_15b3, 56, 9) }
  function Entry49(): DiyFp { Positive(0x8f7e_32ce_7bea_5c70, 83, 11) }
  function Entry50(): DiyFp { Positive(0xd5d2_38a4_abe9_8068, 109, 13) }
  function Entry51(): DiyFp { Positive(0x9f4f_2726_179a_2245, 136, 15) }
  function Entry52(): DiyFp { Positive(0xed63_a231_d4c4_fb27, 162, 17) }
  function Entry53(): DiyFp { Positive(0xb0de_6538_8cc8_ada8, 189, 19) }
  function Entry54(): DiyFp { Positive(0x83c7_088e_1aab_65db, 216, 21) }
  function Entry55(): DiyFp { Positive(0xc45d_1df9_4271_1d9a, 242, 23) }
  function Entry56(): DiyFp { Positive(0x924d_692c_a61b_e758, 269, 25) }
  function Entry57(): DiyFp { Positive(0xda01_ee64_1a70_8dea, 295, 27) }
  function Entry58(): DiyFp { Positive(0xa26d_a399_9aef_774a, 322, 29) }
  function Entry59(): DiyFp { Positive(0xf209_787b_b47d_6b85, 348, 31) }
  function Entry60(): DiyFp { Positive(0xb454_e4a1_79dd_1877, 375, 33) }
  function Entry61(): DiyFp { Positive(0x865b_8692_5b9b_c5c2, 402, 35) }
  function Entry62(): DiyFp { Positive(0xc835_53c5_c896_5d3d, 428, 37) }
  function Entry63(): DiyFp { Positive(0x952a_b45c_fa97_a0b3, 455, 39) }
  function Entry64(): DiyFp { Positive(0xde46_9fbd_99a0_5fe3, 481, 41) }
  function Entry65(): DiyFp { Positive(0xa59b_c234_db39_8c25, 508, 43) }
  function Entry66(): DiyFp { Positive(0xf6c6_9a72_a398_9f5c, 534, 45) }
  function Entry67(): DiyFp { Positive(0xb7dc_bf53_54e9_bece, 561, 47) }
  function Entry68(): DiyFp { Positive(0x88fc_f317_f222_41e2, 588, 49) }
  function Entry69(): DiyFp { Positive(0xcc20_ce9b_d35c_78a5, 614, 51) }
  function Entry70(): DiyFp { Positive(0x9816_5af3_7b21_53df, 641, 53) }
  function Entry71(): DiyFp { Positive(0xe2a0_b5dc_971f_303a, 667, 55) }
  function Entry72(): DiyFp { Positive(0xa8d9_d153_5ce3_b396, 694, 57) }
  function Entry73(): DiyFp { Positive(0xfb9b_7cd9_a4a7_443c, 720, 59) }
  function Entry74(): DiyFp { Positive(0xbb76_4c4c_a7a4_4410, 747, 61) }
  function Entry75(): DiyFp { Positive(0x8bab_8eef_b640_9c1a, 774, 63) }
  function Entry76(): DiyFp { Positive(0xd01f_ef10_a657_842c, 800, 65) }
  function Entry77(): DiyFp { Positive(0x9b10_a4e5_e991_3129, 827, 67) }
  function Entry78(): DiyFp { Positive(0xe710_9bfb_a19c_0c9d, 853, 69) }
  function Entry79(): DiyFp { Positive(0xac28_20d9_623b_f429, 880, 71) }
  function Entry80(): DiyFp { Positive(0x8044_4b5e_7aa7_cf85, 907, 73) }
  function Entry81(): DiyFp { Positive(0xbf21_e440_03ac_dd2d, 933, 75) }
  function Entry82(): DiyFp { Positive(0x8e67_9c2f_5e44_ff8f, 960, 77) }
  function Entry83(): DiyFp { Positive(0xd433_179d_9c8c_b841, 986, 79) }
  function Entry84(): DiyFp { Positive(0x9e19_db92_b4e3_1ba9, 1013, 81) }
  function Entry85(): DiyFp { Positive(0xeb96_bf6e_badf_77d9, 1039, 83) }
  function Entry86(): DiyFp { Positive(0xaf87_023b_9bf0_ee6b, 1066, 85) }

  function Exponent10(i: int): int {
    8 * i - 348
  }

  function Entries0(i: int): (r: DiyFp)
    requires 0 <= i < 11
    ensures NearTen(r, Exponent10(i))
  {
    hide NearTen, Serves, OffPositive, OffExact, OffNegative;
    match i
    case 0 => Entry0()
    case 1 => Entry1()
    case 2 => Entry2()
    case 3 => Entry3()
    case 4 => Entry4()
    case 5 => Entry5()
    case 6 => Entry6()
    case 7 => Entry7()
    case 8 => Entry8()
    case 9 => Entry9()
    case _ => Entry10()
  }

  function Entries11(i: int): (r: DiyFp)
    requires 11 <= i < 22
    ensures NearTen(r, Exponent10(i))
  {
    hide NearTen, Serves, OffPositive, OffExact, OffNegative;
    match i
    case 11 => Entry11()
    case 12 => Entry12()
    case 13 => Entry13()
    case 14 => Entry14()
    case 15 => Entry15()
    case 16 => Entry16()
    case 17 => Entry17()
    case 18 => Entry18()
    case 19 => Entry19()
    case 20 => Entry20()
    case _ => Entry21()
  }

  function Entries22(i: int): (r: DiyFp)
    requires 22 <= i < 33
    ensures NearTen(r, Exponent10(i))
  {
    hide NearTen, Serves, OffPositive, OffExact, OffNegative;
    match i
    case 22 => Entry22()
    case 23 => Entry23()
    case 24 => Entry24()
    case 25 => Entry25()
    case 26 => Entry26()
    case 27 => Entry27()
    case 28 => Entry28()
    case 29 => Entry29()
    case 30 => Entry30()
    case 31 => Entry31()
    case _ => Entry32()
  }

  function Entries33(i: int): (r: DiyFp)
    requires 33 <= i < 44
    ensures NearTen(r, Exponent10(i))
  {
    hide NearTen, Serves, OffPositive, OffExact, OffNegative;
    match i
    case 33 => Entry33()
    case 34 => Entry34()
    case 35 => Entry35()
    case 36 => Entry36()
    case 37 => Entry37()
    case 38 => Entry38()
    case 39 => Entry39()
    case 40 => Entry40()
    case 41 => Entry41()
    case 42 => Entry42()
    case _ => Entry43()
  }

  function Entries44(i: int): (r: DiyFp)
    requires 44 <= i < 55
    ensures NearTen(r, Exponent10(i))
  {
    hide NearTen, Serves, OffPositive, OffExact, OffNegative;
    match i
    case 44 => Entry44()
    case 45 => Entry45()
    case 46 => Entry46()
    case 47 => Entry47()
    case 48 => Entry48()
    case 49 => Entry49()
    case 50 => Entry50()
    case 51 => Entry51()
    case 52 => Entry52()
    case 53 => Entry53()
    case _ => Entry54()
  }

  function Entries55(i: int): (r: DiyFp)
    requires 55 <= i < 66
    ensures NearTen(r, Exponent10(i))
  {
    hide NearTen, Serves, OffPositive, OffExact, OffNegative;
    match i
    case 55 => Entry55()
    case 56 => Entry56()
    case 57 => Entry57()
    case 58 => Entry58()
    case 59 => Entry59()
    case 60 => Entry60()
    case 61 => Entry61()
    case 62 => Entry62()
    case 63 => Entry63()
    case 64 => Entry64()
    case _ => Entry65()
  }

  function Entries66(i: int): (r: DiyFp)
    requires 66 <= i < 77
    ensures NearTen(r, Exponent10(i))
  {
    hide NearTen, Serves, OffPositive, OffExact, OffNegative;
    match i
    case 66 => Entry66()
    case 67 => Entry67()
    case 68 => Entry68()
    case 69 => Entry69()
    case 70 => Entry70()
    case 71 => Entry71()
    case 72 => Entry72()
    case 73 => Entry73()
    case 74 => Entry74()
    case 75 => Entry75()
    case _ => Entry76()
  }

  function Entries77(i: int): (r: DiyFp)
    requires 77 <= i < 87
    ensures NearTen(r, Exponent10(i))
  {
    hide NearTen, Serves, OffPositive, OffExact, OffNegative;
    match i
    case 77 => Entry77()
    case 78 => Entry78()
    case 79 => Entry79()
    case 80 => Entry80()
    case 81 => Entry81()
    case 82 => Entry82()
    case 83 => Entry83()
    case 84 => Entry84()
    case 85 => Entry85()
    case _ => Entry86()
  }

  /** The whole table: entry i is within half a unit of 10^(8i - 348). */
  function Entry(i: int): (r: DiyFp)
    requires 0 <= i < SIZE
    ensures NearTen(r, Exponent10(i))
  {
    hide NearTen;
    if i < 11 then Entries0(i)
    else if i < 22 then Entries11(i)
    else if i < 33 then Entries22(i)
    else if i < 44 then Entries33(i)
    else if i < 55 then Entries44(i)
    else if i < 66 then Entries55(i)
    else if i < 77 then Entries66(i)
    else Entries77(i)
  }

  /** What the floating-point estimate may be: any real within LOG_ERROR of
      (-61 - e) * log10(2) + 347, and exactly 347 where there is nothing to round. */
  ghost predicate RoundedEstimate(dk: real, e: int) {
    && -(LOG_ERROR as real) <= dk * (LOG_UNIT as real) - (((-61 - e) * LOG + 347 * LOG_UNIT) as real)
       <= (LOG_ERROR as real)
    && (e == -61 ==> dk == 347.0)
  }

  method Estimate(e: int) returns (dk: real)
    ensures RoundedEstimate(dk, e)
  {
    dk := (((-61 - e) * LOG + 347 * LOG_UNIT) as real) / (LOG_UNIT as real);
  }

  /** Entry i is one that `cached_power` may pick for the exponent e: 10^p is the least power
      in the table that is not below 2^(-61 - e), up to the error of the estimate. */
  predicate Picks(e: int, i: int) {
    var p := Exponent10(i);
    (p - 8) * LOG_UNIT - LOG_ERROR < (-61 - e) * LOG <= p * LOG_UNIT + LOG_ERROR
  }

  lemma CeilingPicks(dk: real, k: int, e: int)
    requires RoundedEstimate(dk, e) && (k - 1) as real < dk <= k as real
    ensures Picks(e, k / 8 + 1)
  {
    var i := k / 8 + 1;
    assert 8 * i - 8 <= k <= 8 * i - 1;
    var exact := (-61 - e) * LOG + 347 * LOG_UNIT;
    assert ((k - 1) * LOG_UNIT) as real < dk * (LOG_UNIT as real) <= (k * LOG_UNIT) as real;
    assert (k - 1) * LOG_UNIT - LOG_ERROR < exact <= k * LOG_UNIT + LOG_ERROR;
  }

  /** The power picked for e brings the scaled exponent into the range the digit generator
      needs. */
  lemma PickedServes(e: int, i: int, c: DiyFp)
    requires Picks(e, i) && Serves(c.e, Exponent10(i))
    ensures -60 <= e + c.e + 64 <= -32
  {
  }

  lemma NoClamp(e: int, i: int)
    requires -1137 <= e <= 960 && Picks(e, i)
    ensures 0 <= i < SIZE
  {
  }

  lemma EntryIsNear(i: int)
    requires 0 <= i < SIZE
    ensures Normalized(Entry(i)) && HalfUlp(Entry(i), Exponent10(i)) && Serves(Entry(i).e, Exponent10(i))
  {
    hide Entry, HalfUlp, Serves, Normalized;
  }

  lemma EstimateBound(dk: real, e: int)
    requires RoundedEstimate(dk, e) && -1137 <= e <= 960
    ensures 0.0 < dk
  {
  }

  /** `cached_power`: dk is positive, so its truncation is its floor; the index is never
      clamped. */
  method CachedPower(e: int) returns (c: DiyFp, k10: int, ghost i: int)
    requires -1137 <= e <= 960
    ensures 0 <= i < SIZE && c == Entry(i) && k10 == -Exponent10(i) && Picks(e, i)
    ensures Normalized(c) && HalfUlp(c, -k10) && -60 <= e + c.e + 64 <= -32
  {
    hide *;
    var dk := Estimate(e);
    EstimateBound(dk, e);
    var k := dk.Floor;
    if k as real != dk { k := k + 1; }
    var idx := (k / 8) + 1;
    CeilingPicks(dk, k, e);
    NoClamp(e, idx);
    i := idx;
    if idx < 0 { idx := 0; }
    if idx >= SIZE { idx := SIZE - 1; }
    EntryIsNear(idx);
    k10 := -(-348 + idx * 8);
    c := Entry(idx);
    PickedServes(e, idx, c);
    ExponentOf(idx);
  }

  lemma ExponentOf(i: int)
    ensures Exponent10(i) == -348 + i * 8
  {
  }

  // ---------------------------------------------------------------- there is only one pick

  /** The power of entry i lies between 2^m and 2^(m + 1), and so far from both that the error of the
      estimate does not matter. */
  predicate Clear(i: int, m: int) {
    m * LOG + LOG_ERROR < Exponent10(i) * LOG_UNIT < (m + 1) * LOG - LOG_ERROR
  }

  lemma ClearFrom0(i: int)
    requires 0 <= i < 15
    ensures exists m :: Clear(i, m)
  {
    assert Clear(0, -1157) && Clear(1, -1130) && Clear(2, -1103) && Clear(3, -1077) && Clear(4, -1050);
    assert Clear(5, -1024) && Clear(6, -997) && Clear(7, -971) && Clear(8, -944) && Clear(9, -917);
    assert Clear(10, -891) && Clear(11, -864) && Clear(12, -838) && Clear(13, -811) && Clear(14, -784);
  }

  lemma ClearFrom15(i: int)
    requires 15 <= i < 30
    ensures exists m :: Clear(i, m)
  {
    assert Clear(15, -758) && Clear(16, -731) && Clear(17, -705) && Clear(18, -678) && Clear(19, -652);
    assert Clear(20, -625) && Clear(21, -598) && Clear(22, -572) && Clear(23, -545) && Clear(24, -519);
    assert Clear(25, -492) && Clear(26, -466) && Clear(27, -439) && Clear(28, -412) && Clear(29, -386);
  }

  lemma ClearFrom30(i: int)
    requires 30 <= i < 45
    ensures exists m :: Clear(i, m)
  {
    assert Clear(30, -359) && Clear(31, -333) && Clear(32, -306) && Clear(33, -280) && Clear(34, -253);
    assert Clear(35, -226) && Clear(36, -200) && Clear(37, -173) && Clear(38, -147) && Clear(39, -120);
    assert Clear(40, -94) && Clear(41, -67) && Clear(42, -40) && Clear(43, -14) && Clear(44, 13);
  }

  lemma ClearFrom45(i: int)
    requires 45 <= i < 60
    ensures exists m :: Clear(i, m)
  {
    assert Clear(45, 39) && Clear(46, 66) && Clear(47, 93) && Clear(48, 119) && Clear(49, 146);
    assert Clear(50, 172) && Clear(51, 199) && Clear(52, 225) && Clear(53, 252) && Clear(54, 279);
    assert Clear(55, 305) && Clear(56, 332) && Clear(57, 358) && Clear(58, 385) && Clear(59, 411);
  }

  lemma ClearFrom60(i: int)
    requires 60 <= i < 75
    ensures exists m :: Clear(i, m)
  {
    assert Clear(60, 438) && Clear(61, 465) && Clear(62, 491) && Clear(63, 518) && Clear(64, 544);
    assert Clear(65, 571) && Clear(66, 597) && Clear(67, 624) && Clear(68, 651) && Clear(69, 677);
    assert Clear(70, 704) && Clear(71, 730) && Clear(72, 757) && Clear(73, 783) && Clear(74, 810);
  }

  lemma ClearFrom75(i: int)
    requires 75 <= i < 87
    ensures exists m :: Clear(i, m)
  {
    assert Clear(75, 837) && Clear(76, 863) && Clear(77, 890) && Clear(78, 916) && Clear(79, 943);
    assert Clear(80, 970) && Clear(81, 996) && Clear(82, 1023) && Clear(83, 1049) && Clear(84, 1076);
    assert Clear(85, 1102) && Clear(86, 1129);
  }

  lemma NotNear(x: int, m: int, n: int)
    requires m * LOG + LOG_ERROR < x < (m + 1) * LOG - LOG_ERROR
    ensures n * LOG + LOG_ERROR < x || x + LOG_ERROR < n * LOG
  {
    if n <= m { MulMonotone(n, m, LOG); } else { MulMonotone(m + 1, n, LOG); }
  }

  lemma NoneNear(i: int, n: int)
    requires 0 <= i < SIZE
    ensures n * LOG + LOG_ERROR < Exponent10(i) * LOG_UNIT || Exponent10(i) * LOG_UNIT + LOG_ERROR < n * LOG
  {
    hide Exponent10;
    if i < 15 { ClearFrom0(i); } else if i < 30 { ClearFrom15(i); } else if i < 45 { ClearFrom30(i); }
    else if i < 60 { ClearFrom45(i); } else if i < 75 { ClearFrom60(i); } else { ClearFrom75(i); }
    var m :| Clear(i, m);
    NotNear(Exponent10(i) * LOG_UNIT, m, n);
  }

  lemma PickIs(e: int, i: int, j: int)
    requires Picks(e, i) && Picks(e, j)
    requires var n := -61 - e; var p := Exponent10(i) * LOG_UNIT; n * LOG + LOG_ERROR < p || p + LOG_ERROR < n * LOG
    ensures j <= i
  {
  }

  lemma PickUnique(e: int, i: int, j: int)
    requires Picks(e, i) && Picks(e, j) && 0 <= i < SIZE && 0 <= j < SIZE
    ensures i == j
  {
    hide Picks;
    NoneNear(i, -61 - e);
    NoneNear(j, -61 - e);
    PickIs(e, i, j);
    PickIs(e, j, i);
  }
}
