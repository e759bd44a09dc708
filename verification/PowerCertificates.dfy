/** Which of the 2045 exact powers of two with an uneven rounding interval read back, decided
    by a certificate for each. The rows are in the order of the biased exponents, grouped by
    the cached power in use. */
module PowerCertificates {
  import opened Powers
  import opened DiyFps
  import opened CachedPowers
  import opened PowersOfTwo

  /** The biased exponents of the powers of two that are printed so that they read back as
      their lower neighbour. */
  predicate Misread(be: nat) {
    if be < 29 then 4 <= be <= 6 || 10 <= be <= 12 || be == 16 || 21 <= be <= 22
    else if be < 55 then false
    else if be < 82 then 61 <= be <= 66 || be == 75
    else if be < 109 then 98 <= be <= 102
    else if be < 135 then be == 131
    else if be < 162 then be == 138 || 147 <= be <= 148
    else if be < 188 then be == 165
    else if be < 215 then be == 198 || 207 <= be <= 214
    else if be < 242 then be == 215 || be == 221 || 231 <= be <= 235
    else if be < 268 then 243 <= be <= 251 || 261 <= be <= 264
    else if be < 295 then be == 271 || 288 <= be <= 291
    else if be < 321 then be == 304 || 317 <= be <= 318
    else if be < 348 then be == 328 || be == 334
    else if be < 374 then be == 361 || 370 <= be <= 371
    else if be < 401 then be == 394
    else if be < 428 then 403 <= be <= 407
    else if be < 454 then 437 <= be <= 440
    else if be < 481 then 472 <= be <= 474
    else if be < 507 then 493 <= be <= 494
    else if be < 534 then be == 510 || 514 <= be <= 517 || be == 527 || be == 533
    else if be < 560 then 534 <= be <= 537 || 546 <= be <= 547
    else if be < 587 then be == 580
    else if be < 614 then be == 590 || 602 <= be <= 603 || be == 613
    else if be < 640 then 622 <= be <= 623 || be == 630 || be == 639
    else if be < 667 then be == 640 || 657 <= be <= 660
    else if be < 693 then 672 <= be <= 673 || be == 680 || be == 686
    else if be < 720 then 702 <= be <= 703
    else if be < 746 then 726 <= be <= 727
    else if be < 773 then be == 756 || 765 <= be <= 766 || 771 <= be <= 772
    else if be < 800 then be == 799
    else if be < 826 then be == 806
    else if be < 853 then be == 826 || be == 836 || 841 <= be <= 842
    else if be < 879 then be == 869
    else if be < 906 then be == 883
    else if be < 932 then 925 <= be <= 926 || 930 <= be <= 931
    else if be < 959 then 932 <= be <= 935 || 941 <= be <= 942 || be == 946 || be == 955
    else if be < 986 then be == 979
    else if be < 1012 then be == 998
    else if be < 1039 then false
    else if be < 1065 then false
    else if be < 1092 then 1087 <= be <= 1091
    else if be < 1119 then be == 1108 || be == 1112
    else if be < 1145 then be == 1131
    else if be < 1172 then be == 1145 || 1155 <= be <= 1158
    else if be < 1198 then be == 1181 || be == 1188 || 1194 <= be <= 1195
    else if be < 1225 then 1205 <= be <= 1208
    else if be < 1251 then be == 1238 || be == 1250
    else if be < 1278 then be == 1251
    else if be < 1305 then 1283 <= be <= 1284 || be == 1291 || be == 1298
    else if be < 1331 then 1310 <= be <= 1311 || 1328 <= be <= 1330
    else if be < 1358 then be == 1331
    else if be < 1384 then 1360 <= be <= 1364 || be == 1368 || be == 1383
    else if be < 1411 then be == 1384 || 1393 <= be <= 1397 || be == 1401 || 1409 <= be <= 1410
    else if be < 1437 then be == 1414 || be == 1421 || be == 1428
    else if be < 1464 then 1442 <= be <= 1443
    else if be < 1491 then be == 1480 || be == 1487
    else if be < 1517 then 1499 <= be <= 1504
    else if be < 1544 then be == 1520 || be == 1533
    else if be < 1570 then 1557 <= be <= 1560 || be == 1567
    else if be < 1597 then 1576 <= be <= 1577 || be == 1583 || 1592 <= be <= 1593
    else if be < 1623 then be == 1597 || be == 1617
    else if be < 1650 then 1625 <= be <= 1626
    else if be < 1677 then 1675 <= be <= 1676
    else if be < 1703 then 1692 <= be <= 1693
    else if be < 1730 then false
    else if be < 1756 then 1732 <= be <= 1733
    else if be < 1783 then 1758 <= be <= 1759
    else if be < 1809 then 1786 <= be <= 1789 || be == 1808
    else if be < 1836 then 1809 <= be <= 1812 || be == 1826
    else if be < 1863 then be == 1839
    else if be < 1889 then 1885 <= be <= 1888
    else if be < 1916 then be == 1889 || be == 1902
    else if be < 1942 then 1917 <= be <= 1919
    else if be < 1969 then false
    else if be < 1996 then false
    else if be < 2022 then be == 1999
    else be == 2025
  }

  function Rows2(be: int): bool {
    match be
    case 2 => Power(513_0671_0016_2297_0312, 569, 568, 285, 0x1000_0000_0000_0000, 10, 4450_1477_1701_4403, false)
    case 3 => Power(513_0671_0016_2297_0312, 569, 568, 285, 0x800_0000_0000_0000, 10, 8900_2954_3402_8806, false)
    case 4 => Power(513_0671_0016_2297_0312, 569, 568, 285, 0x400_0000_0000_0000, 100, 1780_0590_8680_5761, true)
    case 5 => Power(513_0671_0016_2297_0312, 569, 568, 285, 0x200_0000_0000_0000, 100, 3560_1181_7361_1522, true)
    case 6 => Power(513_0671_0016_2297_0312, 569, 568, 285, 0x100_0000_0000_0000, 100, 7120_2363_4722_3044, true)
    case 7 => Power(513_0671_0016_2297_0312, 569, 568, 285, 0x80_0000_0000_0000, 1000, 1424_0472_6944_4609, false)
    case 8 => Power(513_0671_0016_2297_0312, 569, 568, 285, 0x40_0000_0000_0000, 1000, 2848_0945_3888_9218, false)
    case 9 => Power(513_0671_0016_2297_0312, 569, 568, 285, 0x20_0000_0000_0000, 1000, 5696_1890_7777_8436, false)
    case _ => Power(513_0671_0016_2297_0312, 569, 568, 285, 0x10_0000_0000_0000, 1_0000, 1139_2378_1555_5687, true)
  }

  function Rows11(be: int): bool {
    match be
    case 11 => Power(513_0671_0016_2297_0312, 569, 568, 285, 0x8_0000_0000_0000, 1_0000, 2278_4756_3111_1374, true)
    case 12 => Power(513_0671_0016_2297_0312, 569, 568, 285, 0x4_0000_0000_0000, 1_0000, 4556_9512_6222_2748, true)
    case 13 => Power(513_0671_0016_2297_0312, 569, 568, 285, 0x2_0000_0000_0000, 1_0000, 9113_9025_2444_5497, false)
    case 14 => Power(513_0671_0016_2297_0312, 569, 568, 285, 0x1_0000_0000_0000, 1_0000, 1_8227_8050_4889_0994, false)
    case 15 => Power(513_0671_0016_2297_0312, 569, 568, 285, 0x8000_0000_0000, 10_0000, 3645_5610_0977_8199, false)
    case 16 => Power(513_0671_0016_2297_0312, 569, 568, 285, 0x4000_0000_0000, 10_0000, 7291_1220_1955_6397, true)
    case 17 => Power(513_0671_0016_2297_0312, 569, 568, 285, 0x2000_0000_0000, 10_0000, 1_4582_2440_3911_2795, false)
    case 18 => Power(513_0671_0016_2297_0312, 569, 568, 285, 0x1000_0000_0000, 100_0000, 2916_4488_0782_2559, false)
    case _ => Power(513_0671_0016_2297_0312, 569, 568, 285, 0x800_0000_0000, 100_0000, 5832_8976_1564_5118, false)
  }

  function Rows20(be: int): bool {
    match be
    case 20 => Power(513_0671_0016_2297_0312, 569, 568, 285, 0x400_0000_0000, 100_0000, 1_1665_7952_3129_0236, false)
    case 21 => Power(513_0671_0016_2297_0312, 569, 568, 285, 0x200_0000_0000, 1000_0000, 2333_1590_4625_8047, true)
    case 22 => Power(513_0671_0016_2297_0312, 569, 568, 285, 0x100_0000_0000, 1000_0000, 4666_3180_9251_6094, true)
    case 23 => Power(513_0671_0016_2297_0312, 569, 568, 285, 0x80_0000_0000, 1000_0000, 9332_6361_8503_2189, false)
    case 24 => Power(513_0671_0016_2297_0312, 569, 568, 285, 0x40_0000_0000, 1000_0000, 1_8665_2723_7006_4378, false)
    case 25 => Power(513_0671_0016_2297_0312, 569, 568, 285, 0x20_0000_0000, 1000_0000, 3_7330_5447_4012_8755, false)
    case 26 => Power(513_0671_0016_2297_0312, 569, 568, 285, 0x10_0000_0000, 1_0000_0000, 7466_1089_4802_5751, false)
    case 27 => Power(513_0671_0016_2297_0312, 569, 568, 285, 0x8_0000_0000, 1_0000_0000, 1_4932_2178_9605_1502, false)
    case _ => Power(513_0671_0016_2297_0312, 569, 568, 285, 0x4_0000_0000, 1_0000_0000, 2_9864_4357_9210_3004, false)
  }

  lemma Settled82(be: nat)
    requires 2 <= be < 29
    ensures Settled(be, Misread(be))
  {
    hide HalfUlp, Serves, Normalized, Pow, PowerOfTen, Refuted, Candidate, Row, Settled;
    assert Entry(82) == DiyFp(0x8e67_9c2f_5e44_ff8f, 960)
        && !OtherBounds(0x8e67_9c2f_5e44_ff8f, 513_0671_0016_2297_0312, 569, 568, 285);
    hide OtherBounds, Entry;
    PowersOfTwoThatOccur();
    PowersOfTenThatOccur();
    RowsHold();
    var row := if be < 11 then Rows2(be) else if be < 20 then Rows11(be) else Rows20(be);
    assert Row(513_0671_0016_2297_0312, 569, 568, 285, Pow(2, 62 - be), Misread(be));
    hide Misread;
    Settle(be, 82, 2, 29, 513_0671_0016_2297_0312, 569, 568, 285, Misread(be));
  }

  function Rows29(be: int): bool {
    match be
    case 29 => Power(688_6270_0495_3319_3879, 764, 763, 383, 0x1000_0000_0000_0000, 10, 5972_8871_5842_0601, false)
    case 30 => Power(688_6270_0495_3319_3879, 764, 763, 383, 0x800_0000_0000_0000, 10, 1_1945_7743_1684_1202, false)
    case 31 => Power(688_6270_0495_3319_3879, 764, 763, 383, 0x400_0000_0000_0000, 10, 2_3891_5486_3368_2403, false)
    case 32 => Power(688_6270_0495_3319_3879, 764, 763, 383, 0x200_0000_0000_0000, 100, 4778_3097_2673_6481, false)
    case 33 => Power(688_6270_0495_3319_3879, 764, 763, 383, 0x100_0000_0000_0000, 100, 9556_6194_5347_2961, false)
    case 34 => Power(688_6270_0495_3319_3879, 764, 763, 383, 0x80_0000_0000_0000, 100, 1_9113_2389_0694_5923, false)
    case 35 => Power(688_6270_0495_3319_3879, 764, 763, 383, 0x40_0000_0000_0000, 100, 3_8226_4778_1389_1845, false)
    case 36 => Power(688_6270_0495_3319_3879, 764, 763, 383, 0x20_0000_0000_0000, 1000, 7645_2955_6277_8369, false)
    case _ => Power(688_6270_0495_3319_3879, 764, 763, 383, 0x10_0000_0000_0000, 1000, 1_5290_5911_2555_6738, false)
  }

  function Rows38(be: int): bool {
    match be
    case 38 => Power(688_6270_0495_3319_3879, 764, 763, 383, 0x8_0000_0000_0000, 1000, 3_0581_1822_5111_3476, false)
    case 39 => Power(688_6270_0495_3319_3879, 764, 763, 383, 0x4_0000_0000_0000, 1_0000, 6116_2364_5022_2695, false)
    case 40 => Power(688_6270_0495_3319_3879, 764, 763, 383, 0x2_0000_0000_0000, 10_0000, 1223_2472_9004_4539, false)
    case 41 => Power(688_6270_0495_3319_3879, 764, 763, 383, 0x1_0000_0000_0000, 10_0000, 2446_4945_8008_9078, false)
    case 42 => Power(688_6270_0495_3319_3879, 764, 763, 383, 0x8000_0000_0000, 10_0000, 4892_9891_6017_8156, false)
    case 43 => Power(688_6270_0495_3319_3879, 764, 763, 383, 0x4000_0000_0000, 10_0000, 9785_9783_2035_6312, false)
    case 44 => Power(688_6270_0495_3319_3879, 764, 763, 383, 0x2000_0000_0000, 10_0000, 1_9571_9566_4071_2625, false)
    case 45 => Power(688_6270_0495_3319_3879, 764, 763, 383, 0x1000_0000_0000, 100_0000, 3914_3913_2814_2525, false)
    case _ => Power(688_6270_0495_3319_3879, 764, 763, 383, 0x800_0000_0000, 1000_0000, 782_8782_6562_8505, false)
  }

  function Rows47(be: int): bool {
    match be
    case 47 => Power(688_6270_0495_3319_3879, 764, 763, 383, 0x400_0000_0000, 1_0000_0000, 156_5756_5312_5701, false)
    case 48 => Power(688_6270_0495_3319_3879, 764, 763, 383, 0x200_0000_0000, 1_0000_0000, 313_1513_0625_1402, false)
    case 49 => Power(688_6270_0495_3319_3879, 764, 763, 383, 0x100_0000_0000, 1_0000_0000, 626_3026_1250_2804, false)
    case 50 => Power(688_6270_0495_3319_3879, 764, 763, 383, 0x80_0000_0000, 1_0000_0000, 1252_6052_2500_5608, false)
    case 51 => Power(688_6270_0495_3319_3879, 764, 763, 383, 0x40_0000_0000, 1_0000_0000, 2505_2104_5001_1216, false)
    case 52 => Power(688_6270_0495_3319_3879, 764, 763, 383, 0x20_0000_0000, 1_0000_0000, 5010_4209_0002_2432, false)
    case 53 => Power(688_6270_0495_3319_3879, 764, 763, 383, 0x10_0000_0000, 1_0000_0000, 1_0020_8418_0004_4864, false)
    case _ => Power(688_6270_0495_3319_3879, 764, 763, 383, 0x8_0000_0000, 10_0000_0000, 2004_1683_6000_8973, false)
  }

  lemma Settled81(be: nat)
    requires 29 <= be < 55
    ensures Settled(be, Misread(be))
  {
    hide HalfUlp, Serves, Normalized, Pow, PowerOfTen, Refuted, Candidate, Row, Settled;
    assert Entry(81) == DiyFp(0xbf21_e440_03ac_dd2d, 933)
        && !OtherBounds(0xbf21_e440_03ac_dd2d, 688_6270_0495_3319_3879, 764, 763, 383);
    hide OtherBounds, Entry;
    PowersOfTwoThatOccur();
    PowersOfTenThatOccur();
    RowsHold();
    var row := if be < 38 then Rows29(be) else if be < 47 then Rows38(be) else Rows47(be);
    assert Row(688_6270_0495_3319_3879, 764, 763, 383, Pow(2, 89 - be), Misread(be));
    hide Misread;
    Settle(be, 81, 29, 55, 688_6270_0495_3319_3879, 764, 763, 383, Misread(be));
  }

  function Rows55(be: int): bool {
    match be
    case 55 => Power(462_1297_6022_1396_3715, 513, 512, 257, 0x1000_0000_0000_0000, 10, 4008_3367_2001_7946, false)
    case 56 => Power(462_1297_6022_1396_3715, 513, 512, 257, 0x800_0000_0000_0000, 10, 8016_6734_4003_5891, false)
    case 57 => Power(462_1297_6022_1396_3715, 513, 512, 257, 0x400_0000_0000_0000, 10, 1_6033_3468_8007_1782, false)
    case 58 => Power(462_1297_6022_1396_3715, 513, 512, 257, 0x200_0000_0000_0000, 10, 3_2066_6937_6014_3564, false)
    case 59 => Power(462_1297_6022_1396_3715, 513, 512, 257, 0x100_0000_0000_0000, 100, 6413_3387_5202_8713, false)
    case 60 => Power(462_1297_6022_1396_3715, 513, 512, 257, 0x80_0000_0000_0000, 100, 1_2826_6775_0405_7426, false)
    case 61 => Power(462_1297_6022_1396_3715, 513, 512, 257, 0x40_0000_0000_0000, 1000, 2565_3355_0081_1485, true)
    case 62 => Power(462_1297_6022_1396_3715, 513, 512, 257, 0x20_0000_0000_0000, 1_0000, 513_0671_0016_2297, true)
    case _ => Power(462_1297_6022_1396_3715, 513, 512, 257, 0x10_0000_0000_0000, 1_0000, 1026_1342_0032_4594, true)
  }

  function Rows64(be: int): bool {
    match be
    case 64 => Power(462_1297_6022_1396_3715, 513, 512, 257, 0x8_0000_0000_0000, 1_0000, 2052_2684_0064_9188, true)
    case 65 => Power(462_1297_6022_1396_3715, 513, 512, 257, 0x4_0000_0000_0000, 1_0000, 4104_5368_0129_8376, true)
    case 66 => Power(462_1297_6022_1396_3715, 513, 512, 257, 0x2_0000_0000_0000, 1_0000, 8209_0736_0259_6752, true)
    case 67 => Power(462_1297_6022_1396_3715, 513, 512, 257, 0x1_0000_0000_0000, 1_0000, 1_6418_1472_0519_3505, false)
    case 68 => Power(462_1297_6022_1396_3715, 513, 512, 257, 0x8000_0000_0000, 10_0000, 3283_6294_4103_8701, false)
    case 69 => Power(462_1297_6022_1396_3715, 513, 512, 257, 0x4000_0000_0000, 10_0000, 6567_2588_8207_7402, false)
    case 70 => Power(462_1297_6022_1396_3715, 513, 512, 257, 0x2000_0000_0000, 10_0000, 1_3134_5177_6415_4804, false)
    case 71 => Power(462_1297_6022_1396_3715, 513, 512, 257, 0x1000_0000_0000, 100_0000, 2626_9035_5283_0961, false)
    case _ => Power(462_1297_6022_1396_3715, 513, 512, 257, 0x800_0000_0000, 100_0000, 5253_8071_0566_1922, false)
  }

  function Rows73(be: int): bool {
    match be
    case 73 => Power(462_1297_6022_1396_3715, 513, 512, 257, 0x400_0000_0000, 100_0000, 1_0507_6142_1132_3843, false)
    case 74 => Power(462_1297_6022_1396_3715, 513, 512, 257, 0x200_0000_0000, 100_0000, 2_1015_2284_2264_7686, false)
    case 75 => Power(462_1297_6022_1396_3715, 513, 512, 257, 0x100_0000_0000, 1000_0000, 4203_0456_8452_9537, true)
    case 76 => Power(462_1297_6022_1396_3715, 513, 512, 257, 0x80_0000_0000, 1000_0000, 8406_0913_6905_9075, false)
    case 77 => Power(462_1297_6022_1396_3715, 513, 512, 257, 0x40_0000_0000, 1_0000_0000, 1681_2182_7381_1815, false)
    case 78 => Power(462_1297_6022_1396_3715, 513, 512, 257, 0x20_0000_0000, 10_0000_0000, 336_2436_5476_2363, false)
    case 79 => Power(462_1297_6022_1396_3715, 513, 512, 257, 0x10_0000_0000, 10_0000_0000, 672_4873_0952_4726, false)
    case 80 => Power(462_1297_6022_1396_3715, 513, 512, 257, 0x8_0000_0000, 10_0000_0000, 1344_9746_1904_9452, false)
    case _ => Power(462_1297_6022_1396_3715, 513, 512, 257, 0x4_0000_0000, 10_0000_0000, 2689_9492_3809_8904, false)
  }

  lemma Settled80(be: nat)
    requires 55 <= be < 82
    ensures Settled(be, Misread(be))
  {
    hide HalfUlp, Serves, Normalized, Pow, PowerOfTen, Refuted, Candidate, Row, Settled;
    assert Entry(80) == DiyFp(0x8044_4b5e_7aa7_cf85, 907)
        && !OtherBounds(0x8044_4b5e_7aa7_cf85, 462_1297_6022_1396_3715, 513, 512, 257);
    hide OtherBounds, Entry;
    PowersOfTwoThatOccur();
    PowersOfTenThatOccur();
    RowsHold();
    var row := if be < 64 then Rows55(be) else if be < 73 then Rows64(be) else Rows73(be);
    assert Row(462_1297_6022_1396_3715, 513, 512, 257, Pow(2, 115 - be), Misread(be));
    hide Misread;
    Settle(be, 80, 55, 82, 462_1297_6022_1396_3715, 513, 512, 257, Misread(be));
  }

  function Rows82(be: int): bool {
    match be
    case 82 => Power(620_2600_6458_1005_9797, 688, 687, 345, 0x1000_0000_0000_0000, 10, 5379_8984_7619_7808, false)
    case 83 => Power(620_2600_6458_1005_9797, 688, 687, 345, 0x800_0000_0000_0000, 10, 1_0759_7969_5239_5615, false)
    case 84 => Power(620_2600_6458_1005_9797, 688, 687, 345, 0x400_0000_0000_0000, 100, 2151_9593_9047_9123, false)
    case 85 => Power(620_2600_6458_1005_9797, 688, 687, 345, 0x200_0000_0000_0000, 100, 4303_9187_8095_8246, false)
    case 86 => Power(620_2600_6458_1005_9797, 688, 687, 345, 0x100_0000_0000_0000, 100, 8607_8375_6191_6492, false)
    case 87 => Power(620_2600_6458_1005_9797, 688, 687, 345, 0x80_0000_0000_0000, 100, 1_7215_6751_2383_2985, false)
    case 88 => Power(620_2600_6458_1005_9797, 688, 687, 345, 0x40_0000_0000_0000, 1000, 3443_1350_2476_6597, false)
    case 89 => Power(620_2600_6458_1005_9797, 688, 687, 345, 0x20_0000_0000_0000, 1000, 6886_2700_4953_3194, false)
    case _ => Power(620_2600_6458_1005_9797, 688, 687, 345, 0x10_0000_0000_0000, 1000, 1_3772_5400_9906_6388, false)
  }

  function Rows91(be: int): bool {
    match be
    case 91 => Power(620_2600_6458_1005_9797, 688, 687, 345, 0x8_0000_0000_0000, 1000, 2_7545_0801_9813_2776, false)
    case 92 => Power(620_2600_6458_1005_9797, 688, 687, 345, 0x4_0000_0000_0000, 1_0000, 5509_0160_3962_6555, false)
    case 93 => Power(620_2600_6458_1005_9797, 688, 687, 345, 0x2_0000_0000_0000, 10_0000, 1101_8032_0792_5311, false)
    case 94 => Power(620_2600_6458_1005_9797, 688, 687, 345, 0x1_0000_0000_0000, 10_0000, 2203_6064_1585_0622, false)
    case 95 => Power(620_2600_6458_1005_9797, 688, 687, 345, 0x8000_0000_0000, 10_0000, 4407_2128_3170_1244, false)
    case 96 => Power(620_2600_6458_1005_9797, 688, 687, 345, 0x4000_0000_0000, 10_0000, 8814_4256_6340_2488, false)
    case 97 => Power(620_2600_6458_1005_9797, 688, 687, 345, 0x2000_0000_0000, 10_0000, 1_7628_8513_2680_4976, false)
    case 98 => Power(620_2600_6458_1005_9797, 688, 687, 345, 0x1000_0000_0000, 100_0000, 3525_7702_6536_0995, true)
    case _ => Power(620_2600_6458_1005_9797, 688, 687, 345, 0x800_0000_0000, 1000_0000, 705_1540_5307_2199, true)
  }

  function Rows100(be: int): bool {
    match be
    case 100 => Power(620_2600_6458_1005_9797, 688, 687, 345, 0x400_0000_0000, 1000_0000, 1410_3081_0614_4398, true)
    case 101 => Power(620_2600_6458_1005_9797, 688, 687, 345, 0x200_0000_0000, 1000_0000, 2820_6162_1228_8796, true)
    case 102 => Power(620_2600_6458_1005_9797, 688, 687, 345, 0x100_0000_0000, 1000_0000, 5641_2324_2457_7592, true)
    case 103 => Power(620_2600_6458_1005_9797, 688, 687, 345, 0x80_0000_0000, 1000_0000, 1_1282_4648_4915_5185, false)
    case 104 => Power(620_2600_6458_1005_9797, 688, 687, 345, 0x40_0000_0000, 1_0000_0000, 2256_4929_6983_1037, false)
    case 105 => Power(620_2600_6458_1005_9797, 688, 687, 345, 0x20_0000_0000, 1_0000_0000, 4512_9859_3966_2074, false)
    case 106 => Power(620_2600_6458_1005_9797, 688, 687, 345, 0x10_0000_0000, 1_0000_0000, 9025_9718_7932_4148, false)
    case 107 => Power(620_2600_6458_1005_9797, 688, 687, 345, 0x8_0000_0000, 1_0000_0000, 1_8051_9437_5864_8296, false)
    case _ => Power(620_2600_6458_1005_9797, 688, 687, 345, 0x4_0000_0000, 10_0000_0000, 3610_3887_5172_9659, false)
  }

  lemma Settled79(be: nat)
    requires 82 <= be < 109
    ensures Settled(be, Misread(be))
  {
    hide HalfUlp, Serves, Normalized, Pow, PowerOfTen, Refuted, Candidate, Row, Settled;
    assert Entry(79) == DiyFp(0xac28_20d9_623b_f429, 880)
        && !OtherBounds(0xac28_20d9_623b_f429, 620_2600_6458_1005_9797, 688, 687, 345);
    hide OtherBounds, Entry;
    PowersOfTwoThatOccur();
    PowersOfTenThatOccur();
    RowsHold();
    var row := if be < 91 then Rows82(be) else if be < 100 then Rows91(be) else Rows100(be);
    assert Row(620_2600_6458_1005_9797, 688, 687, 345, Pow(2, 142 - be), Misread(be));
    hide Misread;
    Settle(be, 79, 82, 109, 620_2600_6458_1005_9797, 688, 687, 345, Misread(be));
  }

  function Rows109(be: int): bool {
    match be
    case 109 => Power(832_4989_6637_1958_9455, 924, 923, 463, 0x1000_0000_0000_0000, 10, 7220_7775_0345_9318, false)
    case 110 => Power(832_4989_6637_1958_9455, 924, 923, 463, 0x800_0000_0000_0000, 10, 1_4441_5550_0691_8637, false)
    case 111 => Power(832_4989_6637_1958_9455, 924, 923, 463, 0x400_0000_0000_0000, 10, 2_8883_1100_1383_7273, false)
    case 112 => Power(832_4989_6637_1958_9455, 924, 923, 463, 0x200_0000_0000_0000, 100, 5776_6220_0276_7455, false)
    case 113 => Power(832_4989_6637_1958_9455, 924, 923, 463, 0x100_0000_0000_0000, 1000, 1155_3244_0055_3491, false)
    case 114 => Power(832_4989_6637_1958_9455, 924, 923, 463, 0x80_0000_0000_0000, 1000, 2310_6488_0110_6982, false)
    case 115 => Power(832_4989_6637_1958_9455, 924, 923, 463, 0x40_0000_0000_0000, 1000, 4621_2976_0221_3964, false)
    case 116 => Power(832_4989_6637_1958_9455, 924, 923, 463, 0x20_0000_0000_0000, 1000, 9242_5952_0442_7927, false)
    case _ => Power(832_4989_6637_1958_9455, 924, 923, 463, 0x10_0000_0000_0000, 1000, 1_8485_1904_0885_5855, false)
  }

  function Rows118(be: int): bool {
    match be
    case 118 => Power(832_4989_6637_1958_9455, 924, 923, 463, 0x8_0000_0000_0000, 1_0000, 3697_0380_8177_1171, false)
    case 119 => Power(832_4989_6637_1958_9455, 924, 923, 463, 0x4_0000_0000_0000, 1_0000, 7394_0761_6354_2342, false)
    case 120 => Power(832_4989_6637_1958_9455, 924, 923, 463, 0x2_0000_0000_0000, 1_0000, 1_4788_1523_2708_4684, false)
    case 121 => Power(832_4989_6637_1958_9455, 924, 923, 463, 0x1_0000_0000_0000, 10_0000, 2957_6304_6541_6937, false)
    case 122 => Power(832_4989_6637_1958_9455, 924, 923, 463, 0x8000_0000_0000, 10_0000, 5915_2609_3083_3874, false)
    case 123 => Power(832_4989_6637_1958_9455, 924, 923, 463, 0x4000_0000_0000, 10_0000, 1_1830_5218_6166_7747, false)
    case 124 => Power(832_4989_6637_1958_9455, 924, 923, 463, 0x2000_0000_0000, 10_0000, 2_3661_0437_2333_5494, false)
    case 125 => Power(832_4989_6637_1958_9455, 924, 923, 463, 0x1000_0000_0000, 100_0000, 4732_2087_4466_7099, false)
    case _ => Power(832_4989_6637_1958_9455, 924, 923, 463, 0x800_0000_0000, 100_0000, 9464_4174_8933_4198, false)
  }

  function Rows127(be: int): bool {
    match be
    case 127 => Power(832_4989_6637_1958_9455, 924, 923, 463, 0x400_0000_0000, 100_0000, 1_8928_8349_7866_8395, false)
    case 128 => Power(832_4989_6637_1958_9455, 924, 923, 463, 0x200_0000_0000, 1000_0000, 3785_7669_9573_3679, false)
    case 129 => Power(832_4989_6637_1958_9455, 924, 923, 463, 0x100_0000_0000, 1000_0000, 7571_5339_9146_7358, false)
    case 130 => Power(832_4989_6637_1958_9455, 924, 923, 463, 0x80_0000_0000, 1000_0000, 1_5143_0679_8293_4716, false)
    case 131 => Power(832_4989_6637_1958_9455, 924, 923, 463, 0x40_0000_0000, 1_0000_0000, 3028_6135_9658_6943, true)
    case 132 => Power(832_4989_6637_1958_9455, 924, 923, 463, 0x20_0000_0000, 1_0000_0000, 6057_2271_9317_3887, false)
    case 133 => Power(832_4989_6637_1958_9455, 924, 923, 463, 0x10_0000_0000, 1_0000_0000, 1_2114_4543_8634_7773, false)
    case _ => Power(832_4989_6637_1958_9455, 924, 923, 463, 0x8_0000_0000, 1_0000_0000, 2_4228_9087_7269_5546, false)
  }

  lemma Settled78(be: nat)
    requires 109 <= be < 135
    ensures Settled(be, Misread(be))
  {
    hide HalfUlp, Serves, Normalized, Pow, PowerOfTen, Refuted, Candidate, Row, Settled;
    assert Entry(78) == DiyFp(0xe710_9bfb_a19c_0c9d, 853)
        && !OtherBounds(0xe710_9bfb_a19c_0c9d, 832_4989_6637_1958_9455, 924, 923, 463);
    hide OtherBounds, Entry;
    PowersOfTwoThatOccur();
    PowersOfTenThatOccur();
    RowsHold();
    var row := if be < 118 then Rows109(be) else if be < 127 then Rows118(be) else Rows127(be);
    assert Row(832_4989_6637_1958_9455, 924, 923, 463, Pow(2, 169 - be), Misread(be));
    hide Misread;
    Settle(be, 78, 109, 135, 832_4989_6637_1958_9455, 924, 923, 463, Misread(be));
  }

  function Rows135(be: int): bool {
    match be
    case 135 => Power(558_6805_9914_3963_6629, 620, 619, 311, 0x1000_0000_0000_0000, 10, 4845_7817_5453_9109, false)
    case 136 => Power(558_6805_9914_3963_6629, 620, 619, 311, 0x800_0000_0000_0000, 10, 9691_5635_0907_8218, false)
    case 137 => Power(558_6805_9914_3963_6629, 620, 619, 311, 0x400_0000_0000_0000, 10, 1_9383_1270_1815_6437, false)
    case 138 => Power(558_6805_9914_3963_6629, 620, 619, 311, 0x200_0000_0000_0000, 100, 3876_6254_0363_1287, true)
    case 139 => Power(558_6805_9914_3963_6629, 620, 619, 311, 0x100_0000_0000_0000, 100, 7753_2508_0726_2575, false)
    case 140 => Power(558_6805_9914_3963_6629, 620, 619, 311, 0x80_0000_0000_0000, 1000, 1550_6501_6145_2515, false)
    case 141 => Power(558_6805_9914_3963_6629, 620, 619, 311, 0x40_0000_0000_0000, 1_0000, 310_1300_3229_0503, false)
    case 142 => Power(558_6805_9914_3963_6629, 620, 619, 311, 0x20_0000_0000_0000, 1_0000, 620_2600_6458_1006, false)
    case _ => Power(558_6805_9914_3963_6629, 620, 619, 311, 0x10_0000_0000_0000, 1_0000, 1240_5201_2916_2012, false)
  }

  function Rows144(be: int): bool {
    match be
    case 144 => Power(558_6805_9914_3963_6629, 620, 619, 311, 0x8_0000_0000_0000, 1_0000, 2481_0402_5832_4024, false)
    case 145 => Power(558_6805_9914_3963_6629, 620, 619, 311, 0x4_0000_0000_0000, 1_0000, 4962_0805_1664_8048, false)
    case 146 => Power(558_6805_9914_3963_6629, 620, 619, 311, 0x2_0000_0000_0000, 1_0000, 9924_1610_3329_6096, false)
    case 147 => Power(558_6805_9914_3963_6629, 620, 619, 311, 0x1_0000_0000_0000, 10_0000, 1984_8322_0665_9219, true)
    case 148 => Power(558_6805_9914_3963_6629, 620, 619, 311, 0x8000_0000_0000, 10_0000, 3969_6644_1331_8438, true)
    case 149 => Power(558_6805_9914_3963_6629, 620, 619, 311, 0x4000_0000_0000, 10_0000, 7939_3288_2663_6877, false)
    case 150 => Power(558_6805_9914_3963_6629, 620, 619, 311, 0x2000_0000_0000, 10_0000, 1_5878_6576_5327_3753, false)
    case 151 => Power(558_6805_9914_3963_6629, 620, 619, 311, 0x1000_0000_0000, 10_0000, 3_1757_3153_0654_7506, false)
    case _ => Power(558_6805_9914_3963_6629, 620, 619, 311, 0x800_0000_0000, 100_0000, 6351_4630_6130_9501, false)
  }

  function Rows153(be: int): bool {
    match be
    case 153 => Power(558_6805_9914_3963_6629, 620, 619, 311, 0x400_0000_0000, 100_0000, 1_2702_9261_2261_9002, false)
    case 154 => Power(558_6805_9914_3963_6629, 620, 619, 311, 0x200_0000_0000, 100_0000, 2_5405_8522_4523_8005, false)
    case 155 => Power(558_6805_9914_3963_6629, 620, 619, 311, 0x100_0000_0000, 1000_0000, 5081_1704_4904_7601, false)
    case 156 => Power(558_6805_9914_3963_6629, 620, 619, 311, 0x80_0000_0000, 1000_0000, 1_0162_3408_9809_5202, false)
    case 157 => Power(558_6805_9914_3963_6629, 620, 619, 311, 0x40_0000_0000, 1000_0000, 2_0324_6817_9619_0404, false)
    case 158 => Power(558_6805_9914_3963_6629, 620, 619, 311, 0x20_0000_0000, 1_0000_0000, 4064_9363_5923_8081, false)
    case 159 => Power(558_6805_9914_3963_6629, 620, 619, 311, 0x10_0000_0000, 1_0000_0000, 8129_8727_1847_6162, false)
    case 160 => Power(558_6805_9914_3963_6629, 620, 619, 311, 0x8_0000_0000, 1_0000_0000, 1_6259_7454_3695_2323, false)
    case _ => Power(558_6805_9914_3963_6629, 620, 619, 311, 0x4_0000_0000, 1_0000_0000, 3_2519_4908_7390_4646, false)
  }

  lemma Settled77(be: nat)
    requires 135 <= be < 162
    ensures Settled(be, Misread(be))
  {
    hide HalfUlp, Serves, Normalized, Pow, PowerOfTen, Refuted, Candidate, Row, Settled;
    assert Entry(77) == DiyFp(0x9b10_a4e5_e991_3129, 827)
        && !OtherBounds(0x9b10_a4e5_e991_3129, 558_6805_9914_3963_6629, 620, 619, 311);
    hide OtherBounds, Entry;
    PowersOfTwoThatOccur();
    PowersOfTenThatOccur();
    RowsHold();
    var row := if be < 144 then Rows135(be) else if be < 153 then Rows144(be) else Rows153(be);
    assert Row(558_6805_9914_3963_6629, 620, 619, 311, Pow(2, 195 - be), Misread(be));
    hide Misread;
    Settle(be, 77, 135, 162, 558_6805_9914_3963_6629, 620, 619, 311, Misread(be));
  }

  function Rows162(be: int): bool {
    match be
    case 162 => Power(749_8484_0694_7815_4774, 831, 831, 416, 0x1000_0000_0000_0000, 10, 6503_8981_7478_0929, false)
    case 163 => Power(749_8484_0694_7815_4774, 831, 831, 416, 0x800_0000_0000_0000, 10, 1_3007_7963_4956_1859, false)
    case 164 => Power(749_8484_0694_7815_4774, 831, 831, 416, 0x400_0000_0000_0000, 10, 2_6015_5926_9912_3717, false)
    case 165 => Power(749_8484_0694_7815_4774, 831, 831, 416, 0x200_0000_0000_0000, 100, 5203_1185_3982_4743, true)
    case 166 => Power(749_8484_0694_7815_4774, 831, 831, 416, 0x100_0000_0000_0000, 100, 1_0406_2370_7964_9487, false)
    case 167 => Power(749_8484_0694_7815_4774, 831, 831, 416, 0x80_0000_0000_0000, 100, 2_0812_4741_5929_8974, false)
    case 168 => Power(749_8484_0694_7815_4774, 831, 831, 416, 0x40_0000_0000_0000, 1000, 4162_4948_3185_9795, false)
    case 169 => Power(749_8484_0694_7815_4774, 831, 831, 416, 0x20_0000_0000_0000, 1_0000, 832_4989_6637_1959, false)
    case _ => Power(749_8484_0694_7815_4774, 831, 831, 416, 0x10_0000_0000_0000, 1_0000, 1664_9979_3274_3918, false)
  }

  function Rows171(be: int): bool {
    match be
    case 171 => Power(749_8484_0694_7815_4774, 831, 831, 416, 0x8_0000_0000_0000, 1_0000, 3329_9958_6548_7836, false)
    case 172 => Power(749_8484_0694_7815_4774, 831, 831, 416, 0x4_0000_0000_0000, 1_0000, 6659_9917_3097_5672, false)
    case 173 => Power(749_8484_0694_7815_4774, 831, 831, 416, 0x2_0000_0000_0000, 1_0000, 1_3319_9834_6195_1343, false)
    case 174 => Power(749_8484_0694_7815_4774, 831, 831, 416, 0x1_0000_0000_0000, 1_0000, 2_6639_9669_2390_2686, false)
    case 175 => Power(749_8484_0694_7815_4774, 831, 831, 416, 0x8000_0000_0000, 10_0000, 5327_9933_8478_0537, false)
    case 176 => Power(749_8484_0694_7815_4774, 831, 831, 416, 0x4000_0000_0000, 10_0000, 1_0655_9867_6956_1075, false)
    case 177 => Power(749_8484_0694_7815_4774, 831, 831, 416, 0x2000_0000_0000, 100_0000, 2131_1973_5391_2215, false)
    case 178 => Power(749_8484_0694_7815_4774, 831, 831, 416, 0x1000_0000_0000, 1000_0000, 426_2394_7078_2443, false)
    case _ => Power(749_8484_0694_7815_4774, 831, 831, 416, 0x800_0000_0000, 1000_0000, 852_4789_4156_4886, false)
  }

  function Rows180(be: int): bool {
    match be
    case 180 => Power(749_8484_0694_7815_4774, 831, 831, 416, 0x400_0000_0000, 1000_0000, 1704_9578_8312_9772, false)
    case 181 => Power(749_8484_0694_7815_4774, 831, 831, 416, 0x200_0000_0000, 1000_0000, 3409_9157_6625_9544, false)
    case 182 => Power(749_8484_0694_7815_4774, 831, 831, 416, 0x100_0000_0000, 1000_0000, 6819_8315_3251_9088, false)
    case 183 => Power(749_8484_0694_7815_4774, 831, 831, 416, 0x80_0000_0000, 1000_0000, 1_3639_6630_6503_8175, false)
    case 184 => Power(749_8484_0694_7815_4774, 831, 831, 416, 0x40_0000_0000, 1_0000_0000, 2727_9326_1300_7635, false)
    case 185 => Power(749_8484_0694_7815_4774, 831, 831, 416, 0x20_0000_0000, 10_0000_0000, 545_5865_2260_1527, false)
    case 186 => Power(749_8484_0694_7815_4774, 831, 831, 416, 0x10_0000_0000, 10_0000_0000, 1091_1730_4520_3054, false)
    case _ => Power(749_8484_0694_7815_4774, 831, 831, 416, 0x8_0000_0000, 10_0000_0000, 2182_3460_9040_6108, false)
  }

  lemma Settled76(be: nat)
    requires 162 <= be < 188
    ensures Settled(be, Misread(be))
  {
    hide HalfUlp, Serves, Normalized, Pow, PowerOfTen, Refuted, Candidate, Row, Settled;
    assert Entry(76) == DiyFp(0xd01f_ef10_a657_842c, 800)
        && !OtherBounds(0xd01f_ef10_a657_842c, 749_8484_0694_7815_4774, 831, 831, 416);
    hide OtherBounds, Entry;
    PowersOfTwoThatOccur();
    PowersOfTenThatOccur();
    RowsHold();
    var row := if be < 171 then Rows162(be) else if be < 180 then Rows171(be) else Rows180(be);
    assert Row(749_8484_0694_7815_4774, 831, 831, 416, Pow(2, 222 - be), Misread(be));
    hide Misread;
    Settle(be, 76, 162, 188, 749_8484_0694_7815_4774, 831, 831, 416, Misread(be));
  }

  function Rows188(be: int): bool {
    match be
    case 188 => Power(503_2147_4762_4776_0397, 558, 558, 279, 0x1000_0000_0000_0000, 10, 4364_6921_8081_2216, false)
    case 189 => Power(503_2147_4762_4776_0397, 558, 558, 279, 0x800_0000_0000_0000, 10, 8729_3843_6162_4432, false)
    case 190 => Power(503_2147_4762_4776_0397, 558, 558, 279, 0x400_0000_0000_0000, 10, 1_7458_7687_2324_8864, false)
    case 191 => Power(503_2147_4762_4776_0397, 558, 558, 279, 0x200_0000_0000_0000, 100, 3491_7537_4464_9773, false)
    case 192 => Power(503_2147_4762_4776_0397, 558, 558, 279, 0x100_0000_0000_0000, 100, 6983_5074_8929_9546, false)
    case 193 => Power(503_2147_4762_4776_0397, 558, 558, 279, 0x80_0000_0000_0000, 100, 1_3967_0149_7859_9092, false)
    case 194 => Power(503_2147_4762_4776_0397, 558, 558, 279, 0x40_0000_0000_0000, 100, 2_7934_0299_5719_8183, false)
    case 195 => Power(503_2147_4762_4776_0397, 558, 558, 279, 0x20_0000_0000_0000, 1000, 5586_8059_9143_9637, false)
    case _ => Power(503_2147_4762_4776_0397, 558, 558, 279, 0x10_0000_0000_0000, 1000, 1_1173_6119_8287_9273, false)
  }

  function Rows197(be: int): bool {
    match be
    case 197 => Power(503_2147_4762_4776_0397, 558, 558, 279, 0x8_0000_0000_0000, 1000, 2_2347_2239_6575_8547, false)
    case 198 => Power(503_2147_4762_4776_0397, 558, 558, 279, 0x4_0000_0000_0000, 1_0000, 4469_4447_9315_1709, true)
    case 199 => Power(503_2147_4762_4776_0397, 558, 558, 279, 0x2_0000_0000_0000, 1_0000, 8938_8895_8630_3419, false)
    case 200 => Power(503_2147_4762_4776_0397, 558, 558, 279, 0x1_0000_0000_0000, 1_0000, 1_7877_7791_7260_6837, false)
    case 201 => Power(503_2147_4762_4776_0397, 558, 558, 279, 0x8000_0000_0000, 1_0000, 3_5755_5583_4521_3674, false)
    case 202 => Power(503_2147_4762_4776_0397, 558, 558, 279, 0x4000_0000_0000, 10_0000, 7151_1116_6904_2735, false)
    case 203 => Power(503_2147_4762_4776_0397, 558, 558, 279, 0x2000_0000_0000, 100_0000, 1430_2223_3380_8547, false)
    case 204 => Power(503_2147_4762_4776_0397, 558, 558, 279, 0x1000_0000_0000, 100_0000, 2860_4446_6761_7094, false)
    case _ => Power(503_2147_4762_4776_0397, 558, 558, 279, 0x800_0000_0000, 100_0000, 5720_8893_3523_4188, false)
  }

  function Rows206(be: int): bool {
    match be
    case 206 => Power(503_2147_4762_4776_0397, 558, 558, 279, 0x400_0000_0000, 100_0000, 1_1441_7786_7046_8376, false)
    case 207 => Power(503_2147_4762_4776_0397, 558, 558, 279, 0x200_0000_0000, 1000_0000, 2288_3557_3409_3675, true)
    case 208 => Power(503_2147_4762_4776_0397, 558, 558, 279, 0x100_0000_0000, 1_0000_0000, 457_6711_4681_8735, true)
    case 209 => Power(503_2147_4762_4776_0397, 558, 558, 279, 0x80_0000_0000, 10_0000_0000, 91_5342_2936_3747, true)
    case 210 => Power(503_2147_4762_4776_0397, 558, 558, 279, 0x40_0000_0000, 10_0000_0000, 183_0684_5872_7494, true)
    case 211 => Power(503_2147_4762_4776_0397, 558, 558, 279, 0x20_0000_0000, 10_0000_0000, 366_1369_1745_4988, true)
    case 212 => Power(503_2147_4762_4776_0397, 558, 558, 279, 0x10_0000_0000, 10_0000_0000, 732_2738_3490_9976, true)
    case 213 => Power(503_2147_4762_4776_0397, 558, 558, 279, 0x8_0000_0000, 10_0000_0000, 1464_5476_6981_9952, true)
    case _ => Power(503_2147_4762_4776_0397, 558, 558, 279, 0x4_0000_0000, 10_0000_0000, 2929_0953_3963_9904, true)
  }

  lemma Settled75(be: nat)
    requires 188 <= be < 215
    ensures Settled(be, Misread(be))
  {
    hide HalfUlp, Serves, Normalized, Pow, PowerOfTen, Refuted, Candidate, Row, Settled;
    assert Entry(75) == DiyFp(0x8bab_8eef_b640_9c1a, 774)
        && !OtherBounds(0x8bab_8eef_b640_9c1a, 503_2147_4762_4776_0397, 558, 558, 279);
    hide OtherBounds, Entry;
    PowersOfTwoThatOccur();
    PowersOfTenThatOccur();
    RowsHold();
    var row := if be < 197 then Rows188(be) else if be < 206 then Rows197(be) else Rows206(be);
    assert Row(503_2147_4762_4776_0397, 558, 558, 279, Pow(2, 248 - be), Misread(be));
    hide Misread;
    Settle(be, 75, 188, 215, 503_2147_4762_4776_0397, 558, 558, 279, Misread(be));
  }

  function Rows215(be: int): bool {
    match be
    case 215 => Power(675_4034_0122_2908_3656, 749, 749, 375, 0x1000_0000_0000_0000, 10, 5858_1906_7927_9808, true)
    case 216 => Power(675_4034_0122_2908_3656, 749, 749, 375, 0x800_0000_0000_0000, 10, 1_1716_3813_5855_9617, false)
    case 217 => Power(675_4034_0122_2908_3656, 749, 749, 375, 0x400_0000_0000_0000, 10, 2_3432_7627_1711_9234, false)
    case 218 => Power(675_4034_0122_2908_3656, 749, 749, 375, 0x200_0000_0000_0000, 100, 4686_5525_4342_3847, false)
    case 219 => Power(675_4034_0122_2908_3656, 749, 749, 375, 0x100_0000_0000_0000, 100, 9373_1050_8684_7693, false)
    case 220 => Power(675_4034_0122_2908_3656, 749, 749, 375, 0x80_0000_0000_0000, 100, 1_8746_2101_7369_5387, false)
    case 221 => Power(675_4034_0122_2908_3656, 749, 749, 375, 0x40_0000_0000_0000, 1000, 3749_2420_3473_9077, true)
    case 222 => Power(675_4034_0122_2908_3656, 749, 749, 375, 0x20_0000_0000_0000, 1000, 7498_4840_6947_8155, false)
    case _ => Power(675_4034_0122_2908_3656, 749, 749, 375, 0x10_0000_0000_0000, 1_0000, 1499_6968_1389_5631, false)
  }

  function Rows224(be: int): bool {
    match be
    case 224 => Power(675_4034_0122_2908_3656, 749, 749, 375, 0x8_0000_0000_0000, 1_0000, 2999_3936_2779_1262, false)
    case 225 => Power(675_4034_0122_2908_3656, 749, 749, 375, 0x4_0000_0000_0000, 1_0000, 5998_7872_5558_2524, false)
    case 226 => Power(675_4034_0122_2908_3656, 749, 749, 375, 0x2_0000_0000_0000, 1_0000, 1_1997_5745_1116_5048, false)
    case 227 => Power(675_4034_0122_2908_3656, 749, 749, 375, 0x1_0000_0000_0000, 1_0000, 2_3995_1490_2233_0095, false)
    case 228 => Power(675_4034_0122_2908_3656, 749, 749, 375, 0x8000_0000_0000, 10_0000, 4799_0298_0446_6019, false)
    case 229 => Power(675_4034_0122_2908_3656, 749, 749, 375, 0x4000_0000_0000, 10_0000, 9598_0596_0893_2038, false)
    case 230 => Power(675_4034_0122_2908_3656, 749, 749, 375, 0x2000_0000_0000, 10_0000, 1_9196_1192_1786_4076, false)
    case 231 => Power(675_4034_0122_2908_3656, 749, 749, 375, 0x1000_0000_0000, 100_0000, 3839_2238_4357_2815, true)
    case _ => Power(675_4034_0122_2908_3656, 749, 749, 375, 0x800_0000_0000, 1000_0000, 767_8447_6871_4563, true)
  }

  function Rows233(be: int): bool {
    match be
    case 233 => Power(675_4034_0122_2908_3656, 749, 749, 375, 0x400_0000_0000, 1000_0000, 1535_6895_3742_9126, true)
    case 234 => Power(675_4034_0122_2908_3656, 749, 749, 375, 0x200_0000_0000, 1000_0000, 3071_3790_7485_8252, true)
    case 235 => Power(675_4034_0122_2908_3656, 749, 749, 375, 0x100_0000_0000, 1000_0000, 6142_7581_4971_6504, true)
    case 236 => Power(675_4034_0122_2908_3656, 749, 749, 375, 0x80_0000_0000, 1_0000_0000, 1228_5516_2994_3301, false)
    case 237 => Power(675_4034_0122_2908_3656, 749, 749, 375, 0x40_0000_0000, 1_0000_0000, 2457_1032_5988_6602, false)
    case 238 => Power(675_4034_0122_2908_3656, 749, 749, 375, 0x20_0000_0000, 1_0000_0000, 4914_2065_1977_3204, false)
    case 239 => Power(675_4034_0122_2908_3656, 749, 749, 375, 0x10_0000_0000, 1_0000_0000, 9828_4130_3954_6407, false)
    case 240 => Power(675_4034_0122_2908_3656, 749, 749, 375, 0x8_0000_0000, 1_0000_0000, 1_9656_8260_7909_2814, false)
    case _ => Power(675_4034_0122_2908_3656, 749, 749, 375, 0x4_0000_0000, 10_0000_0000, 3931_3652_1581_8563, false)
  }

  lemma Settled74(be: nat)
    requires 215 <= be < 242
    ensures Settled(be, Misread(be))
  {
    hide HalfUlp, Serves, Normalized, Pow, PowerOfTen, Refuted, Candidate, Row, Settled;
    assert Entry(74) == DiyFp(0xbb76_4c4c_a7a4_4410, 747)
        && !OtherBounds(0xbb76_4c4c_a7a4_4410, 675_4034_0122_2908_3656, 749, 749, 375);
    hide OtherBounds, Entry;
    PowersOfTwoThatOccur();
    PowersOfTenThatOccur();
    RowsHold();
    var row := if be < 224 then Rows215(be) else if be < 233 then Rows224(be) else Rows233(be);
    assert Row(675_4034_0122_2908_3656, 749, 749, 375, Pow(2, 275 - be), Misread(be));
    hide Misread;
    Settle(be, 74, 215, 242, 675_4034_0122_2908_3656, 749, 749, 375, Misread(be));
  }

  function Rows242(be: int): bool {
    match be
    case 242 => Power(906_5110_9995_6111_8238, 1005, 1005, 503, 0x1000_0000_0000_0000, 10, 7862_7304_3163_7126, false)
    case 243 => Power(906_5110_9995_6111_8238, 1005, 1005, 503, 0x800_0000_0000_0000, 100, 1572_5460_8632_7425, true)
    case 244 => Power(906_5110_9995_6111_8238, 1005, 1005, 503, 0x400_0000_0000_0000, 1000, 314_5092_1726_5485, true)
    case 245 => Power(906_5110_9995_6111_8238, 1005, 1005, 503, 0x200_0000_0000_0000, 1_0000, 62_9018_4345_3097, true)
    case 246 => Power(906_5110_9995_6111_8238, 1005, 1005, 503, 0x100_0000_0000_0000, 1_0000, 125_8036_8690_6194, true)
    case 247 => Power(906_5110_9995_6111_8238, 1005, 1005, 503, 0x80_0000_0000_0000, 1_0000, 251_6073_7381_2388, true)
    case 248 => Power(906_5110_9995_6111_8238, 1005, 1005, 503, 0x40_0000_0000_0000, 1_0000, 503_2147_4762_4776, true)
    case 249 => Power(906_5110_9995_6111_8238, 1005, 1005, 503, 0x20_0000_0000_0000, 1_0000, 1006_4294_9524_9552, true)
    case _ => Power(906_5110_9995_6111_8238, 1005, 1005, 503, 0x10_0000_0000_0000, 1_0000, 2012_8589_9049_9104, true)
  }

  function Rows251(be: int): bool {
    match be
    case 251 => Power(906_5110_9995_6111_8238, 1005, 1005, 503, 0x8_0000_0000_0000, 1_0000, 4025_7179_8099_8208, true)
    case 252 => Power(906_5110_9995_6111_8238, 1005, 1005, 503, 0x4_0000_0000_0000, 1_0000, 8051_4359_6199_6417, false)
    case 253 =>
      Power(906_5110_9995_6111_8238, 1005, 1005, 503, 0x2_0000_0000_0000, 1_0000, 1_6102_8719_2399_2833, false)
    case 254 => Power(906_5110_9995_6111_8238, 1005, 1005, 503, 0x1_0000_0000_0000, 10_0000, 3220_5743_8479_8567, false)
    case 255 => Power(906_5110_9995_6111_8238, 1005, 1005, 503, 0x8000_0000_0000, 10_0000, 6441_1487_6959_7133, false)
    case 256 => Power(906_5110_9995_6111_8238, 1005, 1005, 503, 0x4000_0000_0000, 10_0000, 1_2882_2975_3919_4267, false)
    case 257 => Power(906_5110_9995_6111_8238, 1005, 1005, 503, 0x2000_0000_0000, 10_0000, 2_5764_5950_7838_8533, false)
    case 258 => Power(906_5110_9995_6111_8238, 1005, 1005, 503, 0x1000_0000_0000, 100_0000, 5152_9190_1567_7707, false)
    case _ => Power(906_5110_9995_6111_8238, 1005, 1005, 503, 0x800_0000_0000, 100_0000, 1_0305_8380_3135_5413, false)
  }

  function Rows260(be: int): bool {
    match be
    case 260 => Power(906_5110_9995_6111_8238, 1005, 1005, 503, 0x400_0000_0000, 100_0000, 2_0611_6760_6271_0827, false)
    case 261 => Power(906_5110_9995_6111_8238, 1005, 1005, 503, 0x200_0000_0000, 1000_0000, 4122_3352_1254_2165, true)
    case 262 => Power(906_5110_9995_6111_8238, 1005, 1005, 503, 0x100_0000_0000, 1_0000_0000, 824_4670_4250_8433, true)
    case 263 => Power(906_5110_9995_6111_8238, 1005, 1005, 503, 0x80_0000_0000, 1_0000_0000, 1648_9340_8501_6866, true)
    case 264 => Power(906_5110_9995_6111_8238, 1005, 1005, 503, 0x40_0000_0000, 1_0000_0000, 3297_8681_7003_3732, true)
    case 265 => Power(906_5110_9995_6111_8238, 1005, 1005, 503, 0x20_0000_0000, 1_0000_0000, 6595_7363_4006_7465, false)
    case 266 =>
      Power(906_5110_9995_6111_8238, 1005, 1005, 503, 0x10_0000_0000, 10_0000_0000, 1319_1472_6801_3493, false)
    case _ => Power(906_5110_9995_6111_8238, 1005, 1005, 503, 0x8_0000_0000, 10_0000_0000, 2638_2945_3602_6986, false)
  }

  lemma Settled73(be: nat)
    requires 242 <= be < 268
    ensures Settled(be, Misread(be))
  {
    hide HalfUlp, Serves, Normalized, Pow, PowerOfTen, Refuted, Candidate, Row, Settled;
    assert Entry(73) == DiyFp(0xfb9b_7cd9_a4a7_443c, 720)
        && !OtherBounds(0xfb9b_7cd9_a4a7_443c, 906_5110_9995_6111_8238, 1005, 1005, 503);
    hide OtherBounds, Entry;
    PowersOfTwoThatOccur();
    PowersOfTenThatOccur();
    RowsHold();
    var row := if be < 251 then Rows242(be) else if be < 260 then Rows251(be) else Rows260(be);
    assert Row(906_5110_9995_6111_8238, 1005, 1005, 503, Pow(2, 302 - be), Misread(be));
    hide Misread;
    Settle(be, 73, 242, 268, 906_5110_9995_6111_8238, 1005, 1005, 503, Misread(be));
  }

  function Rows268(be: int): bool {
    match be
    case 268 => Power(608_3493_0121_4451_1435, 674, 674, 338, 0x1000_0000_0000_0000, 10, 5276_5890_7205_3972, false)
    case 269 => Power(608_3493_0121_4451_1435, 674, 674, 338, 0x800_0000_0000_0000, 10, 1_0553_1781_4410_7943, false)
    case 270 => Power(608_3493_0121_4451_1435, 674, 674, 338, 0x400_0000_0000_0000, 10, 2_1106_3562_8821_5886, false)
    case 271 => Power(608_3493_0121_4451_1435, 674, 674, 338, 0x200_0000_0000_0000, 100, 4221_2712_5764_3177, true)
    case 272 => Power(608_3493_0121_4451_1435, 674, 674, 338, 0x100_0000_0000_0000, 100, 8442_5425_1528_6355, false)
    case 273 => Power(608_3493_0121_4451_1435, 674, 674, 338, 0x80_0000_0000_0000, 1000, 1688_5085_0305_7271, false)
    case 274 => Power(608_3493_0121_4451_1435, 674, 674, 338, 0x40_0000_0000_0000, 1000, 3377_0170_0611_4542, false)
    case 275 => Power(608_3493_0121_4451_1435, 674, 674, 338, 0x20_0000_0000_0000, 1000, 6754_0340_1222_9084, false)
    case _ => Power(608_3493_0121_4451_1435, 674, 674, 338, 0x10_0000_0000_0000, 1000, 1_3508_0680_2445_8167, false)
  }

  function Rows277(be: int): bool {
    match be
    case 277 => Power(608_3493_0121_4451_1435, 674, 674, 338, 0x8_0000_0000_0000, 1000, 2_7016_1360_4891_6335, false)
    case 278 => Power(608_3493_0121_4451_1435, 674, 674, 338, 0x4_0000_0000_0000, 1_0000, 5403_2272_0978_3267, false)
    case 279 => Power(608_3493_0121_4451_1435, 674, 674, 338, 0x2_0000_0000_0000, 1_0000, 1_0806_4544_1956_6534, false)
    case 280 => Power(608_3493_0121_4451_1435, 674, 674, 338, 0x1_0000_0000_0000, 10_0000, 2161_2908_8391_3307, false)
    case 281 => Power(608_3493_0121_4451_1435, 674, 674, 338, 0x8000_0000_0000, 10_0000, 4322_5817_6782_6614, false)
    case 282 => Power(608_3493_0121_4451_1435, 674, 674, 338, 0x4000_0000_0000, 10_0000, 8645_1635_3565_3227, false)
    case 283 => Power(608_3493_0121_4451_1435, 674, 674, 338, 0x2000_0000_0000, 10_0000, 1_7290_3270_7130_6454, false)
    case 284 => Power(608_3493_0121_4451_1435, 674, 674, 338, 0x1000_0000_0000, 100_0000, 3458_0654_1426_1291, false)
    case _ => Power(608_3493_0121_4451_1435, 674, 674, 338, 0x800_0000_0000, 100_0000, 6916_1308_2852_2582, false)
  }

  function Rows286(be: int): bool {
    match be
    case 286 => Power(608_3493_0121_4451_1435, 674, 674, 338, 0x400_0000_0000, 100_0000, 1_3832_2616_5704_5163, false)
    case 287 => Power(608_3493_0121_4451_1435, 674, 674, 338, 0x200_0000_0000, 100_0000, 2_7664_5233_1409_0327, false)
    case 288 => Power(608_3493_0121_4451_1435, 674, 674, 338, 0x100_0000_0000, 1000_0000, 5532_9046_6281_8065, true)
    case 289 => Power(608_3493_0121_4451_1435, 674, 674, 338, 0x80_0000_0000, 1_0000_0000, 1106_5809_3256_3613, true)
    case 290 => Power(608_3493_0121_4451_1435, 674, 674, 338, 0x40_0000_0000, 1_0000_0000, 2213_1618_6512_7226, true)
    case 291 => Power(608_3493_0121_4451_1435, 674, 674, 338, 0x20_0000_0000, 1_0000_0000, 4426_3237_3025_4452, true)
    case 292 => Power(608_3493_0121_4451_1435, 674, 674, 338, 0x10_0000_0000, 1_0000_0000, 8852_6474_6050_8905, false)
    case 293 => Power(608_3493_0121_4451_1435, 674, 674, 338, 0x8_0000_0000, 10_0000_0000, 1770_5294_9210_1781, false)
    case _ => Power(608_3493_0121_4451_1435, 674, 674, 338, 0x4_0000_0000, 10_0000_0000, 3541_0589_8420_3562, false)
  }

  lemma Settled72(be: nat)
    requires 268 <= be < 295
    ensures Settled(be, Misread(be))
  {
    hide HalfUlp, Serves, Normalized, Pow, PowerOfTen, Refuted, Candidate, Row, Settled;
    assert Entry(72) == DiyFp(0xa8d9_d153_5ce3_b396, 694)
        && !OtherBounds(0xa8d9_d153_5ce3_b396, 608_3493_0121_4451_1435, 674, 674, 338);
    hide OtherBounds, Entry;
    PowersOfTwoThatOccur();
    PowersOfTenThatOccur();
    RowsHold();
    var row := if be < 277 then Rows268(be) else if be < 286 then Rows277(be) else Rows286(be);
    assert Row(608_3493_0121_4451_1435, 674, 674, 338, Pow(2, 328 - be), Misread(be));
    hide Misread;
    Settle(be, 72, 268, 295, 608_3493_0121_4451_1435, 674, 674, 338, Misread(be));
  }

  function Rows295(be: int): bool {
    match be
    case 295 => Power(816_5126_1039_3912_7325, 906, 906, 453, 0x1000_0000_0000_0000, 10, 7082_1179_6840_7124, false)
    case 296 => Power(816_5126_1039_3912_7325, 906, 906, 453, 0x800_0000_0000_0000, 10, 1_4164_2359_3681_4247, false)
    case 297 => Power(816_5126_1039_3912_7325, 906, 906, 453, 0x400_0000_0000_0000, 10, 2_8328_4718_7362_8494, false)
    case 298 => Power(816_5126_1039_3912_7325, 906, 906, 453, 0x200_0000_0000_0000, 100, 5665_6943_7472_5699, false)
    case 299 => Power(816_5126_1039_3912_7325, 906, 906, 453, 0x100_0000_0000_0000, 100, 1_1331_3887_4945_1398, false)
    case 300 => Power(816_5126_1039_3912_7325, 906, 906, 453, 0x80_0000_0000_0000, 100, 2_2662_7774_9890_2796, false)
    case 301 => Power(816_5126_1039_3912_7325, 906, 906, 453, 0x40_0000_0000_0000, 1000, 4532_5554_9978_0559, false)
    case 302 => Power(816_5126_1039_3912_7325, 906, 906, 453, 0x20_0000_0000_0000, 1000, 9065_1109_9956_1118, false)
    case _ => Power(816_5126_1039_3912_7325, 906, 906, 453, 0x10_0000_0000_0000, 1000, 1_8130_2219_9912_2236, false)
  }

  function Rows304(be: int): bool {
    match be
    case 304 => Power(816_5126_1039_3912_7325, 906, 906, 453, 0x8_0000_0000_0000, 1_0000, 3626_0443_9982_4447, true)
    case 305 => Power(816_5126_1039_3912_7325, 906, 906, 453, 0x4_0000_0000_0000, 1_0000, 7252_0887_9964_8895, false)
    case 306 => Power(816_5126_1039_3912_7325, 906, 906, 453, 0x2_0000_0000_0000, 10_0000, 1450_4177_5992_9779, false)
    case 307 => Power(816_5126_1039_3912_7325, 906, 906, 453, 0x1_0000_0000_0000, 10_0000, 2900_8355_1985_9558, false)
    case 308 => Power(816_5126_1039_3912_7325, 906, 906, 453, 0x8000_0000_0000, 10_0000, 5801_6710_3971_9116, false)
    case 309 => Power(816_5126_1039_3912_7325, 906, 906, 453, 0x4000_0000_0000, 10_0000, 1_1603_3420_7943_8231, false)
    case 310 => Power(816_5126_1039_3912_7325, 906, 906, 453, 0x2000_0000_0000, 10_0000, 2_3206_6841_5887_6463, false)
    case 311 => Power(816_5126_1039_3912_7325, 906, 906, 453, 0x1000_0000_0000, 100_0000, 4641_3368_3177_5293, false)
    case _ => Power(816_5126_1039_3912_7325, 906, 906, 453, 0x800_0000_0000, 100_0000, 9282_6736_6355_0585, false)
  }

  function Rows313(be: int): bool {
    match be
    case 313 => Power(816_5126_1039_3912_7325, 906, 906, 453, 0x400_0000_0000, 1000_0000, 1856_5347_3271_0117, false)
    case 314 => Power(816_5126_1039_3912_7325, 906, 906, 453, 0x200_0000_0000, 1000_0000, 3713_0694_6542_0234, false)
    case 315 => Power(816_5126_1039_3912_7325, 906, 906, 453, 0x100_0000_0000, 1000_0000, 7426_1389_3084_0468, false)
    case 316 => Power(816_5126_1039_3912_7325, 906, 906, 453, 0x80_0000_0000, 1000_0000, 1_4852_2778_6168_0936, false)
    case 317 => Power(816_5126_1039_3912_7325, 906, 906, 453, 0x40_0000_0000, 1_0000_0000, 2970_4555_7233_6187, true)
    case 318 => Power(816_5126_1039_3912_7325, 906, 906, 453, 0x20_0000_0000, 1_0000_0000, 5940_9111_4467_2374, true)
    case 319 => Power(816_5126_1039_3912_7325, 906, 906, 453, 0x10_0000_0000, 10_0000_0000, 1188_1822_2893_4475, false)
    case _ => Power(816_5126_1039_3912_7325, 906, 906, 453, 0x8_0000_0000, 100_0000_0000, 237_6364_4578_6895, false)
  }

  lemma Settled71(be: nat)
    requires 295 <= be < 321
    ensures Settled(be, Misread(be))
  {
    hide HalfUlp, Serves, Normalized, Pow, PowerOfTen, Refuted, Candidate, Row, Settled;
    assert Entry(71) == DiyFp(0xe2a0_b5dc_971f_303a, 667)
        && !OtherBounds(0xe2a0_b5dc_971f_303a, 816_5126_1039_3912_7325, 906, 906, 453);
    hide OtherBounds, Entry;
    PowersOfTwoThatOccur();
    PowersOfTenThatOccur();
    RowsHold();
    var row := if be < 304 then Rows295(be) else if be < 313 then Rows304(be) else Rows313(be);
    assert Row(816_5126_1039_3912_7325, 906, 906, 453, Pow(2, 355 - be), Misread(be));
    hide Misread;
    Settle(be, 71, 295, 321, 816_5126_1039_3912_7325, 906, 906, 453, Misread(be));
  }

  function Rows321(be: int): bool {
    match be
    case 321 => Power(547_9523_3725_2100_7600, 608, 607, 305, 0x1000_0000_0000_0000, 1000, 47_5272_8915_7379, false)
    case 322 => Power(547_9523_3725_2100_7600, 608, 607, 305, 0x800_0000_0000_0000, 1000, 95_0545_7831_4758, false)
    case 323 => Power(547_9523_3725_2100_7600, 608, 607, 305, 0x400_0000_0000_0000, 1000, 190_1091_5662_9516, false)
    case 324 => Power(547_9523_3725_2100_7600, 608, 607, 305, 0x200_0000_0000_0000, 1000, 380_2183_1325_9032, false)
    case 325 => Power(547_9523_3725_2100_7600, 608, 607, 305, 0x100_0000_0000_0000, 1000, 760_4366_2651_8064, false)
    case 326 => Power(547_9523_3725_2100_7600, 608, 607, 305, 0x80_0000_0000_0000, 1000, 1520_8732_5303_6128, false)
    case 327 => Power(547_9523_3725_2100_7600, 608, 607, 305, 0x40_0000_0000_0000, 1000, 3041_7465_0607_2256, false)
    case 328 => Power(547_9523_3725_2100_7600, 608, 607, 305, 0x20_0000_0000_0000, 1000, 6083_4930_1214_4511, true)
    case _ => Power(547_9523_3725_2100_7600, 608, 607, 305, 0x10_0000_0000_0000, 1000, 1_2166_9860_2428_9023, false)
  }

  function Rows330(be: int): bool {
    match be
    case 330 => Power(547_9523_3725_2100_7600, 608, 607, 305, 0x8_0000_0000_0000, 1000, 2_4333_9720_4857_8046, false)
    case 331 => Power(547_9523_3725_2100_7600, 608, 607, 305, 0x4_0000_0000_0000, 1_0000, 4866_7944_0971_5609, false)
    case 332 => Power(547_9523_3725_2100_7600, 608, 607, 305, 0x2_0000_0000_0000, 1_0000, 9733_5888_1943_1218, false)
    case 333 => Power(547_9523_3725_2100_7600, 608, 607, 305, 0x1_0000_0000_0000, 1_0000, 1_9467_1776_3886_2437, false)
    case 334 => Power(547_9523_3725_2100_7600, 608, 607, 305, 0x8000_0000_0000, 10_0000, 3893_4355_2777_2487, true)
    case 335 => Power(547_9523_3725_2100_7600, 608, 607, 305, 0x4000_0000_0000, 10_0000, 7786_8710_5554_4975, false)
    case 336 => Power(547_9523_3725_2100_7600, 608, 607, 305, 0x2000_0000_0000, 100_0000, 1557_3742_1110_8995, false)
    case 337 => Power(547_9523_3725_2100_7600, 608, 607, 305, 0x1000_0000_0000, 1000_0000, 311_4748_4222_1799, false)
    case _ => Power(547_9523_3725_2100_7600, 608, 607, 305, 0x800_0000_0000, 1000_0000, 622_9496_8444_3598, false)
  }

  function Rows339(be: int): bool {
    match be
    case 339 => Power(547_9523_3725_2100_7600, 608, 607, 305, 0x400_0000_0000, 1000_0000, 1245_8993_6888_7196, false)
    case 340 => Power(547_9523_3725_2100_7600, 608, 607, 305, 0x200_0000_0000, 1000_0000, 2491_7987_3777_4392, false)
    case 341 => Power(547_9523_3725_2100_7600, 608, 607, 305, 0x100_0000_0000, 1000_0000, 4983_5974_7554_8784, false)
    case 342 => Power(547_9523_3725_2100_7600, 608, 607, 305, 0x80_0000_0000, 1000_0000, 9967_1949_5109_7568, false)
    case 343 => Power(547_9523_3725_2100_7600, 608, 607, 305, 0x40_0000_0000, 1000_0000, 1_9934_3899_0219_5135, false)
    case 344 => Power(547_9523_3725_2100_7600, 608, 607, 305, 0x20_0000_0000, 1_0000_0000, 3986_8779_8043_9027, false)
    case 345 => Power(547_9523_3725_2100_7600, 608, 607, 305, 0x10_0000_0000, 1_0000_0000, 7973_7559_6087_8054, false)
    case 346 => Power(547_9523_3725_2100_7600, 608, 607, 305, 0x8_0000_0000, 1_0000_0000, 1_5947_5119_2175_6108, false)
    case _ => Power(547_9523_3725_2100_7600, 608, 607, 305, 0x4_0000_0000, 1_0000_0000, 3_1895_0238_4351_2216, false)
  }

  lemma Settled70(be: nat)
    requires 321 <= be < 348
    ensures Settled(be, Misread(be))
  {
    hide HalfUlp, Serves, Normalized, Pow, PowerOfTen, Refuted, Candidate, Row, Settled;
    assert Entry(70) == DiyFp(0x9816_5af3_7b21_53df, 641)
        && !OtherBounds(0x9816_5af3_7b21_53df, 547_9523_3725_2100_7600, 608, 607, 305);
    hide OtherBounds, Entry;
    PowersOfTwoThatOccur();
    PowersOfTenThatOccur();
    RowsHold();
    var row := if be < 330 then Rows321(be) else if be < 339 then Rows330(be) else Rows339(be);
    assert Row(547_9523_3725_2100_7600, 608, 607, 305, Pow(2, 381 - be), Misread(be));
    hide Misread;
    Settle(be, 70, 321, 348, 547_9523_3725_2100_7600, 608, 607, 305, Misread(be));
  }

  function Rows348(be: int): bool {
    match be
    case 348 => Power(735_4491_7758_2667_2723, 816, 815, 409, 0x1000_0000_0000_0000, 10, 6379_0047_6870_2443, false)
    case 349 => Power(735_4491_7758_2667_2723, 816, 815, 409, 0x800_0000_0000_0000, 10, 1_2758_0095_3740_4886, false)
    case 350 => Power(735_4491_7758_2667_2723, 816, 815, 409, 0x400_0000_0000_0000, 10, 2_5516_0190_7480_9773, false)
    case 351 => Power(735_4491_7758_2667_2723, 816, 815, 409, 0x200_0000_0000_0000, 100, 5103_2038_1496_1955, false)
    case 352 => Power(735_4491_7758_2667_2723, 816, 815, 409, 0x100_0000_0000_0000, 1000, 1020_6407_6299_2391, false)
    case 353 => Power(735_4491_7758_2667_2723, 816, 815, 409, 0x80_0000_0000_0000, 1000, 2041_2815_2598_4782, false)
    case 354 => Power(735_4491_7758_2667_2723, 816, 815, 409, 0x40_0000_0000_0000, 1000, 4082_5630_5196_9564, false)
    case 355 => Power(735_4491_7758_2667_2723, 816, 815, 409, 0x20_0000_0000_0000, 1000, 8165_1261_0393_9127, false)
    case _ => Power(735_4491_7758_2667_2723, 816, 815, 409, 0x10_0000_0000_0000, 1000, 1_6330_2522_0787_8255, false)
  }

  function Rows357(be: int): bool {
    match be
    case 357 => Power(735_4491_7758_2667_2723, 816, 815, 409, 0x8_0000_0000_0000, 1_0000, 3266_0504_4157_5651, false)
    case 358 => Power(735_4491_7758_2667_2723, 816, 815, 409, 0x4_0000_0000_0000, 1_0000, 6532_1008_8315_1302, false)
    case 359 => Power(735_4491_7758_2667_2723, 816, 815, 409, 0x2_0000_0000_0000, 1_0000, 1_3064_2017_6630_2604, false)
    case 360 => Power(735_4491_7758_2667_2723, 816, 815, 409, 0x1_0000_0000_0000, 10_0000, 2612_8403_5326_0521, false)
    case 361 => Power(735_4491_7758_2667_2723, 816, 815, 409, 0x8000_0000_0000, 10_0000, 5225_6807_0652_1041, true)
    case 362 => Power(735_4491_7758_2667_2723, 816, 815, 409, 0x4000_0000_0000, 10_0000, 1_0451_3614_1304_2083, false)
    case 363 => Power(735_4491_7758_2667_2723, 816, 815, 409, 0x2000_0000_0000, 10_0000, 2_0902_7228_2608_4166, false)
    case 364 => Power(735_4491_7758_2667_2723, 816, 815, 409, 0x1000_0000_0000, 100_0000, 4180_5445_6521_6833, false)
    case _ => Power(735_4491_7758_2667_2723, 816, 815, 409, 0x800_0000_0000, 100_0000, 8361_0891_3043_3666, false)
  }

  function Rows366(be: int): bool {
    match be
    case 366 => Power(735_4491_7758_2667_2723, 816, 815, 409, 0x400_0000_0000, 100_0000, 1_6722_1782_6086_7333, false)
    case 367 => Power(735_4491_7758_2667_2723, 816, 815, 409, 0x200_0000_0000, 100_0000, 3_3444_3565_2173_4666, false)
    case 368 => Power(735_4491_7758_2667_2723, 816, 815, 409, 0x100_0000_0000, 1000_0000, 6688_8713_0434_6933, false)
    case 369 => Power(735_4491_7758_2667_2723, 816, 815, 409, 0x80_0000_0000, 1000_0000, 1_3377_7426_0869_3866, false)
    case 370 => Power(735_4491_7758_2667_2723, 816, 815, 409, 0x40_0000_0000, 1_0000_0000, 2675_5485_2173_8773, true)
    case 371 => Power(735_4491_7758_2667_2723, 816, 815, 409, 0x20_0000_0000, 1_0000_0000, 5351_0970_4347_7546, true)
    case 372 => Power(735_4491_7758_2667_2723, 816, 815, 409, 0x10_0000_0000, 1_0000_0000, 1_0702_1940_8695_5093, false)
    case _ => Power(735_4491_7758_2667_2723, 816, 815, 409, 0x8_0000_0000, 1_0000_0000, 2_1404_3881_7391_0186, false)
  }

  lemma Settled69(be: nat)
    requires 348 <= be < 374
    ensures Settled(be, Misread(be))
  {
    hide HalfUlp, Serves, Normalized, Pow, PowerOfTen, Refuted, Candidate, Row, Settled;
    assert Entry(69) == DiyFp(0xcc20_ce9b_d35c_78a5, 614)
        && !OtherBounds(0xcc20_ce9b_d35c_78a5, 735_4491_7758_2667_2723, 816, 815, 409);
    hide OtherBounds, Entry;
    PowersOfTwoThatOccur();
    PowersOfTenThatOccur();
    RowsHold();
    var row := if be < 357 then Rows348(be) else if be < 366 then Rows357(be) else Rows366(be);
    assert Row(735_4491_7758_2667_2723, 816, 815, 409, Pow(2, 408 - be), Misread(be));
    hide Misread;
    Settle(be, 69, 348, 374, 735_4491_7758_2667_2723, 816, 815, 409, Misread(be));
  }

  function Rows374(be: int): bool {
    match be
    case 374 => Power(493_5515_8837_3070_6673, 547, 547, 274, 0x1000_0000_0000_0000, 10, 4280_8776_3478_2037, false)
    case 375 => Power(493_5515_8837_3070_6673, 547, 547, 274, 0x800_0000_0000_0000, 10, 8561_7552_6956_4074, false)
    case 376 => Power(493_5515_8837_3070_6673, 547, 547, 274, 0x400_0000_0000_0000, 100, 1712_3510_5391_2815, false)
    case 377 => Power(493_5515_8837_3070_6673, 547, 547, 274, 0x200_0000_0000_0000, 1000, 342_4702_1078_2563, false)
    case 378 => Power(493_5515_8837_3070_6673, 547, 547, 274, 0x100_0000_0000_0000, 1000, 684_9404_2156_5126, false)
    case 379 => Power(493_5515_8837_3070_6673, 547, 547, 274, 0x80_0000_0000_0000, 1000, 1369_8808_4313_0252, false)
    case 380 => Power(493_5515_8837_3070_6673, 547, 547, 274, 0x40_0000_0000_0000, 1000, 2739_7616_8626_0504, false)
    case 381 => Power(493_5515_8837_3070_6673, 547, 547, 274, 0x20_0000_0000_0000, 1000, 5479_5233_7252_1008, false)
    case _ => Power(493_5515_8837_3070_6673, 547, 547, 274, 0x10_0000_0000_0000, 1000, 1_0959_0467_4504_2015, false)
  }

  function Rows383(be: int): bool {
    match be
    case 383 => Power(493_5515_8837_3070_6673, 547, 547, 274, 0x8_0000_0000_0000, 1_0000, 2191_8093_4900_8403, false)
    case 384 => Power(493_5515_8837_3070_6673, 547, 547, 274, 0x4_0000_0000_0000, 1_0000, 4383_6186_9801_6806, false)
    case 385 => Power(493_5515_8837_3070_6673, 547, 547, 274, 0x2_0000_0000_0000, 1_0000, 8767_2373_9603_3612, false)
    case 386 => Power(493_5515_8837_3070_6673, 547, 547, 274, 0x1_0000_0000_0000, 1_0000, 1_7534_4747_9206_7224, false)
    case 387 => Power(493_5515_8837_3070_6673, 547, 547, 274, 0x8000_0000_0000, 10_0000, 3506_8949_5841_3445, false)
    case 388 => Power(493_5515_8837_3070_6673, 547, 547, 274, 0x4000_0000_0000, 100_0000, 701_3789_9168_2689, false)
    case 389 => Power(493_5515_8837_3070_6673, 547, 547, 274, 0x2000_0000_0000, 100_0000, 1402_7579_8336_5378, false)
    case 390 => Power(493_5515_8837_3070_6673, 547, 547, 274, 0x1000_0000_0000, 100_0000, 2805_5159_6673_0756, false)
    case _ => Power(493_5515_8837_3070_6673, 547, 547, 274, 0x800_0000_0000, 100_0000, 5611_0319_3346_1512, false)
  }

  function Rows392(be: int): bool {
    match be
    case 392 => Power(493_5515_8837_3070_6673, 547, 547, 274, 0x400_0000_0000, 100_0000, 1_1222_0638_6692_3024, false)
    case 393 => Power(493_5515_8837_3070_6673, 547, 547, 274, 0x200_0000_0000, 100_0000, 2_2444_1277_3384_6047, false)
    case 394 => Power(493_5515_8837_3070_6673, 547, 547, 274, 0x100_0000_0000, 1000_0000, 4488_8255_4676_9209, true)
    case 395 => Power(493_5515_8837_3070_6673, 547, 547, 274, 0x80_0000_0000, 1000_0000, 8977_6510_9353_8419, false)
    case 396 => Power(493_5515_8837_3070_6673, 547, 547, 274, 0x40_0000_0000, 1000_0000, 1_7955_3021_8707_6838, false)
    case 397 => Power(493_5515_8837_3070_6673, 547, 547, 274, 0x20_0000_0000, 1000_0000, 3_5910_6043_7415_3675, false)
    case 398 => Power(493_5515_8837_3070_6673, 547, 547, 274, 0x10_0000_0000, 1_0000_0000, 7182_1208_7483_0735, false)
    case 399 => Power(493_5515_8837_3070_6673, 547, 547, 274, 0x8_0000_0000, 10_0000_0000, 1436_4241_7496_6147, false)
    case _ => Power(493_5515_8837_3070_6673, 547, 547, 274, 0x4_0000_0000, 10_0000_0000, 2872_8483_4993_2294, false)
  }

  lemma Settled68(be: nat)
    requires 374 <= be < 401
    ensures Settled(be, Misread(be))
  {
    hide HalfUlp, Serves, Normalized, Pow, PowerOfTen, Refuted, Candidate, Row, Settled;
    assert Entry(68) == DiyFp(0x88fc_f317_f222_41e2, 588)
        && !OtherBounds(0x88fc_f317_f222_41e2, 493_5515_8837_3070_6673, 547, 547, 274);
    hide OtherBounds, Entry;
    PowersOfTwoThatOccur();
    PowersOfTenThatOccur();
    RowsHold();
    var row := if be < 383 then Rows374(be) else if be < 392 then Rows383(be) else Rows392(be);
    assert Row(493_5515_8837_3070_6673, 547, 547, 274, Pow(2, 434 - be), Misread(be));
    hide Misread;
    Settle(be, 68, 374, 401, 493_5515_8837_3070_6673, 547, 547, 274, Misread(be));
  }

  function Rows401(be: int): bool {
    match be
    case 401 => Power(662_4337_2842_2247_6135, 734, 734, 368, 0x1000_0000_0000_0000, 10, 5745_6966_9986_4588, false)
    case 402 => Power(662_4337_2842_2247_6135, 734, 734, 368, 0x800_0000_0000_0000, 10, 1_1491_3933_9972_9176, false)
    case 403 => Power(662_4337_2842_2247_6135, 734, 734, 368, 0x400_0000_0000_0000, 100, 2298_2786_7994_5835, true)
    case 404 => Power(662_4337_2842_2247_6135, 734, 734, 368, 0x200_0000_0000_0000, 1000, 459_6557_3598_9167, true)
    case 405 => Power(662_4337_2842_2247_6135, 734, 734, 368, 0x100_0000_0000_0000, 1000, 919_3114_7197_8334, true)
    case 406 => Power(662_4337_2842_2247_6135, 734, 734, 368, 0x80_0000_0000_0000, 1000, 1838_6229_4395_6668, true)
    case 407 => Power(662_4337_2842_2247_6135, 734, 734, 368, 0x40_0000_0000_0000, 1000, 3677_2458_8791_3336, true)
    case 408 => Power(662_4337_2842_2247_6135, 734, 734, 368, 0x20_0000_0000_0000, 1000, 7354_4917_7582_6673, false)
    case _ => Power(662_4337_2842_2247_6135, 734, 734, 368, 0x10_0000_0000_0000, 1000, 1_4708_9835_5165_3345, false)
  }

  function Rows410(be: int): bool {
    match be
    case 410 => Power(662_4337_2842_2247_6135, 734, 734, 368, 0x8_0000_0000_0000, 1_0000, 2941_7967_1033_0669, false)
    case 411 => Power(662_4337_2842_2247_6135, 734, 734, 368, 0x4_0000_0000_0000, 1_0000, 5883_5934_2066_1338, false)
    case 412 => Power(662_4337_2842_2247_6135, 734, 734, 368, 0x2_0000_0000_0000, 1_0000, 1_1767_1868_4132_2676, false)
    case 413 => Power(662_4337_2842_2247_6135, 734, 734, 368, 0x1_0000_0000_0000, 1_0000, 2_3534_3736_8264_5353, false)
    case 414 => Power(662_4337_2842_2247_6135, 734, 734, 368, 0x8000_0000_0000, 10_0000, 4706_8747_3652_9071, false)
    case 415 => Power(662_4337_2842_2247_6135, 734, 734, 368, 0x4000_0000_0000, 10_0000, 9413_7494_7305_8141, false)
    case 416 => Power(662_4337_2842_2247_6135, 734, 734, 368, 0x2000_0000_0000, 10_0000, 1_8827_4989_4611_6282, false)
    case 417 => Power(662_4337_2842_2247_6135, 734, 734, 368, 0x1000_0000_0000, 10_0000, 3_7654_9978_9223_2564, false)
    case _ => Power(662_4337_2842_2247_6135, 734, 734, 368, 0x800_0000_0000, 100_0000, 7530_9995_7844_6513, false)
  }

  function Rows419(be: int): bool {
    match be
    case 419 => Power(662_4337_2842_2247_6135, 734, 734, 368, 0x400_0000_0000, 100_0000, 1_5061_9991_5689_3026, false)
    case 420 => Power(662_4337_2842_2247_6135, 734, 734, 368, 0x200_0000_0000, 1000_0000, 3012_3998_3137_8605, false)
    case 421 => Power(662_4337_2842_2247_6135, 734, 734, 368, 0x100_0000_0000, 1_0000_0000, 602_4799_6627_5721, false)
    case 422 => Power(662_4337_2842_2247_6135, 734, 734, 368, 0x80_0000_0000, 1_0000_0000, 1204_9599_3255_1442, false)
    case 423 => Power(662_4337_2842_2247_6135, 734, 734, 368, 0x40_0000_0000, 1_0000_0000, 2409_9198_6510_2884, false)
    case 424 => Power(662_4337_2842_2247_6135, 734, 734, 368, 0x20_0000_0000, 1_0000_0000, 4819_8397_3020_5768, false)
    case 425 => Power(662_4337_2842_2247_6135, 734, 734, 368, 0x10_0000_0000, 1_0000_0000, 9639_6794_6041_1536, false)
    case 426 => Power(662_4337_2842_2247_6135, 734, 734, 368, 0x8_0000_0000, 1_0000_0000, 1_9279_3589_2082_3073, false)
    case _ => Power(662_4337_2842_2247_6135, 734, 734, 368, 0x4_0000_0000, 10_0000_0000, 3855_8717_8416_4615, false)
  }

  lemma Settled67(be: nat)
    requires 401 <= be < 428
    ensures Settled(be, Misread(be))
  {
    hide HalfUlp, Serves, Normalized, Pow, PowerOfTen, Refuted, Candidate, Row, Settled;
    assert Entry(67) == DiyFp(0xb7dc_bf53_54e9_bece, 561)
        && !OtherBounds(0xb7dc_bf53_54e9_bece, 662_4337_2842_2247_6135, 734, 734, 368);
    hide OtherBounds, Entry;
    PowersOfTwoThatOccur();
    PowersOfTenThatOccur();
    RowsHold();
    var row := if be < 410 then Rows401(be) else if be < 419 then Rows410(be) else Rows419(be);
    assert Row(662_4337_2842_2247_6135, 734, 734, 368, Pow(2, 461 - be), Misread(be));
    hide Misread;
    Settle(be, 67, 401, 428, 662_4337_2842_2247_6135, 734, 734, 368, Misread(be));
  }

  function Rows428(be: int): bool {
    match be
    case 428 => Power(889_1034_9979_4030_9934, 986, 986, 494, 0x1000_0000_0000_0000, 100, 771_1743_5683_2923, false)
    case 429 => Power(889_1034_9979_4030_9934, 986, 986, 494, 0x800_0000_0000_0000, 100, 1542_3487_1366_5846, false)
    case 430 => Power(889_1034_9979_4030_9934, 986, 986, 494, 0x400_0000_0000_0000, 100, 3084_6974_2733_1692, false)
    case 431 => Power(889_1034_9979_4030_9934, 986, 986, 494, 0x200_0000_0000_0000, 100, 6169_3948_5466_3383, false)
    case 432 => Power(889_1034_9979_4030_9934, 986, 986, 494, 0x100_0000_0000_0000, 100, 1_2338_7897_0932_6767, false)
    case 433 => Power(889_1034_9979_4030_9934, 986, 986, 494, 0x80_0000_0000_0000, 100, 2_4677_5794_1865_3533, false)
    case 434 => Power(889_1034_9979_4030_9934, 986, 986, 494, 0x40_0000_0000_0000, 1000, 4935_5158_8373_0707, false)
    case 435 => Power(889_1034_9979_4030_9934, 986, 986, 494, 0x20_0000_0000_0000, 1000, 9871_0317_6746_1413, false)
    case _ => Power(889_1034_9979_4030_9934, 986, 986, 494, 0x10_0000_0000_0000, 1000, 1_9742_0635_3492_2827, false)
  }

  function Rows437(be: int): bool {
    match be
    case 437 => Power(889_1034_9979_4030_9934, 986, 986, 494, 0x8_0000_0000_0000, 1_0000, 3948_4127_0698_4565, true)
    case 438 => Power(889_1034_9979_4030_9934, 986, 986, 494, 0x4_0000_0000_0000, 10_0000, 789_6825_4139_6913, true)
    case 439 => Power(889_1034_9979_4030_9934, 986, 986, 494, 0x2_0000_0000_0000, 10_0000, 1579_3650_8279_3826, true)
    case 440 => Power(889_1034_9979_4030_9934, 986, 986, 494, 0x1_0000_0000_0000, 10_0000, 3158_7301_6558_7652, true)
    case 441 => Power(889_1034_9979_4030_9934, 986, 986, 494, 0x8000_0000_0000, 10_0000, 6317_4603_3117_5305, false)
    case 442 => Power(889_1034_9979_4030_9934, 986, 986, 494, 0x4000_0000_0000, 100_0000, 1263_4920_6623_5061, false)
    case 443 => Power(889_1034_9979_4030_9934, 986, 986, 494, 0x2000_0000_0000, 100_0000, 2526_9841_3247_0122, false)
    case 444 => Power(889_1034_9979_4030_9934, 986, 986, 494, 0x1000_0000_0000, 100_0000, 5053_9682_6494_0244, false)
    case _ => Power(889_1034_9979_4030_9934, 986, 986, 494, 0x800_0000_0000, 100_0000, 1_0107_9365_2988_0487, false)
  }

  function Rows446(be: int): bool {
    match be
    case 446 => Power(889_1034_9979_4030_9934, 986, 986, 494, 0x400_0000_0000, 100_0000, 2_0215_8730_5976_0975, false)
    case 447 => Power(889_1034_9979_4030_9934, 986, 986, 494, 0x200_0000_0000, 1000_0000, 4043_1746_1195_2195, false)
    case 448 => Power(889_1034_9979_4030_9934, 986, 986, 494, 0x100_0000_0000, 1_0000_0000, 808_6349_2239_0439, false)
    case 449 => Power(889_1034_9979_4030_9934, 986, 986, 494, 0x80_0000_0000, 1_0000_0000, 1617_2698_4478_0878, false)
    case 450 => Power(889_1034_9979_4030_9934, 986, 986, 494, 0x40_0000_0000, 1_0000_0000, 3234_5396_8956_1756, false)
    case 451 => Power(889_1034_9979_4030_9934, 986, 986, 494, 0x20_0000_0000, 1_0000_0000, 6469_0793_7912_3512, false)
    case 452 => Power(889_1034_9979_4030_9934, 986, 986, 494, 0x10_0000_0000, 1_0000_0000, 1_2938_1587_5824_7024, false)
    case _ => Power(889_1034_9979_4030_9934, 986, 986, 494, 0x8_0000_0000, 10_0000_0000, 2587_6317_5164_9405, false)
  }

  lemma Settled66(be: nat)
    requires 428 <= be < 454
    ensures Settled(be, Misread(be))
  {
    hide HalfUlp, Serves, Normalized, Pow, PowerOfTen, Refuted, Candidate, Row, Settled;
    assert Entry(66) == DiyFp(0xf6c6_9a72_a398_9f5c, 534)
        && !OtherBounds(0xf6c6_9a72_a398_9f5c, 889_1034_9979_4030_9934, 986, 986, 494);
    hide OtherBounds, Entry;
    PowersOfTwoThatOccur();
    PowersOfTenThatOccur();
    RowsHold();
    var row := if be < 437 then Rows428(be) else if be < 446 then Rows437(be) else Rows446(be);
    assert Row(889_1034_9979_4030_9934, 986, 986, 494, Pow(2, 488 - be), Misread(be));
    hide Misread;
    Settle(be, 66, 428, 454, 889_1034_9979_4030_9934, 986, 986, 494, Misread(be));
  }

  function Rows454(be: int): bool {
    match be
    case 454 => Power(596_6672_5849_6016_5395, 662, 661, 332, 0x1000_0000_0000_0000, 100, 517_5263_5032_9881, false)
    case 455 => Power(596_6672_5849_6016_5395, 662, 661, 332, 0x800_0000_0000_0000, 100, 1035_0527_0065_9762, false)
    case 456 => Power(596_6672_5849_6016_5395, 662, 661, 332, 0x400_0000_0000_0000, 100, 2070_1054_0131_9524, false)
    case 457 => Power(596_6672_5849_6016_5395, 662, 661, 332, 0x200_0000_0000_0000, 100, 4140_2108_0263_9048, false)
    case 458 => Power(596_6672_5849_6016_5395, 662, 661, 332, 0x100_0000_0000_0000, 100, 8280_4216_0527_8095, false)
    case 459 => Power(596_6672_5849_6016_5395, 662, 661, 332, 0x80_0000_0000_0000, 1000, 1656_0843_2105_5619, false)
    case 460 => Power(596_6672_5849_6016_5395, 662, 661, 332, 0x40_0000_0000_0000, 1000, 3312_1686_4211_1238, false)
    case 461 => Power(596_6672_5849_6016_5395, 662, 661, 332, 0x20_0000_0000_0000, 1000, 6624_3372_8422_2476, false)
    case _ => Power(596_6672_5849_6016_5395, 662, 661, 332, 0x10_0000_0000_0000, 1000, 1_3248_6745_6844_4952, false)
  }

  function Rows463(be: int): bool {
    match be
    case 463 => Power(596_6672_5849_6016_5395, 662, 661, 332, 0x8_0000_0000_0000, 1000, 2_6497_3491_3688_9905, false)
    case 464 => Power(596_6672_5849_6016_5395, 662, 661, 332, 0x4_0000_0000_0000, 1_0000, 5299_4698_2737_7981, false)
    case 465 => Power(596_6672_5849_6016_5395, 662, 661, 332, 0x2_0000_0000_0000, 1_0000, 1_0598_9396_5475_5962, false)
    case 466 => Power(596_6672_5849_6016_5395, 662, 661, 332, 0x1_0000_0000_0000, 1_0000, 2_1197_8793_0951_1924, false)
    case 467 => Power(596_6672_5849_6016_5395, 662, 661, 332, 0x8000_0000_0000, 10_0000, 4239_5758_6190_2385, false)
    case 468 => Power(596_6672_5849_6016_5395, 662, 661, 332, 0x4000_0000_0000, 100_0000, 847_9151_7238_0477, false)
    case 469 => Power(596_6672_5849_6016_5395, 662, 661, 332, 0x2000_0000_0000, 100_0000, 1695_8303_4476_0954, false)
    case 470 => Power(596_6672_5849_6016_5395, 662, 661, 332, 0x1000_0000_0000, 100_0000, 3391_6606_8952_1908, false)
    case _ => Power(596_6672_5849_6016_5395, 662, 661, 332, 0x800_0000_0000, 100_0000, 6783_3213_7904_3816, false)
  }

  function Rows472(be: int): bool {
    match be
    case 472 => Power(596_6672_5849_6016_5395, 662, 661, 332, 0x400_0000_0000, 1000_0000, 1356_6642_7580_8763, true)
    case 473 => Power(596_6672_5849_6016_5395, 662, 661, 332, 0x200_0000_0000, 1000_0000, 2713_3285_5161_7526, true)
    case 474 => Power(596_6672_5849_6016_5395, 662, 661, 332, 0x100_0000_0000, 1000_0000, 5426_6571_0323_5052, true)
    case 475 => Power(596_6672_5849_6016_5395, 662, 661, 332, 0x80_0000_0000, 1000_0000, 1_0853_3142_0647_0105, false)
    case 476 => Power(596_6672_5849_6016_5395, 662, 661, 332, 0x40_0000_0000, 1_0000_0000, 2170_6628_4129_4021, false)
    case 477 => Power(596_6672_5849_6016_5395, 662, 661, 332, 0x20_0000_0000, 1_0000_0000, 4341_3256_8258_8042, false)
    case 478 => Power(596_6672_5849_6016_5395, 662, 661, 332, 0x10_0000_0000, 1_0000_0000, 8682_6513_6517_6084, false)
    case 479 => Power(596_6672_5849_6016_5395, 662, 661, 332, 0x8_0000_0000, 1_0000_0000, 1_7365_3027_3035_2168, false)
    case _ => Power(596_6672_5849_6016_5395, 662, 661, 332, 0x4_0000_0000, 1_0000_0000, 3_4730_6054_6070_4336, false)
  }

  lemma Settled65(be: nat)
    requires 454 <= be < 481
    ensures Settled(be, Misread(be))
  {
    hide HalfUlp, Serves, Normalized, Pow, PowerOfTen, Refuted, Candidate, Row, Settled;
    assert Entry(65) == DiyFp(0xa59b_c234_db39_8c25, 508)
        && !OtherBounds(0xa59b_c234_db39_8c25, 596_6672_5849_6016_5395, 662, 661, 332);
    hide OtherBounds, Entry;
    PowersOfTwoThatOccur();
    PowersOfTenThatOccur();
    RowsHold();
    var row := if be < 463 then Rows454(be) else if be < 472 then Rows463(be) else Rows472(be);
    assert Row(596_6672_5849_6016_5395, 662, 661, 332, Pow(2, 514 - be), Misread(be));
    hide Misread;
    Settle(be, 65, 454, 481, 596_6672_5849_6016_5395, 662, 661, 332, Misread(be));
  }

  function Rows481(be: int): bool {
    match be
    case 481 => Power(800_8332_3807_3240_3698, 889, 888, 445, 0x1000_0000_0000_0000, 10, 6946_1210_9214_0867, false)
    case 482 => Power(800_8332_3807_3240_3698, 889, 888, 445, 0x800_0000_0000_0000, 10, 1_3892_2421_8428_1734, false)
    case 483 => Power(800_8332_3807_3240_3698, 889, 888, 445, 0x400_0000_0000_0000, 100, 2778_4484_3685_6347, false)
    case 484 => Power(800_8332_3807_3240_3698, 889, 888, 445, 0x200_0000_0000_0000, 100, 5556_8968_7371_2694, false)
    case 485 => Power(800_8332_3807_3240_3698, 889, 888, 445, 0x100_0000_0000_0000, 100, 1_1113_7937_4742_5387, false)
    case 486 => Power(800_8332_3807_3240_3698, 889, 888, 445, 0x80_0000_0000_0000, 100, 2_2227_5874_9485_0775, false)
    case 487 => Power(800_8332_3807_3240_3698, 889, 888, 445, 0x40_0000_0000_0000, 1000, 4445_5174_9897_0155, false)
    case 488 => Power(800_8332_3807_3240_3698, 889, 888, 445, 0x20_0000_0000_0000, 1_0000, 889_1034_9979_4031, false)
    case _ => Power(800_8332_3807_3240_3698, 889, 888, 445, 0x10_0000_0000_0000, 1_0000, 1778_2069_9958_8062, false)
  }

  function Rows490(be: int): bool {
    match be
    case 490 => Power(800_8332_3807_3240_3698, 889, 888, 445, 0x8_0000_0000_0000, 1_0000, 3556_4139_9917_6124, false)
    case 491 => Power(800_8332_3807_3240_3698, 889, 888, 445, 0x4_0000_0000_0000, 1_0000, 7112_8279_9835_2248, false)
    case 492 => Power(800_8332_3807_3240_3698, 889, 888, 445, 0x2_0000_0000_0000, 1_0000, 1_4225_6559_9670_4496, false)
    case 493 => Power(800_8332_3807_3240_3698, 889, 888, 445, 0x1_0000_0000_0000, 10_0000, 2845_1311_9934_0899, true)
    case 494 => Power(800_8332_3807_3240_3698, 889, 888, 445, 0x8000_0000_0000, 10_0000, 5690_2623_9868_1798, true)
    case 495 => Power(800_8332_3807_3240_3698, 889, 888, 445, 0x4000_0000_0000, 10_0000, 1_1380_5247_9736_3597, false)
    case 496 => Power(800_8332_3807_3240_3698, 889, 888, 445, 0x2000_0000_0000, 10_0000, 2_2761_0495_9472_7193, false)
    case 497 => Power(800_8332_3807_3240_3698, 889, 888, 445, 0x1000_0000_0000, 100_0000, 4552_2099_1894_5439, false)
    case _ => Power(800_8332_3807_3240_3698, 889, 888, 445, 0x800_0000_0000, 100_0000, 9104_4198_3789_0877, false)
  }

  function Rows499(be: int): bool {
    match be
    case 499 => Power(800_8332_3807_3240_3698, 889, 888, 445, 0x400_0000_0000, 100_0000, 1_8208_8396_7578_1755, false)
    case 500 => Power(800_8332_3807_3240_3698, 889, 888, 445, 0x200_0000_0000, 1000_0000, 3641_7679_3515_6351, false)
    case 501 => Power(800_8332_3807_3240_3698, 889, 888, 445, 0x100_0000_0000, 1000_0000, 7283_5358_7031_2702, false)
    case 502 => Power(800_8332_3807_3240_3698, 889, 888, 445, 0x80_0000_0000, 1000_0000, 1_4567_0717_4062_5404, false)
    case 503 => Power(800_8332_3807_3240_3698, 889, 888, 445, 0x40_0000_0000, 1_0000_0000, 2913_4143_4812_5081, false)
    case 504 => Power(800_8332_3807_3240_3698, 889, 888, 445, 0x20_0000_0000, 1_0000_0000, 5826_8286_9625_0162, false)
    case 505 => Power(800_8332_3807_3240_3698, 889, 888, 445, 0x10_0000_0000, 1_0000_0000, 1_1653_6573_9250_0323, false)
    case _ => Power(800_8332_3807_3240_3698, 889, 888, 445, 0x8_0000_0000, 1_0000_0000, 2_3307_3147_8500_0646, false)
  }

  lemma Settled64(be: nat)
    requires 481 <= be < 507
    ensures Settled(be, Misread(be))
  {
    hide HalfUlp, Serves, Normalized, Pow, PowerOfTen, Refuted, Candidate, Row, Settled;
    assert Entry(64) == DiyFp(0xde46_9fbd_99a0_5fe3, 481)
        && !OtherBounds(0xde46_9fbd_99a0_5fe3, 800_8332_3807_3240_3698, 889, 888, 445);
    hide OtherBounds, Entry;
    PowersOfTwoThatOccur();
    PowersOfTenThatOccur();
    RowsHold();
    var row := if be < 490 then Rows481(be) else if be < 499 then Rows490(be) else Rows499(be);
    assert Row(800_8332_3807_3240_3698, 889, 888, 445, Pow(2, 541 - be), Misread(be));
    hide Misread;
    Settle(be, 64, 481, 507, 800_8332_3807_3240_3698, 889, 888, 445, Misread(be));
  }

  function Rows507(be: int): bool {
    match be
    case 507 => Power(537_4300_8860_5367_1002, 596, 595, 299, 0x1000_0000_0000_0000, 10, 4661_4629_5700_0129, false)
    case 508 => Power(537_4300_8860_5367_1002, 596, 595, 299, 0x800_0000_0000_0000, 10, 9322_9259_1400_0258, false)
    case 509 => Power(537_4300_8860_5367_1002, 596, 595, 299, 0x400_0000_0000_0000, 10, 1_8645_8518_2800_0517, false)
    case 510 => Power(537_4300_8860_5367_1002, 596, 595, 299, 0x200_0000_0000_0000, 100, 3729_1703_6560_0103, true)
    case 511 => Power(537_4300_8860_5367_1002, 596, 595, 299, 0x100_0000_0000_0000, 100, 7458_3407_3120_0207, false)
    case 512 => Power(537_4300_8860_5367_1002, 596, 595, 299, 0x80_0000_0000_0000, 100, 1_4916_6814_6240_0413, false)
    case 513 => Power(537_4300_8860_5367_1002, 596, 595, 299, 0x40_0000_0000_0000, 1000, 2983_3362_9248_0083, false)
    case 514 => Power(537_4300_8860_5367_1002, 596, 595, 299, 0x20_0000_0000_0000, 1000, 5966_6725_8496_0165, true)
    case _ => Power(537_4300_8860_5367_1002, 596, 595, 299, 0x10_0000_0000_0000, 1_0000, 1193_3345_1699_2033, true)
  }

  function Rows516(be: int): bool {
    match be
    case 516 => Power(537_4300_8860_5367_1002, 596, 595, 299, 0x8_0000_0000_0000, 1_0000, 2386_6690_3398_4066, true)
    case 517 => Power(537_4300_8860_5367_1002, 596, 595, 299, 0x4_0000_0000_0000, 1_0000, 4773_3380_6796_8132, true)
    case 518 => Power(537_4300_8860_5367_1002, 596, 595, 299, 0x2_0000_0000_0000, 1_0000, 9546_6761_3593_6265, false)
    case 519 => Power(537_4300_8860_5367_1002, 596, 595, 299, 0x1_0000_0000_0000, 10_0000, 1909_3352_2718_7253, false)
    case 520 => Power(537_4300_8860_5367_1002, 596, 595, 299, 0x8000_0000_0000, 10_0000, 3818_6704_5437_4506, false)
    case 521 => Power(537_4300_8860_5367_1002, 596, 595, 299, 0x4000_0000_0000, 10_0000, 7637_3409_0874_9012, false)
    case 522 => Power(537_4300_8860_5367_1002, 596, 595, 299, 0x2000_0000_0000, 10_0000, 1_5274_6818_1749_8023, false)
    case 523 => Power(537_4300_8860_5367_1002, 596, 595, 299, 0x1000_0000_0000, 100_0000, 3054_9363_6349_9605, false)
    case _ => Power(537_4300_8860_5367_1002, 596, 595, 299, 0x800_0000_0000, 1000_0000, 610_9872_7269_9921, false)
  }

  function Rows525(be: int): bool {
    match be
    case 525 => Power(537_4300_8860_5367_1002, 596, 595, 299, 0x400_0000_0000, 1000_0000, 1221_9745_4539_9842, false)
    case 526 => Power(537_4300_8860_5367_1002, 596, 595, 299, 0x200_0000_0000, 1000_0000, 2443_9490_9079_9684, false)
    case 527 => Power(537_4300_8860_5367_1002, 596, 595, 299, 0x100_0000_0000, 1000_0000, 4887_8981_8159_9367, true)
    case 528 => Power(537_4300_8860_5367_1002, 596, 595, 299, 0x80_0000_0000, 1000_0000, 9775_7963_6319_8735, false)
    case 529 => Power(537_4300_8860_5367_1002, 596, 595, 299, 0x40_0000_0000, 1_0000_0000, 1955_1592_7263_9747, false)
    case 530 => Power(537_4300_8860_5367_1002, 596, 595, 299, 0x20_0000_0000, 1_0000_0000, 3910_3185_4527_9494, false)
    case 531 => Power(537_4300_8860_5367_1002, 596, 595, 299, 0x10_0000_0000, 1_0000_0000, 7820_6370_9055_8988, false)
    case 532 => Power(537_4300_8860_5367_1002, 596, 595, 299, 0x8_0000_0000, 1_0000_0000, 1_5641_2741_8111_7976, false)
    case _ => Power(537_4300_8860_5367_1002, 596, 595, 299, 0x4_0000_0000, 10_0000_0000, 3128_2548_3622_3595, true)
  }

  lemma Settled63(be: nat)
    requires 507 <= be < 534
    ensures Settled(be, Misread(be))
  {
    hide HalfUlp, Serves, Normalized, Pow, PowerOfTen, Refuted, Candidate, Row, Settled;
    assert Entry(63) == DiyFp(0x952a_b45c_fa97_a0b3, 455)
        && !OtherBounds(0x952a_b45c_fa97_a0b3, 537_4300_8860_5367_1002, 596, 595, 299);
    hide OtherBounds, Entry;
    PowersOfTwoThatOccur();
    PowersOfTenThatOccur();
    RowsHold();
    var row := if be < 516 then Rows507(be) else if be < 525 then Rows516(be) else Rows525(be);
    assert Row(537_4300_8860_5367_1002, 596, 595, 299, Pow(2, 567 - be), Misread(be));
    hide Misread;
    Settle(be, 63, 507, 534, 537_4300_8860_5367_1002, 596, 595, 299, Misread(be));
  }

  function Rows534(be: int): bool {
    match be
    case 534 => Power(721_3264_5451_4510_6079, 800, 799, 401, 0x1000_0000_0000_0000, 100, 625_6509_6724_4719, true)
    case 535 => Power(721_3264_5451_4510_6079, 800, 799, 401, 0x800_0000_0000_0000, 100, 1251_3019_3448_9438, true)
    case 536 => Power(721_3264_5451_4510_6079, 800, 799, 401, 0x400_0000_0000_0000, 100, 2502_6038_6897_8876, true)
    case 537 => Power(721_3264_5451_4510_6079, 800, 799, 401, 0x200_0000_0000_0000, 100, 5005_2077_3795_7752, true)
    case 538 => Power(721_3264_5451_4510_6079, 800, 799, 401, 0x100_0000_0000_0000, 100, 1_0010_4154_7591_5505, false)
    case 539 => Power(721_3264_5451_4510_6079, 800, 799, 401, 0x80_0000_0000_0000, 1000, 2002_0830_9518_3101, false)
    case 540 => Power(721_3264_5451_4510_6079, 800, 799, 401, 0x40_0000_0000_0000, 1000, 4004_1661_9036_6202, false)
    case 541 => Power(721_3264_5451_4510_6079, 800, 799, 401, 0x20_0000_0000_0000, 1000, 8008_3323_8073_2404, false)
    case _ => Power(721_3264_5451_4510_6079, 800, 799, 401, 0x10_0000_0000_0000, 1000, 1_6016_6647_6146_4807, false)
  }

  function Rows543(be: int): bool {
    match be
    case 543 => Power(721_3264_5451_4510_6079, 800, 799, 401, 0x8_0000_0000_0000, 1000, 3_2033_3295_2292_9615, false)
    case 544 => Power(721_3264_5451_4510_6079, 800, 799, 401, 0x4_0000_0000_0000, 1_0000, 6406_6659_0458_5923, false)
    case 545 => Power(721_3264_5451_4510_6079, 800, 799, 401, 0x2_0000_0000_0000, 1_0000, 1_2813_3318_0917_1846, false)
    case 546 => Power(721_3264_5451_4510_6079, 800, 799, 401, 0x1_0000_0000_0000, 10_0000, 2562_6663_6183_4369, true)
    case 547 => Power(721_3264_5451_4510_6079, 800, 799, 401, 0x8000_0000_0000, 10_0000, 5125_3327_2366_8738, true)
    case 548 => Power(721_3264_5451_4510_6079, 800, 799, 401, 0x4000_0000_0000, 10_0000, 1_0250_6654_4733_7477, false)
    case 549 => Power(721_3264_5451_4510_6079, 800, 799, 401, 0x2000_0000_0000, 10_0000, 2_0501_3308_9467_4953, false)
    case 550 => Power(721_3264_5451_4510_6079, 800, 799, 401, 0x1000_0000_0000, 100_0000, 4100_2661_7893_4991, false)
    case _ => Power(721_3264_5451_4510_6079, 800, 799, 401, 0x800_0000_0000, 100_0000, 8200_5323_5786_9981, false)
  }

  function Rows552(be: int): bool {
    match be
    case 552 => Power(721_3264_5451_4510_6079, 800, 799, 401, 0x400_0000_0000, 100_0000, 1_6401_0647_1573_9963, false)
    case 553 => Power(721_3264_5451_4510_6079, 800, 799, 401, 0x200_0000_0000, 100_0000, 3_2802_1294_3147_9926, false)
    case 554 => Power(721_3264_5451_4510_6079, 800, 799, 401, 0x100_0000_0000, 1000_0000, 6560_4258_8629_5985, false)
    case 555 => Power(721_3264_5451_4510_6079, 800, 799, 401, 0x80_0000_0000, 1_0000_0000, 1312_0851_7725_9197, false)
    case 556 => Power(721_3264_5451_4510_6079, 800, 799, 401, 0x40_0000_0000, 1_0000_0000, 2624_1703_5451_8394, false)
    case 557 => Power(721_3264_5451_4510_6079, 800, 799, 401, 0x20_0000_0000, 1_0000_0000, 5248_3407_0903_6788, false)
    case 558 => Power(721_3264_5451_4510_6079, 800, 799, 401, 0x10_0000_0000, 1_0000_0000, 1_0496_6814_1807_3576, false)
    case _ => Power(721_3264_5451_4510_6079, 800, 799, 401, 0x8_0000_0000, 1_0000_0000, 2_0993_3628_3614_7152, false)
  }

  lemma Settled62(be: nat)
    requires 534 <= be < 560
    ensures Settled(be, Misread(be))
  {
    hide HalfUlp, Serves, Normalized, Pow, PowerOfTen, Refuted, Candidate, Row, Settled;
    assert Entry(62) == DiyFp(0xc835_53c5_c896_5d3d, 428)
        && !OtherBounds(0xc835_53c5_c896_5d3d, 721_3264_5451_4510_6079, 800, 799, 401);
    hide OtherBounds, Entry;
    PowersOfTwoThatOccur();
    PowersOfTenThatOccur();
    RowsHold();
    var row := if be < 543 then Rows534(be) else if be < 552 then Rows543(be) else Rows552(be);
    assert Row(721_3264_5451_4510_6079, 800, 799, 401, Pow(2, 594 - be), Misread(be));
    hide Misread;
    Settle(be, 62, 534, 560, 721_3264_5451_4510_6079, 800, 799, 401, Misread(be));
  }

  function Rows560(be: int): bool {
    match be
    case 560 => Power(484_0739_8935_6164_7841, 536, 536, 269, 0x1000_0000_0000_0000, 1, 4_1986_7256_7229_4305, false)
    case 561 => Power(484_0739_8935_6164_7841, 536, 536, 269, 0x800_0000_0000_0000, 10, 8397_3451_3445_8861, false)
    case 562 => Power(484_0739_8935_6164_7841, 536, 536, 269, 0x400_0000_0000_0000, 10, 1_6794_6902_6891_7722, false)
    case 563 => Power(484_0739_8935_6164_7841, 536, 536, 269, 0x200_0000_0000_0000, 10, 3_3589_3805_3783_5444, false)
    case 564 => Power(484_0739_8935_6164_7841, 536, 536, 269, 0x100_0000_0000_0000, 100, 6717_8761_0756_7089, false)
    case 565 => Power(484_0739_8935_6164_7841, 536, 536, 269, 0x80_0000_0000_0000, 100, 1_3435_7522_1513_4178, false)
    case 566 => Power(484_0739_8935_6164_7841, 536, 536, 269, 0x40_0000_0000_0000, 100, 2_6871_5044_3026_8355, false)
    case 567 => Power(484_0739_8935_6164_7841, 536, 536, 269, 0x20_0000_0000_0000, 1000, 5374_3008_8605_3671, false)
    case _ => Power(484_0739_8935_6164_7841, 536, 536, 269, 0x10_0000_0000_0000, 1000, 1_0748_6017_7210_7342, false)
  }

  function Rows569(be: int): bool {
    match be
    case 569 => Power(484_0739_8935_6164_7841, 536, 536, 269, 0x8_0000_0000_0000, 1000, 2_1497_2035_4421_4684, false)
    case 570 => Power(484_0739_8935_6164_7841, 536, 536, 269, 0x4_0000_0000_0000, 1_0000, 4299_4407_0884_2937, false)
    case 571 => Power(484_0739_8935_6164_7841, 536, 536, 269, 0x2_0000_0000_0000, 1_0000, 8598_8814_1768_5874, false)
    case 572 => Power(484_0739_8935_6164_7841, 536, 536, 269, 0x1_0000_0000_0000, 1_0000, 1_7197_7628_3537_1747, false)
    case 573 => Power(484_0739_8935_6164_7841, 536, 536, 269, 0x8000_0000_0000, 1_0000, 3_4395_5256_7074_3494, false)
    case 574 => Power(484_0739_8935_6164_7841, 536, 536, 269, 0x4000_0000_0000, 10_0000, 6879_1051_3414_8699, false)
    case 575 => Power(484_0739_8935_6164_7841, 536, 536, 269, 0x2000_0000_0000, 10_0000, 1_3758_2102_6829_7398, false)
    case 576 => Power(484_0739_8935_6164_7841, 536, 536, 269, 0x1000_0000_0000, 10_0000, 2_7516_4205_3659_4796, false)
    case _ => Power(484_0739_8935_6164_7841, 536, 536, 269, 0x800_0000_0000, 100_0000, 5503_2841_0731_8959, false)
  }

  function Rows578(be: int): bool {
    match be
    case 578 => Power(484_0739_8935_6164_7841, 536, 536, 269, 0x400_0000_0000, 100_0000, 1_1006_5682_1463_7918, false)
    case 579 => Power(484_0739_8935_6164_7841, 536, 536, 269, 0x200_0000_0000, 100_0000, 2_2013_1364_2927_5836, false)
    case 580 => Power(484_0739_8935_6164_7841, 536, 536, 269, 0x100_0000_0000, 1000_0000, 4402_6272_8585_5167, true)
    case 581 => Power(484_0739_8935_6164_7841, 536, 536, 269, 0x80_0000_0000, 1000_0000, 8805_2545_7171_0335, false)
    case 582 => Power(484_0739_8935_6164_7841, 536, 536, 269, 0x40_0000_0000, 1_0000_0000, 1761_0509_1434_2067, false)
    case 583 => Power(484_0739_8935_6164_7841, 536, 536, 269, 0x20_0000_0000, 1_0000_0000, 3522_1018_2868_4134, false)
    case 584 => Power(484_0739_8935_6164_7841, 536, 536, 269, 0x10_0000_0000, 1_0000_0000, 7044_2036_5736_8268, false)
    case 585 => Power(484_0739_8935_6164_7841, 536, 536, 269, 0x8_0000_0000, 1_0000_0000, 1_4088_4073_1473_6535, false)
    case _ => Power(484_0739_8935_6164_7841, 536, 536, 269, 0x4_0000_0000, 10_0000_0000, 2817_6814_6294_7307, false)
  }

  lemma Settled61(be: nat)
    requires 560 <= be < 587
    ensures Settled(be, Misread(be))
  {
    hide HalfUlp, Serves, Normalized, Pow, PowerOfTen, Refuted, Candidate, Row, Settled;
    assert Entry(61) == DiyFp(0x865b_8692_5b9b_c5c2, 402)
        && !OtherBounds(0x865b_8692_5b9b_c5c2, 484_0739_8935_6164_7841, 536, 536, 269);
    hide OtherBounds, Entry;
    PowersOfTwoThatOccur();
    PowersOfTenThatOccur();
    RowsHold();
    var row := if be < 569 then Rows560(be) else if be < 578 then Rows569(be) else Rows578(be);
    assert Row(484_0739_8935_6164_7841, 536, 536, 269, Pow(2, 620 - be), Misread(be));
    hide Misread;
    Settle(be, 61, 560, 587, 484_0739_8935_6164_7841, 536, 536, 269, Misread(be));
  }

  function Rows587(be: int): bool {
    match be
    case 587 => Power(649_7131_1035_2806_2012, 721, 720, 361, 0x1000_0000_0000_0000, 10, 5635_3629_2589_4614, false)
    case 588 => Power(649_7131_1035_2806_2012, 721, 720, 361, 0x800_0000_0000_0000, 10, 1_1270_7258_5178_9228, false)
    case 589 => Power(649_7131_1035_2806_2012, 721, 720, 361, 0x400_0000_0000_0000, 10, 2_2541_4517_0357_8456, false)
    case 590 => Power(649_7131_1035_2806_2012, 721, 720, 361, 0x200_0000_0000_0000, 100, 4508_2903_4071_5691, true)
    case 591 => Power(649_7131_1035_2806_2012, 721, 720, 361, 0x100_0000_0000_0000, 100, 9016_5806_8143_1383, false)
    case 592 => Power(649_7131_1035_2806_2012, 721, 720, 361, 0x80_0000_0000_0000, 100, 1_8033_1613_6286_2765, false)
    case 593 => Power(649_7131_1035_2806_2012, 721, 720, 361, 0x40_0000_0000_0000, 1000, 3606_6322_7257_2553, false)
    case 594 => Power(649_7131_1035_2806_2012, 721, 720, 361, 0x20_0000_0000_0000, 1000, 7213_2645_4514_5106, false)
    case _ => Power(649_7131_1035_2806_2012, 721, 720, 361, 0x10_0000_0000_0000, 1000, 1_4426_5290_9029_0212, false)
  }

  function Rows596(be: int): bool {
    match be
    case 596 => Power(649_7131_1035_2806_2012, 721, 720, 361, 0x8_0000_0000_0000, 1000, 2_8853_0581_8058_0424, false)
    case 597 => Power(649_7131_1035_2806_2012, 721, 720, 361, 0x4_0000_0000_0000, 1_0000, 5770_6116_3611_6085, false)
    case 598 => Power(649_7131_1035_2806_2012, 721, 720, 361, 0x2_0000_0000_0000, 10_0000, 1154_1223_2722_3217, false)
    case 599 => Power(649_7131_1035_2806_2012, 721, 720, 361, 0x1_0000_0000_0000, 10_0000, 2308_2446_5444_6434, false)
    case 600 => Power(649_7131_1035_2806_2012, 721, 720, 361, 0x8000_0000_0000, 10_0000, 4616_4893_0889_2868, false)
    case 601 => Power(649_7131_1035_2806_2012, 721, 720, 361, 0x4000_0000_0000, 10_0000, 9232_9786_1778_5736, false)
    case 602 => Power(649_7131_1035_2806_2012, 721, 720, 361, 0x2000_0000_0000, 100_0000, 1846_5957_2355_7147, true)
    case 603 => Power(649_7131_1035_2806_2012, 721, 720, 361, 0x1000_0000_0000, 100_0000, 3693_1914_4711_4294, true)
    case _ => Power(649_7131_1035_2806_2012, 721, 720, 361, 0x800_0000_0000, 100_0000, 7386_3828_9422_8589, false)
  }

  function Rows605(be: int): bool {
    match be
    case 605 => Power(649_7131_1035_2806_2012, 721, 720, 361, 0x400_0000_0000, 100_0000, 1_4772_7657_8845_7177, false)
    case 606 => Power(649_7131_1035_2806_2012, 721, 720, 361, 0x200_0000_0000, 100_0000, 2_9545_5315_7691_4355, false)
    case 607 => Power(649_7131_1035_2806_2012, 721, 720, 361, 0x100_0000_0000, 1000_0000, 5909_1063_1538_2871, false)
    case 608 => Power(649_7131_1035_2806_2012, 721, 720, 361, 0x80_0000_0000, 1000_0000, 1_1818_2126_3076_5742, false)
    case 609 => Power(649_7131_1035_2806_2012, 721, 720, 361, 0x40_0000_0000, 1000_0000, 2_3636_4252_6153_1484, false)
    case 610 => Power(649_7131_1035_2806_2012, 721, 720, 361, 0x20_0000_0000, 1_0000_0000, 4727_2850_5230_6297, false)
    case 611 => Power(649_7131_1035_2806_2012, 721, 720, 361, 0x10_0000_0000, 1_0000_0000, 9454_5701_0461_2593, false)
    case 612 => Power(649_7131_1035_2806_2012, 721, 720, 361, 0x8_0000_0000, 1_0000_0000, 1_8909_1402_0922_5187, false)
    case _ => Power(649_7131_1035_2806_2012, 721, 720, 361, 0x4_0000_0000, 10_0000_0000, 3781_8280_4184_5037, true)
  }

  lemma Settled60(be: nat)
    requires 587 <= be < 614
    ensures Settled(be, Misread(be))
  {
    hide HalfUlp, Serves, Normalized, Pow, PowerOfTen, Refuted, Candidate, Row, Settled;
    assert Entry(60) == DiyFp(0xb454_e4a1_79dd_1877, 375)
        && !OtherBounds(0xb454_e4a1_79dd_1877, 649_7131_1035_2806_2012, 721, 720, 361);
    hide OtherBounds, Entry;
    PowersOfTwoThatOccur();
    PowersOfTenThatOccur();
    RowsHold();
    var row := if be < 596 then Rows587(be) else if be < 605 then Rows596(be) else Rows605(be);
    assert Row(649_7131_1035_2806_2012, 721, 720, 361, Pow(2, 647 - be), Misread(be));
    hide Misread;
    Settle(be, 60, 587, 614, 649_7131_1035_2806_2012, 721, 720, 361, Misread(be));
  }

  function Rows614(be: int): bool {
    match be
    case 614 => Power(872_0301_7523_3669_2675, 968, 967, 485, 0x1000_0000_0000_0000, 10, 7563_6560_8369_0075, false)
    case 615 => Power(872_0301_7523_3669_2675, 968, 967, 485, 0x800_0000_0000_0000, 100, 1512_7312_1673_8015, false)
    case 616 => Power(872_0301_7523_3669_2675, 968, 967, 485, 0x400_0000_0000_0000, 1000, 302_5462_4334_7603, false)
    case 617 => Power(872_0301_7523_3669_2675, 968, 967, 485, 0x200_0000_0000_0000, 1000, 605_0924_8669_5206, false)
    case 618 => Power(872_0301_7523_3669_2675, 968, 967, 485, 0x100_0000_0000_0000, 1000, 1210_1849_7339_0412, false)
    case 619 => Power(872_0301_7523_3669_2675, 968, 967, 485, 0x80_0000_0000_0000, 1000, 2420_3699_4678_0824, false)
    case 620 => Power(872_0301_7523_3669_2675, 968, 967, 485, 0x40_0000_0000_0000, 1000, 4840_7398_9356_1648, false)
    case 621 => Power(872_0301_7523_3669_2675, 968, 967, 485, 0x20_0000_0000_0000, 1000, 9681_4797_8712_3296, false)
    case _ => Power(872_0301_7523_3669_2675, 968, 967, 485, 0x10_0000_0000_0000, 1_0000, 1936_2959_5742_4659, true)
  }

  function Rows623(be: int): bool {
    match be
    case 623 => Power(872_0301_7523_3669_2675, 968, 967, 485, 0x8_0000_0000_0000, 1_0000, 3872_5919_1484_9318, true)
    case 624 => Power(872_0301_7523_3669_2675, 968, 967, 485, 0x4_0000_0000_0000, 1_0000, 7745_1838_2969_8637, false)
    case 625 => Power(872_0301_7523_3669_2675, 968, 967, 485, 0x2_0000_0000_0000, 1_0000, 1_5490_3676_5939_7273, false)
    case 626 => Power(872_0301_7523_3669_2675, 968, 967, 485, 0x1_0000_0000_0000, 1_0000, 3_0980_7353_1879_4546, false)
    case 627 => Power(872_0301_7523_3669_2675, 968, 967, 485, 0x8000_0000_0000, 10_0000, 6196_1470_6375_8909, false)
    case 628 => Power(872_0301_7523_3669_2675, 968, 967, 485, 0x4000_0000_0000, 10_0000, 1_2392_2941_2751_7818, false)
    case 629 => Power(872_0301_7523_3669_2675, 968, 967, 485, 0x2000_0000_0000, 10_0000, 2_4784_5882_5503_5637, false)
    case 630 => Power(872_0301_7523_3669_2675, 968, 967, 485, 0x1000_0000_0000, 100_0000, 4956_9176_5100_7127, true)
    case _ => Power(872_0301_7523_3669_2675, 968, 967, 485, 0x800_0000_0000, 100_0000, 9913_8353_0201_4255, false)
  }

  function Rows632(be: int): bool {
    match be
    case 632 => Power(872_0301_7523_3669_2675, 968, 967, 485, 0x400_0000_0000, 1000_0000, 1982_7670_6040_2851, false)
    case 633 => Power(872_0301_7523_3669_2675, 968, 967, 485, 0x200_0000_0000, 1000_0000, 3965_5341_2080_5702, false)
    case 634 => Power(872_0301_7523_3669_2675, 968, 967, 485, 0x100_0000_0000, 1000_0000, 7931_0682_4161_1404, false)
    case 635 => Power(872_0301_7523_3669_2675, 968, 967, 485, 0x80_0000_0000, 1000_0000, 1_5862_1364_8322_2808, false)
    case 636 => Power(872_0301_7523_3669_2675, 968, 967, 485, 0x40_0000_0000, 1000_0000, 3_1724_2729_6644_5615, false)
    case 637 => Power(872_0301_7523_3669_2675, 968, 967, 485, 0x20_0000_0000, 1_0000_0000, 6344_8545_9328_9123, false)
    case 638 => Power(872_0301_7523_3669_2675, 968, 967, 485, 0x10_0000_0000, 1_0000_0000, 1_2689_7091_8657_8246, false)
    case _ => Power(872_0301_7523_3669_2675, 968, 967, 485, 0x8_0000_0000, 10_0000_0000, 2537_9418_3731_5649, true)
  }

  lemma Settled59(be: nat)
    requires 614 <= be < 640
    ensures Settled(be, Misread(be))
  {
    hide HalfUlp, Serves, Normalized, Pow, PowerOfTen, Refuted, Candidate, Row, Settled;
    assert Entry(59) == DiyFp(0xf209_787b_b47d_6b85, 348)
        && !OtherBounds(0xf209_787b_b47d_6b85, 872_0301_7523_3669_2675, 968, 967, 485);
    hide OtherBounds, Entry;
    PowersOfTwoThatOccur();
    PowersOfTenThatOccur();
    RowsHold();
    var row := if be < 623 then Rows614(be) else if be < 632 then Rows623(be) else Rows632(be);
    assert Row(872_0301_7523_3669_2675, 968, 967, 485, Pow(2, 674 - be), Misread(be));
    hide Misread;
    Settle(be, 59, 614, 640, 872_0301_7523_3669_2675, 968, 967, 485, Misread(be));
  }

  function Rows640(be: int): bool {
    match be
    case 640 => Power(585_2095_4433_6524_7909, 649, 649, 325, 0x1000_0000_0000_0000, 10, 5075_8836_7463_1298, true)
    case 641 => Power(585_2095_4433_6524_7909, 649, 649, 325, 0x800_0000_0000_0000, 10, 1_0151_7673_4926_2597, false)
    case 642 => Power(585_2095_4433_6524_7909, 649, 649, 325, 0x400_0000_0000_0000, 10, 2_0303_5346_9852_5194, false)
    case 643 => Power(585_2095_4433_6524_7909, 649, 649, 325, 0x200_0000_0000_0000, 100, 4060_7069_3970_5039, false)
    case 644 => Power(585_2095_4433_6524_7909, 649, 649, 325, 0x100_0000_0000_0000, 100, 8121_4138_7941_0078, false)
    case 645 => Power(585_2095_4433_6524_7909, 649, 649, 325, 0x80_0000_0000_0000, 100, 1_6242_8277_5882_0155, false)
    case 646 => Power(585_2095_4433_6524_7909, 649, 649, 325, 0x40_0000_0000_0000, 1000, 3248_5655_5176_4031, false)
    case 647 => Power(585_2095_4433_6524_7909, 649, 649, 325, 0x20_0000_0000_0000, 1000, 6497_1311_0352_8062, false)
    case _ => Power(585_2095_4433_6524_7909, 649, 649, 325, 0x10_0000_0000_0000, 1000, 1_2994_2622_0705_6124, false)
  }

  function Rows649(be: int): bool {
    match be
    case 649 => Power(585_2095_4433_6524_7909, 649, 649, 325, 0x8_0000_0000_0000, 1_0000, 2598_8524_4141_1225, false)
    case 650 => Power(585_2095_4433_6524_7909, 649, 649, 325, 0x4_0000_0000_0000, 10_0000, 519_7704_8828_2245, false)
    case 651 => Power(585_2095_4433_6524_7909, 649, 649, 325, 0x2_0000_0000_0000, 100_0000, 103_9540_9765_6449, false)
    case 652 => Power(585_2095_4433_6524_7909, 649, 649, 325, 0x1_0000_0000_0000, 100_0000, 207_9081_9531_2898, false)
    case 653 => Power(585_2095_4433_6524_7909, 649, 649, 325, 0x8000_0000_0000, 100_0000, 415_8163_9062_5796, false)
    case 654 => Power(585_2095_4433_6524_7909, 649, 649, 325, 0x4000_0000_0000, 100_0000, 831_6327_8125_1592, false)
    case 655 => Power(585_2095_4433_6524_7909, 649, 649, 325, 0x2000_0000_0000, 100_0000, 1663_2655_6250_3184, false)
    case 656 => Power(585_2095_4433_6524_7909, 649, 649, 325, 0x1000_0000_0000, 100_0000, 3326_5311_2500_6368, false)
    case _ => Power(585_2095_4433_6524_7909, 649, 649, 325, 0x800_0000_0000, 100_0000, 6653_0622_5001_2735, true)
  }

  function Rows658(be: int): bool {
    match be
    case 658 => Power(585_2095_4433_6524_7909, 649, 649, 325, 0x400_0000_0000, 1000_0000, 1330_6124_5000_2547, true)
    case 659 => Power(585_2095_4433_6524_7909, 649, 649, 325, 0x200_0000_0000, 1000_0000, 2661_2249_0000_5094, true)
    case 660 => Power(585_2095_4433_6524_7909, 649, 649, 325, 0x100_0000_0000, 1000_0000, 5322_4498_0001_0188, true)
    case 661 => Power(585_2095_4433_6524_7909, 649, 649, 325, 0x80_0000_0000, 1000_0000, 1_0644_8996_0002_0377, false)
    case 662 => Power(585_2095_4433_6524_7909, 649, 649, 325, 0x40_0000_0000, 1000_0000, 2_1289_7992_0004_0754, false)
    case 663 => Power(585_2095_4433_6524_7909, 649, 649, 325, 0x20_0000_0000, 1_0000_0000, 4257_9598_4000_8151, false)
    case 664 => Power(585_2095_4433_6524_7909, 649, 649, 325, 0x10_0000_0000, 1_0000_0000, 8515_9196_8001_6301, false)
    case 665 => Power(585_2095_4433_6524_7909, 649, 649, 325, 0x8_0000_0000, 1_0000_0000, 1_7031_8393_6003_2603, false)
    case _ => Power(585_2095_4433_6524_7909, 649, 649, 325, 0x4_0000_0000, 1_0000_0000, 3_4063_6787_2006_5206, false)
  }

  lemma Settled58(be: nat)
    requires 640 <= be < 667
    ensures Settled(be, Misread(be))
  {
    hide HalfUlp, Serves, Normalized, Pow, PowerOfTen, Refuted, Candidate, Row, Settled;
    assert Entry(58) == DiyFp(0xa26d_a399_9aef_774a, 322)
        && !OtherBounds(0xa26d_a399_9aef_774a, 585_2095_4433_6524_7909, 649, 649, 325);
    hide OtherBounds, Entry;
    PowersOfTwoThatOccur();
    PowersOfTenThatOccur();
    RowsHold();
    var row := if be < 649 then Rows640(be) else if be < 658 then Rows649(be) else Rows658(be);
    assert Row(585_2095_4433_6524_7909, 649, 649, 325, Pow(2, 700 - be), Misread(be));
    hide Misread;
    Settle(be, 58, 640, 667, 585_2095_4433_6524_7909, 649, 649, 325, Misread(be));
  }

  function Rows667(be: int): bool {
    match be
    case 667 => Power(785_4549_5444_7636_2485, 871, 871, 436, 0x1000_0000_0000_0000, 10, 6812_7357_4401_3041, false)
    case 668 => Power(785_4549_5444_7636_2485, 871, 871, 436, 0x800_0000_0000_0000, 10, 1_3625_4714_8802_6082, false)
    case 669 => Power(785_4549_5444_7636_2485, 871, 871, 436, 0x400_0000_0000_0000, 10, 2_7250_9429_7605_2165, false)
    case 670 => Power(785_4549_5444_7636_2485, 871, 871, 436, 0x200_0000_0000_0000, 100, 5450_1885_9521_0433, false)
    case 671 => Power(785_4549_5444_7636_2485, 871, 871, 436, 0x100_0000_0000_0000, 100, 1_0900_3771_9042_0866, false)
    case 672 => Power(785_4549_5444_7636_2485, 871, 871, 436, 0x80_0000_0000_0000, 1000, 2180_0754_3808_4173, true)
    case 673 => Power(785_4549_5444_7636_2485, 871, 871, 436, 0x40_0000_0000_0000, 1000, 4360_1508_7616_8346, true)
    case 674 => Power(785_4549_5444_7636_2485, 871, 871, 436, 0x20_0000_0000_0000, 1000, 8720_3017_5233_6693, false)
    case _ => Power(785_4549_5444_7636_2485, 871, 871, 436, 0x10_0000_0000_0000, 1000, 1_7440_6035_0467_3385, false)
  }

  function Rows676(be: int): bool {
    match be
    case 676 => Power(785_4549_5444_7636_2485, 871, 871, 436, 0x8_0000_0000_0000, 1_0000, 3488_1207_0093_4677, false)
    case 677 => Power(785_4549_5444_7636_2485, 871, 871, 436, 0x4_0000_0000_0000, 1_0000, 6976_2414_0186_9354, false)
    case 678 => Power(785_4549_5444_7636_2485, 871, 871, 436, 0x2_0000_0000_0000, 1_0000, 1_3952_4828_0373_8708, false)
    case 679 => Power(785_4549_5444_7636_2485, 871, 871, 436, 0x1_0000_0000_0000, 1_0000, 2_7904_9656_0747_7417, false)
    case 680 => Power(785_4549_5444_7636_2485, 871, 871, 436, 0x8000_0000_0000, 10_0000, 5580_9931_2149_5483, true)
    case 681 => Power(785_4549_5444_7636_2485, 871, 871, 436, 0x4000_0000_0000, 10_0000, 1_1161_9862_4299_0967, false)
    case 682 => Power(785_4549_5444_7636_2485, 871, 871, 436, 0x2000_0000_0000, 10_0000, 2_2323_9724_8598_1933, false)
    case 683 => Power(785_4549_5444_7636_2485, 871, 871, 436, 0x1000_0000_0000, 100_0000, 4464_7944_9719_6387, false)
    case _ => Power(785_4549_5444_7636_2485, 871, 871, 436, 0x800_0000_0000, 100_0000, 8929_5889_9439_2773, false)
  }

  function Rows685(be: int): bool {
    match be
    case 685 => Power(785_4549_5444_7636_2485, 871, 871, 436, 0x400_0000_0000, 100_0000, 1_7859_1779_8878_5547, false)
    case 686 => Power(785_4549_5444_7636_2485, 871, 871, 436, 0x200_0000_0000, 1000_0000, 3571_8355_9775_7109, true)
    case 687 => Power(785_4549_5444_7636_2485, 871, 871, 436, 0x100_0000_0000, 1000_0000, 7143_6711_9551_4219, false)
    case 688 => Power(785_4549_5444_7636_2485, 871, 871, 436, 0x80_0000_0000, 1000_0000, 1_4287_3423_9102_8437, false)
    case 689 => Power(785_4549_5444_7636_2485, 871, 871, 436, 0x40_0000_0000, 1000_0000, 2_8574_6847_8205_6875, false)
    case 690 => Power(785_4549_5444_7636_2485, 871, 871, 436, 0x20_0000_0000, 1_0000_0000, 5714_9369_5641_1375, false)
    case 691 => Power(785_4549_5444_7636_2485, 871, 871, 436, 0x10_0000_0000, 10_0000_0000, 1142_9873_9128_2275, false)
    case _ => Power(785_4549_5444_7636_2485, 871, 871, 436, 0x8_0000_0000, 100_0000_0000, 228_5974_7825_6455, false)
  }

  lemma Settled57(be: nat)
    requires 667 <= be < 693
    ensures Settled(be, Misread(be))
  {
    hide HalfUlp, Serves, Normalized, Pow, PowerOfTen, Refuted, Candidate, Row, Settled;
    assert Entry(57) == DiyFp(0xda01_ee64_1a70_8dea, 295)
        && !OtherBounds(0xda01_ee64_1a70_8dea, 785_4549_5444_7636_2485, 871, 871, 436);
    hide OtherBounds, Entry;
    PowersOfTwoThatOccur();
    PowersOfTenThatOccur();
    RowsHold();
    var row := if be < 676 then Rows667(be) else if be < 685 then Rows676(be) else Rows685(be);
    assert Row(785_4549_5444_7636_2485, 871, 871, 436, Pow(2, 727 - be), Misread(be));
    hide Misread;
    Settle(be, 57, 667, 693, 785_4549_5444_7636_2485, 871, 871, 436, Misread(be));
  }

  function Rows693(be: int): bool {
    match be
    case 693 => Power(527_1098_9716_1526_1612, 584, 584, 293, 0x1000_0000_0000_0000, 1000, 45_7194_9565_1291, false)
    case 694 => Power(527_1098_9716_1526_1612, 584, 584, 293, 0x800_0000_0000_0000, 1000, 91_4389_9130_2582, false)
    case 695 => Power(527_1098_9716_1526_1612, 584, 584, 293, 0x400_0000_0000_0000, 1000, 182_8779_8260_5164, false)
    case 696 => Power(527_1098_9716_1526_1612, 584, 584, 293, 0x200_0000_0000_0000, 1000, 365_7559_6521_0328, false)
    case 697 => Power(527_1098_9716_1526_1612, 584, 584, 293, 0x100_0000_0000_0000, 1000, 731_5119_3042_0656, false)
    case 698 => Power(527_1098_9716_1526_1612, 584, 584, 293, 0x80_0000_0000_0000, 1000, 1463_0238_6084_1312, false)
    case 699 => Power(527_1098_9716_1526_1612, 584, 584, 293, 0x40_0000_0000_0000, 1000, 2926_0477_2168_2624, false)
    case 700 => Power(527_1098_9716_1526_1612, 584, 584, 293, 0x20_0000_0000_0000, 1000, 5852_0954_4336_5248, false)
    case _ => Power(527_1098_9716_1526_1612, 584, 584, 293, 0x10_0000_0000_0000, 1000, 1_1704_1908_8673_0496, false)
  }

  function Rows702(be: int): bool {
    match be
    case 702 => Power(527_1098_9716_1526_1612, 584, 584, 293, 0x8_0000_0000_0000, 1_0000, 2340_8381_7734_6099, true)
    case 703 => Power(527_1098_9716_1526_1612, 584, 584, 293, 0x4_0000_0000_0000, 1_0000, 4681_6763_5469_2198, true)
    case 704 => Power(527_1098_9716_1526_1612, 584, 584, 293, 0x2_0000_0000_0000, 1_0000, 9363_3527_0938_4397, false)
    case 705 => Power(527_1098_9716_1526_1612, 584, 584, 293, 0x1_0000_0000_0000, 1_0000, 1_8726_7054_1876_8793, false)
    case 706 => Power(527_1098_9716_1526_1612, 584, 584, 293, 0x8000_0000_0000, 10_0000, 3745_3410_8375_3759, false)
    case 707 => Power(527_1098_9716_1526_1612, 584, 584, 293, 0x4000_0000_0000, 10_0000, 7490_6821_6750_7517, false)
    case 708 => Power(527_1098_9716_1526_1612, 584, 584, 293, 0x2000_0000_0000, 10_0000, 1_4981_3643_3501_5035, false)
    case 709 => Power(527_1098_9716_1526_1612, 584, 584, 293, 0x1000_0000_0000, 100_0000, 2996_2728_6700_3007, false)
    case _ => Power(527_1098_9716_1526_1612, 584, 584, 293, 0x800_0000_0000, 100_0000, 5992_5457_3400_6014, false)
  }

  function Rows711(be: int): bool {
    match be
    case 711 => Power(527_1098_9716_1526_1612, 584, 584, 293, 0x400_0000_0000, 100_0000, 1_1985_0914_6801_2028, false)
    case 712 => Power(527_1098_9716_1526_1612, 584, 584, 293, 0x200_0000_0000, 100_0000, 2_3970_1829_3602_4055, false)
    case 713 => Power(527_1098_9716_1526_1612, 584, 584, 293, 0x100_0000_0000, 1000_0000, 4794_0365_8720_4811, false)
    case 714 => Power(527_1098_9716_1526_1612, 584, 584, 293, 0x80_0000_0000, 1000_0000, 9588_0731_7440_9622, false)
    case 715 => Power(527_1098_9716_1526_1612, 584, 584, 293, 0x40_0000_0000, 1000_0000, 1_9176_1463_4881_9244, false)
    case 716 => Power(527_1098_9716_1526_1612, 584, 584, 293, 0x20_0000_0000, 1_0000_0000, 3835_2292_6976_3849, false)
    case 717 => Power(527_1098_9716_1526_1612, 584, 584, 293, 0x10_0000_0000, 1_0000_0000, 7670_4585_3952_7698, false)
    case 718 => Power(527_1098_9716_1526_1612, 584, 584, 293, 0x8_0000_0000, 1_0000_0000, 1_5340_9170_7905_5395, false)
    case _ => Power(527_1098_9716_1526_1612, 584, 584, 293, 0x4_0000_0000, 10_0000_0000, 3068_1834_1581_1079, false)
  }

  lemma Settled56(be: nat)
    requires 693 <= be < 720
    ensures Settled(be, Misread(be))
  {
    hide HalfUlp, Serves, Normalized, Pow, PowerOfTen, Refuted, Candidate, Row, Settled;
    assert Entry(56) == DiyFp(0x924d_692c_a61b_e758, 269)
        && !OtherBounds(0x924d_692c_a61b_e758, 527_1098_9716_1526_1612, 584, 584, 293);
    hide OtherBounds, Entry;
    PowersOfTwoThatOccur();
    PowersOfTenThatOccur();
    RowsHold();
    var row := if be < 702 then Rows693(be) else if be < 711 then Rows702(be) else Rows711(be);
    assert Row(527_1098_9716_1526_1612, 584, 584, 293, Pow(2, 753 - be), Misread(be));
    hide Misread;
    Settle(be, 56, 693, 720, 527_1098_9716_1526_1612, 584, 584, 293, Misread(be));
  }

  function Rows720(be: int): bool {
    match be
    case 720 => Power(707_4749_2803_3336_9037, 784, 784, 393, 0x1000_0000_0000_0000, 10, 6136_3668_3162_2158, false)
    case 721 => Power(707_4749_2803_3336_9037, 784, 784, 393, 0x800_0000_0000_0000, 10, 1_2272_7336_6324_4316, false)
    case 722 => Power(707_4749_2803_3336_9037, 784, 784, 393, 0x400_0000_0000_0000, 10, 2_4545_4673_2648_8633, false)
    case 723 => Power(707_4749_2803_3336_9037, 784, 784, 393, 0x200_0000_0000_0000, 100, 4909_0934_6529_7727, false)
    case 724 => Power(707_4749_2803_3336_9037, 784, 784, 393, 0x100_0000_0000_0000, 100, 9818_1869_3059_5453, false)
    case 725 => Power(707_4749_2803_3336_9037, 784, 784, 393, 0x80_0000_0000_0000, 100, 1_9636_3738_6119_0906, false)
    case 726 => Power(707_4749_2803_3336_9037, 784, 784, 393, 0x40_0000_0000_0000, 1000, 3927_2747_7223_8181, true)
    case 727 => Power(707_4749_2803_3336_9037, 784, 784, 393, 0x20_0000_0000_0000, 1000, 7854_5495_4447_6362, true)
    case _ => Power(707_4749_2803_3336_9037, 784, 784, 393, 0x10_0000_0000_0000, 1000, 1_5709_0990_8895_2725, false)
  }

  function Rows729(be: int): bool {
    match be
    case 729 => Power(707_4749_2803_3336_9037, 784, 784, 393, 0x8_0000_0000_0000, 1_0000, 3141_8198_1779_0545, false)
    case 730 => Power(707_4749_2803_3336_9037, 784, 784, 393, 0x4_0000_0000_0000, 10_0000, 628_3639_6355_8109, false)
    case 731 => Power(707_4749_2803_3336_9037, 784, 784, 393, 0x2_0000_0000_0000, 10_0000, 1256_7279_2711_6218, false)
    case 732 => Power(707_4749_2803_3336_9037, 784, 784, 393, 0x1_0000_0000_0000, 10_0000, 2513_4558_5423_2436, false)
    case 733 => Power(707_4749_2803_3336_9037, 784, 784, 393, 0x8000_0000_0000, 10_0000, 5026_9117_0846_4872, false)
    case 734 => Power(707_4749_2803_3336_9037, 784, 784, 393, 0x4000_0000_0000, 10_0000, 1_0053_8234_1692_9744, false)
    case 735 => Power(707_4749_2803_3336_9037, 784, 784, 393, 0x2000_0000_0000, 100_0000, 2010_7646_8338_5949, false)
    case 736 => Power(707_4749_2803_3336_9037, 784, 784, 393, 0x1000_0000_0000, 100_0000, 4021_5293_6677_1898, false)
    case _ => Power(707_4749_2803_3336_9037, 784, 784, 393, 0x800_0000_0000, 100_0000, 8043_0587_3354_3795, false)
  }

  function Rows738(be: int): bool {
    match be
    case 738 => Power(707_4749_2803_3336_9037, 784, 784, 393, 0x400_0000_0000, 1000_0000, 1608_6117_4670_8759, false)
    case 739 => Power(707_4749_2803_3336_9037, 784, 784, 393, 0x200_0000_0000, 1000_0000, 3217_2234_9341_7518, false)
    case 740 => Power(707_4749_2803_3336_9037, 784, 784, 393, 0x100_0000_0000, 1000_0000, 6434_4469_8683_5036, false)
    case 741 => Power(707_4749_2803_3336_9037, 784, 784, 393, 0x80_0000_0000, 1000_0000, 1_2868_8939_7367_0072, false)
    case 742 => Power(707_4749_2803_3336_9037, 784, 784, 393, 0x40_0000_0000, 1000_0000, 2_5737_7879_4734_0145, false)
    case 743 => Power(707_4749_2803_3336_9037, 784, 784, 393, 0x20_0000_0000, 1_0000_0000, 5147_5575_8946_8029, false)
    case 744 => Power(707_4749_2803_3336_9037, 784, 784, 393, 0x10_0000_0000, 1_0000_0000, 1_0295_1151_7893_6058, false)
    case _ => Power(707_4749_2803_3336_9037, 784, 784, 393, 0x8_0000_0000, 1_0000_0000, 2_0590_2303_5787_2116, false)
  }

  lemma Settled55(be: nat)
    requires 720 <= be < 746
    ensures Settled(be, Misread(be))
  {
    hide HalfUlp, Serves, Normalized, Pow, PowerOfTen, Refuted, Candidate, Row, Settled;
    assert Entry(55) == DiyFp(0xc45d_1df9_4271_1d9a, 242)
        && !OtherBounds(0xc45d_1df9_4271_1d9a, 707_4749_2803_3336_9037, 784, 784, 393);
    hide OtherBounds, Entry;
    PowersOfTwoThatOccur();
    PowersOfTenThatOccur();
    RowsHold();
    var row := if be < 729 then Rows720(be) else if be < 738 then Rows729(be) else Rows738(be);
    assert Row(707_4749_2803_3336_9037, 784, 784, 393, Pow(2, 780 - be), Misread(be));
    hide Misread;
    Settle(be, 55, 720, 746, 707_4749_2803_3336_9037, 784, 784, 393, Misread(be));
  }

  function Rows746(be: int): bool {
    match be
    case 746 => Power(474_7783_8728_7989_9374, 527, 526, 264, 0x1000_0000_0000_0000, 10, 4118_0460_7157_4423, false)
    case 747 => Power(474_7783_8728_7989_9374, 527, 526, 264, 0x800_0000_0000_0000, 10, 8236_0921_4314_8846, false)
    case 748 => Power(474_7783_8728_7989_9374, 527, 526, 264, 0x400_0000_0000_0000, 10, 1_6472_1842_8629_7693, false)
    case 749 => Power(474_7783_8728_7989_9374, 527, 526, 264, 0x200_0000_0000_0000, 10, 3_2944_3685_7259_5385, false)
    case 750 => Power(474_7783_8728_7989_9374, 527, 526, 264, 0x100_0000_0000_0000, 100, 6588_8737_1451_9077, false)
    case 751 => Power(474_7783_8728_7989_9374, 527, 526, 264, 0x80_0000_0000_0000, 100, 1_3177_7474_2903_8154, false)
    case 752 => Power(474_7783_8728_7989_9374, 527, 526, 264, 0x40_0000_0000_0000, 1000, 2635_5494_8580_7631, false)
    case 753 => Power(474_7783_8728_7989_9374, 527, 526, 264, 0x20_0000_0000_0000, 1000, 5271_0989_7161_5262, false)
    case _ => Power(474_7783_8728_7989_9374, 527, 526, 264, 0x10_0000_0000_0000, 1000, 1_0542_1979_4323_0523, false)
  }

  function Rows755(be: int): bool {
    match be
    case 755 => Power(474_7783_8728_7989_9374, 527, 526, 264, 0x8_0000_0000_0000, 1000, 2_1084_3958_8646_1046, false)
    case 756 => Power(474_7783_8728_7989_9374, 527, 526, 264, 0x4_0000_0000_0000, 1_0000, 4216_8791_7729_2209, true)
    case 757 => Power(474_7783_8728_7989_9374, 527, 526, 264, 0x2_0000_0000_0000, 1_0000, 8433_7583_5458_4419, false)
    case 758 => Power(474_7783_8728_7989_9374, 527, 526, 264, 0x1_0000_0000_0000, 1_0000, 1_6867_5167_0916_8837, false)
    case 759 => Power(474_7783_8728_7989_9374, 527, 526, 264, 0x8000_0000_0000, 1_0000, 3_3735_0334_1833_7674, false)
    case 760 => Power(474_7783_8728_7989_9374, 527, 526, 264, 0x4000_0000_0000, 10_0000, 6747_0066_8366_7535, false)
    case 761 => Power(474_7783_8728_7989_9374, 527, 526, 264, 0x2000_0000_0000, 100_0000, 1349_4013_3673_3507, false)
    case 762 => Power(474_7783_8728_7989_9374, 527, 526, 264, 0x1000_0000_0000, 100_0000, 2698_8026_7346_7014, false)
    case _ => Power(474_7783_8728_7989_9374, 527, 526, 264, 0x800_0000_0000, 100_0000, 5397_6053_4693_4028, false)
  }

  function Rows764(be: int): bool {
    match be
    case 764 => Power(474_7783_8728_7989_9374, 527, 526, 264, 0x400_0000_0000, 100_0000, 1_0795_2106_9386_8056, false)
    case 765 => Power(474_7783_8728_7989_9374, 527, 526, 264, 0x200_0000_0000, 1000_0000, 2159_0421_3877_3611, true)
    case 766 => Power(474_7783_8728_7989_9374, 527, 526, 264, 0x100_0000_0000, 1000_0000, 4318_0842_7754_7222, true)
    case 767 => Power(474_7783_8728_7989_9374, 527, 526, 264, 0x80_0000_0000, 1000_0000, 8636_1685_5509_4445, false)
    case 768 => Power(474_7783_8728_7989_9374, 527, 526, 264, 0x40_0000_0000, 1_0000_0000, 1727_2337_1101_8889, false)
    case 769 => Power(474_7783_8728_7989_9374, 527, 526, 264, 0x20_0000_0000, 1_0000_0000, 3454_4674_2203_7778, false)
    case 770 => Power(474_7783_8728_7989_9374, 527, 526, 264, 0x10_0000_0000, 1_0000_0000, 6908_9348_4407_5556, false)
    case 771 => Power(474_7783_8728_7989_9374, 527, 526, 264, 0x8_0000_0000, 10_0000_0000, 1381_7869_6881_5111, true)
    case _ => Power(474_7783_8728_7989_9374, 527, 526, 264, 0x4_0000_0000, 10_0000_0000, 2763_5739_3763_0222, true)
  }

  lemma Settled54(be: nat)
    requires 746 <= be < 773
    ensures Settled(be, Misread(be))
  {
    hide HalfUlp, Serves, Normalized, Pow, PowerOfTen, Refuted, Candidate, Row, Settled;
    assert Entry(54) == DiyFp(0x83c7_088e_1aab_65db, 216)
        && !OtherBounds(0x83c7_088e_1aab_65db, 474_7783_8728_7989_9374, 527, 526, 264);
    hide OtherBounds, Entry;
    PowersOfTwoThatOccur();
    PowersOfTenThatOccur();
    RowsHold();
    var row := if be < 755 then Rows746(be) else if be < 764 then Rows755(be) else Rows764(be);
    assert Row(474_7783_8728_7989_9374, 527, 526, 264, Pow(2, 806 - be), Misread(be));
    hide Misread;
    Settle(be, 54, 746, 773, 474_7783_8728_7989_9374, 527, 526, 264, Misread(be));
  }

  function Rows773(be: int): bool {
    match be
    case 773 => Power(637_2367_6445_2980_9108, 706, 706, 354, 0x1000_0000_0000_0000, 10, 5527_1478_7526_0445, false)
    case 774 => Power(637_2367_6445_2980_9108, 706, 706, 354, 0x800_0000_0000_0000, 100, 1105_4295_7505_2089, false)
    case 775 => Power(637_2367_6445_2980_9108, 706, 706, 354, 0x400_0000_0000_0000, 100, 2210_8591_5010_4178, false)
    case 776 => Power(637_2367_6445_2980_9108, 706, 706, 354, 0x200_0000_0000_0000, 100, 4421_7183_0020_8356, false)
    case 777 => Power(637_2367_6445_2980_9108, 706, 706, 354, 0x100_0000_0000_0000, 100, 8843_4366_0041_6711, false)
    case 778 => Power(637_2367_6445_2980_9108, 706, 706, 354, 0x80_0000_0000_0000, 100, 1_7686_8732_0083_3423, false)
    case 779 => Power(637_2367_6445_2980_9108, 706, 706, 354, 0x40_0000_0000_0000, 100, 3_5373_7464_0166_6845, false)
    case 780 => Power(637_2367_6445_2980_9108, 706, 706, 354, 0x20_0000_0000_0000, 1000, 7074_7492_8033_3369, false)
    case _ => Power(637_2367_6445_2980_9108, 706, 706, 354, 0x10_0000_0000_0000, 1000, 1_4149_4985_6066_6738, false)
  }

  function Rows782(be: int): bool {
    match be
    case 782 => Power(637_2367_6445_2980_9108, 706, 706, 354, 0x8_0000_0000_0000, 1000, 2_8298_9971_2133_3476, false)
    case 783 => Power(637_2367_6445_2980_9108, 706, 706, 354, 0x4_0000_0000_0000, 1_0000, 5659_7994_2426_6695, false)
    case 784 => Power(637_2367_6445_2980_9108, 706, 706, 354, 0x2_0000_0000_0000, 10_0000, 1131_9598_8485_3339, false)
    case 785 => Power(637_2367_6445_2980_9108, 706, 706, 354, 0x1_0000_0000_0000, 10_0000, 2263_9197_6970_6678, false)
    case 786 => Power(637_2367_6445_2980_9108, 706, 706, 354, 0x8000_0000_0000, 10_0000, 4527_8395_3941_3356, false)
    case 787 => Power(637_2367_6445_2980_9108, 706, 706, 354, 0x4000_0000_0000, 10_0000, 9055_6790_7882_6712, false)
    case 788 => Power(637_2367_6445_2980_9108, 706, 706, 354, 0x2000_0000_0000, 10_0000, 1_8111_3581_5765_3425, false)
    case 789 => Power(637_2367_6445_2980_9108, 706, 706, 354, 0x1000_0000_0000, 100_0000, 3622_2716_3153_0685, false)
    case _ => Power(637_2367_6445_2980_9108, 706, 706, 354, 0x800_0000_0000, 1000_0000, 724_4543_2630_6137, false)
  }

  function Rows791(be: int): bool {
    match be
    case 791 => Power(637_2367_6445_2980_9108, 706, 706, 354, 0x400_0000_0000, 1000_0000, 1448_9086_5261_2274, false)
    case 792 => Power(637_2367_6445_2980_9108, 706, 706, 354, 0x200_0000_0000, 1000_0000, 2897_8173_0522_4548, false)
    case 793 => Power(637_2367_6445_2980_9108, 706, 706, 354, 0x100_0000_0000, 1000_0000, 5795_6346_1044_9096, false)
    case 794 => Power(637_2367_6445_2980_9108, 706, 706, 354, 0x80_0000_0000, 1000_0000, 1_1591_2692_2089_8192, false)
    case 795 => Power(637_2367_6445_2980_9108, 706, 706, 354, 0x40_0000_0000, 1000_0000, 2_3182_5384_4179_6384, false)
    case 796 => Power(637_2367_6445_2980_9108, 706, 706, 354, 0x20_0000_0000, 1_0000_0000, 4636_5076_8835_9277, false)
    case 797 => Power(637_2367_6445_2980_9108, 706, 706, 354, 0x10_0000_0000, 1_0000_0000, 9273_0153_7671_8553, false)
    case 798 => Power(637_2367_6445_2980_9108, 706, 706, 354, 0x8_0000_0000, 1_0000_0000, 1_8546_0307_5343_7107, false)
    case _ => Power(637_2367_6445_2980_9108, 706, 706, 354, 0x4_0000_0000, 10_0000_0000, 3709_2061_5068_7421, true)
  }

  lemma Settled53(be: nat)
    requires 773 <= be < 800
    ensures Settled(be, Misread(be))
  {
    hide HalfUlp, Serves, Normalized, Pow, PowerOfTen, Refuted, Candidate, Row, Settled;
    assert Entry(53) == DiyFp(0xb0de_6538_8cc8_ada8, 189)
        && !OtherBounds(0xb0de_6538_8cc8_ada8, 637_2367_6445_2980_9108, 706, 706, 354);
    hide OtherBounds, Entry;
    PowersOfTwoThatOccur();
    PowersOfTenThatOccur();
    RowsHold();
    var row := if be < 782 then Rows773(be) else if be < 791 then Rows782(be) else Rows791(be);
    assert Row(637_2367_6445_2980_9108, 706, 706, 354, Pow(2, 833 - be), Misread(be));
    hide Misread;
    Settle(be, 53, 773, 800, 637_2367_6445_2980_9108, 706, 706, 354, Misread(be));
  }

  function Rows800(be: int): bool {
    match be
    case 800 => Power(855_2847_0722_9502_6068, 949, 948, 475, 0x1000_0000_0000_0000, 10, 7418_4123_0137_4843, false)
    case 801 => Power(855_2847_0722_9502_6068, 949, 948, 475, 0x800_0000_0000_0000, 10, 1_4836_8246_0274_9686, false)
    case 802 => Power(855_2847_0722_9502_6068, 949, 948, 475, 0x400_0000_0000_0000, 100, 2967_3649_2054_9937, false)
    case 803 => Power(855_2847_0722_9502_6068, 949, 948, 475, 0x200_0000_0000_0000, 100, 5934_7298_4109_9874, false)
    case 804 => Power(855_2847_0722_9502_6068, 949, 948, 475, 0x100_0000_0000_0000, 100, 1_1869_4596_8219_9748, false)
    case 805 => Power(855_2847_0722_9502_6068, 949, 948, 475, 0x80_0000_0000_0000, 100, 2_3738_9193_6439_9497, false)
    case 806 => Power(855_2847_0722_9502_6068, 949, 948, 475, 0x40_0000_0000_0000, 1000, 4747_7838_7287_9899, true)
    case 807 => Power(855_2847_0722_9502_6068, 949, 948, 475, 0x20_0000_0000_0000, 1000, 9495_5677_4575_9799, false)
    case _ => Power(855_2847_0722_9502_6068, 949, 948, 475, 0x10_0000_0000_0000, 1000, 1_8991_1354_9151_9597, false)
  }

  function Rows809(be: int): bool {
    match be
    case 809 => Power(855_2847_0722_9502_6068, 949, 948, 475, 0x8_0000_0000_0000, 1000, 3_7982_2709_8303_9195, false)
    case 810 => Power(855_2847_0722_9502_6068, 949, 948, 475, 0x4_0000_0000_0000, 1_0000, 7596_4541_9660_7839, false)
    case 811 => Power(855_2847_0722_9502_6068, 949, 948, 475, 0x2_0000_0000_0000, 1_0000, 1_5192_9083_9321_5678, false)
    case 812 => Power(855_2847_0722_9502_6068, 949, 948, 475, 0x1_0000_0000_0000, 1_0000, 3_0385_8167_8643_1356, false)
    case 813 => Power(855_2847_0722_9502_6068, 949, 948, 475, 0x8000_0000_0000, 10_0000, 6077_1633_5728_6271, false)
    case 814 => Power(855_2847_0722_9502_6068, 949, 948, 475, 0x4000_0000_0000, 10_0000, 1_2154_3267_1457_2542, false)
    case 815 => Power(855_2847_0722_9502_6068, 949, 948, 475, 0x2000_0000_0000, 10_0000, 2_4308_6534_2914_5085, false)
    case 816 => Power(855_2847_0722_9502_6068, 949, 948, 475, 0x1000_0000_0000, 100_0000, 4861_7306_8582_9017, false)
    case _ => Power(855_2847_0722_9502_6068, 949, 948, 475, 0x800_0000_0000, 100_0000, 9723_4613_7165_8034, false)
  }

  function Rows818(be: int): bool {
    match be
    case 818 => Power(855_2847_0722_9502_6068, 949, 948, 475, 0x400_0000_0000, 100_0000, 1_9446_9227_4331_6068, false)
    case 819 => Power(855_2847_0722_9502_6068, 949, 948, 475, 0x200_0000_0000, 100_0000, 3_8893_8454_8663_2136, false)
    case 820 => Power(855_2847_0722_9502_6068, 949, 948, 475, 0x100_0000_0000, 1000_0000, 7778_7690_9732_6427, false)
    case 821 => Power(855_2847_0722_9502_6068, 949, 948, 475, 0x80_0000_0000, 1000_0000, 1_5557_5381_9465_2854, false)
    case 822 => Power(855_2847_0722_9502_6068, 949, 948, 475, 0x40_0000_0000, 1_0000_0000, 3111_5076_3893_0571, false)
    case 823 => Power(855_2847_0722_9502_6068, 949, 948, 475, 0x20_0000_0000, 1_0000_0000, 6223_0152_7786_1142, false)
    case 824 => Power(855_2847_0722_9502_6068, 949, 948, 475, 0x10_0000_0000, 1_0000_0000, 1_2446_0305_5572_2283, false)
    case _ => Power(855_2847_0722_9502_6068, 949, 948, 475, 0x8_0000_0000, 1_0000_0000, 2_4892_0611_1144_4567, false)
  }

  lemma Settled52(be: nat)
    requires 800 <= be < 826
    ensures Settled(be, Misread(be))
  {
    hide HalfUlp, Serves, Normalized, Pow, PowerOfTen, Refuted, Candidate, Row, Settled;
    assert Entry(52) == DiyFp(0xed63_a231_d4c4_fb27, 162)
        && !OtherBounds(0xed63_a231_d4c4_fb27, 855_2847_0722_9502_6068, 949, 948, 475);
    hide OtherBounds, Entry;
    PowersOfTwoThatOccur();
    PowersOfTenThatOccur();
    RowsHold();
    var row := if be < 809 then Rows800(be) else if be < 818 then Rows809(be) else Rows818(be);
    assert Row(855_2847_0722_9502_6068, 949, 948, 475, Pow(2, 860 - be), Misread(be));
    hide Misread;
    Settle(be, 52, 800, 826, 855_2847_0722_9502_6068, 949, 948, 475, Misread(be));
  }

  function Rows826(be: int): bool {
    match be
    case 826 => Power(573_9718_5098_7445_0723, 637, 636, 319, 0x1000_0000_0000_0000, 10, 4978_4122_2228_8913, true)
    case 827 => Power(573_9718_5098_7445_0723, 637, 636, 319, 0x800_0000_0000_0000, 10, 9956_8244_4457_7827, false)
    case 828 => Power(573_9718_5098_7445_0723, 637, 636, 319, 0x400_0000_0000_0000, 10, 1_9913_6488_8915_5653, false)
    case 829 => Power(573_9718_5098_7445_0723, 637, 636, 319, 0x200_0000_0000_0000, 100, 3982_7297_7783_1131, false)
    case 830 => Power(573_9718_5098_7445_0723, 637, 636, 319, 0x100_0000_0000_0000, 100, 7965_4595_5566_2261, false)
    case 831 => Power(573_9718_5098_7445_0723, 637, 636, 319, 0x80_0000_0000_0000, 100, 1_5930_9191_1132_4523, false)
    case 832 => Power(573_9718_5098_7445_0723, 637, 636, 319, 0x40_0000_0000_0000, 100, 3_1861_8382_2264_9046, false)
    case 833 => Power(573_9718_5098_7445_0723, 637, 636, 319, 0x20_0000_0000_0000, 1000, 6372_3676_4452_9809, false)
    case _ => Power(573_9718_5098_7445_0723, 637, 636, 319, 0x10_0000_0000_0000, 1000, 1_2744_7352_8905_9618, false)
  }

  function Rows835(be: int): bool {
    match be
    case 835 => Power(573_9718_5098_7445_0723, 637, 636, 319, 0x8_0000_0000_0000, 1000, 2_5489_4705_7811_9236, false)
    case 836 => Power(573_9718_5098_7445_0723, 637, 636, 319, 0x4_0000_0000_0000, 1_0000, 5097_8941_1562_3847, true)
    case 837 => Power(573_9718_5098_7445_0723, 637, 636, 319, 0x2_0000_0000_0000, 1_0000, 1_0195_7882_3124_7695, false)
    case 838 => Power(573_9718_5098_7445_0723, 637, 636, 319, 0x1_0000_0000_0000, 10_0000, 2039_1576_4624_9539, false)
    case 839 => Power(573_9718_5098_7445_0723, 637, 636, 319, 0x8000_0000_0000, 10_0000, 4078_3152_9249_9078, false)
    case 840 => Power(573_9718_5098_7445_0723, 637, 636, 319, 0x4000_0000_0000, 10_0000, 8156_6305_8499_8156, false)
    case 841 => Power(573_9718_5098_7445_0723, 637, 636, 319, 0x2000_0000_0000, 100_0000, 1631_3261_1699_9631, true)
    case 842 => Power(573_9718_5098_7445_0723, 637, 636, 319, 0x1000_0000_0000, 100_0000, 3262_6522_3399_9262, true)
    case _ => Power(573_9718_5098_7445_0723, 637, 636, 319, 0x800_0000_0000, 100_0000, 6525_3044_6799_8525, false)
  }

  function Rows844(be: int): bool {
    match be
    case 844 => Power(573_9718_5098_7445_0723, 637, 636, 319, 0x400_0000_0000, 1000_0000, 1305_0608_9359_9705, false)
    case 845 => Power(573_9718_5098_7445_0723, 637, 636, 319, 0x200_0000_0000, 1_0000_0000, 261_0121_7871_9941, false)
    case 846 => Power(573_9718_5098_7445_0723, 637, 636, 319, 0x100_0000_0000, 1_0000_0000, 522_0243_5743_9882, false)
    case 847 => Power(573_9718_5098_7445_0723, 637, 636, 319, 0x80_0000_0000, 1_0000_0000, 1044_0487_1487_9764, false)
    case 848 => Power(573_9718_5098_7445_0723, 637, 636, 319, 0x40_0000_0000, 1_0000_0000, 2088_0974_2975_9528, false)
    case 849 => Power(573_9718_5098_7445_0723, 637, 636, 319, 0x20_0000_0000, 1_0000_0000, 4176_1948_5951_9056, false)
    case 850 => Power(573_9718_5098_7445_0723, 637, 636, 319, 0x10_0000_0000, 1_0000_0000, 8352_3897_1903_8111, false)
    case 851 => Power(573_9718_5098_7445_0723, 637, 636, 319, 0x8_0000_0000, 1_0000_0000, 1_6704_7794_3807_6223, false)
    case _ => Power(573_9718_5098_7445_0723, 637, 636, 319, 0x4_0000_0000, 1_0000_0000, 3_3409_5588_7615_2446, false)
  }

  lemma Settled51(be: nat)
    requires 826 <= be < 853
    ensures Settled(be, Misread(be))
  {
    hide HalfUlp, Serves, Normalized, Pow, PowerOfTen, Refuted, Candidate, Row, Settled;
    assert Entry(51) == DiyFp(0x9f4f_2726_179a_2245, 136)
        && !OtherBounds(0x9f4f_2726_179a_2245, 573_9718_5098_7445_0723, 637, 636, 319);
    hide OtherBounds, Entry;
    PowersOfTwoThatOccur();
    PowersOfTenThatOccur();
    RowsHold();
    var row := if be < 835 then Rows826(be) else if be < 844 then Rows835(be) else Rows844(be);
    assert Row(573_9718_5098_7445_0723, 637, 636, 319, Pow(2, 886 - be), Misread(be));
    hide Misread;
    Settle(be, 51, 826, 853, 573_9718_5098_7445_0723, 637, 636, 319, Misread(be));
  }

  function Rows853(be: int): bool {
    match be
    case 853 => Power(770_3719_7775_4894_3412, 854, 854, 428, 0x1000_0000_0000_0000, 10, 6681_9117_7523_0489, false)
    case 854 => Power(770_3719_7775_4894_3412, 854, 854, 428, 0x800_0000_0000_0000, 10, 1_3363_8235_5046_0978, false)
    case 855 => Power(770_3719_7775_4894_3412, 854, 854, 428, 0x400_0000_0000_0000, 10, 2_6727_6471_0092_1956, false)
    case 856 => Power(770_3719_7775_4894_3412, 854, 854, 428, 0x200_0000_0000_0000, 100, 5345_5294_2018_4391, false)
    case 857 => Power(770_3719_7775_4894_3412, 854, 854, 428, 0x100_0000_0000_0000, 100, 1_0691_0588_4036_8783, false)
    case 858 => Power(770_3719_7775_4894_3412, 854, 854, 428, 0x80_0000_0000_0000, 100, 2_1382_1176_8073_7565, false)
    case 859 => Power(770_3719_7775_4894_3412, 854, 854, 428, 0x40_0000_0000_0000, 1000, 4276_4235_3614_7513, false)
    case 860 => Power(770_3719_7775_4894_3412, 854, 854, 428, 0x20_0000_0000_0000, 1000, 8552_8470_7229_5026, false)
    case _ => Power(770_3719_7775_4894_3412, 854, 854, 428, 0x10_0000_0000_0000, 1000, 1_7105_6941_4459_0052, false)
  }

  function Rows862(be: int): bool {
    match be
    case 862 => Power(770_3719_7775_4894_3412, 854, 854, 428, 0x8_0000_0000_0000, 1000, 3_4211_3882_8918_0104, false)
    case 863 => Power(770_3719_7775_4894_3412, 854, 854, 428, 0x4_0000_0000_0000, 1_0000, 6842_2776_5783_6021, false)
    case 864 => Power(770_3719_7775_4894_3412, 854, 854, 428, 0x2_0000_0000_0000, 1_0000, 1_3684_5553_1567_2042, false)
    case 865 => Power(770_3719_7775_4894_3412, 854, 854, 428, 0x1_0000_0000_0000, 1_0000, 2_7369_1106_3134_4083, false)
    case 866 => Power(770_3719_7775_4894_3412, 854, 854, 428, 0x8000_0000_0000, 10_0000, 5473_8221_2626_8817, false)
    case 867 => Power(770_3719_7775_4894_3412, 854, 854, 428, 0x4000_0000_0000, 10_0000, 1_0947_6442_5253_7633, false)
    case 868 => Power(770_3719_7775_4894_3412, 854, 854, 428, 0x2000_0000_0000, 10_0000, 2_1895_2885_0507_5267, false)
    case 869 => Power(770_3719_7775_4894_3412, 854, 854, 428, 0x1000_0000_0000, 100_0000, 4379_0577_0101_5053, true)
    case _ => Power(770_3719_7775_4894_3412, 854, 854, 428, 0x800_0000_0000, 100_0000, 8758_1154_0203_0107, false)
  }

  function Rows871(be: int): bool {
    match be
    case 871 => Power(770_3719_7775_4894_3412, 854, 854, 428, 0x400_0000_0000, 100_0000, 1_7516_2308_0406_0213, false)
    case 872 => Power(770_3719_7775_4894_3412, 854, 854, 428, 0x200_0000_0000, 1000_0000, 3503_2461_6081_2043, false)
    case 873 => Power(770_3719_7775_4894_3412, 854, 854, 428, 0x100_0000_0000, 1000_0000, 7006_4923_2162_4085, false)
    case 874 => Power(770_3719_7775_4894_3412, 854, 854, 428, 0x80_0000_0000, 1_0000_0000, 1401_2984_6432_4817, false)
    case 875 => Power(770_3719_7775_4894_3412, 854, 854, 428, 0x40_0000_0000, 1_0000_0000, 2802_5969_2864_9634, false)
    case 876 => Power(770_3719_7775_4894_3412, 854, 854, 428, 0x20_0000_0000, 1_0000_0000, 5605_1938_5729_9268, false)
    case 877 => Power(770_3719_7775_4894_3412, 854, 854, 428, 0x10_0000_0000, 1_0000_0000, 1_1210_3877_1459_8537, false)
    case _ => Power(770_3719_7775_4894_3412, 854, 854, 428, 0x8_0000_0000, 1_0000_0000, 2_2420_7754_2919_7073, false)
  }

  lemma Settled50(be: nat)
    requires 853 <= be < 879
    ensures Settled(be, Misread(be))
  {
    hide HalfUlp, Serves, Normalized, Pow, PowerOfTen, Refuted, Candidate, Row, Settled;
    assert Entry(50) == DiyFp(0xd5d2_38a4_abe9_8068, 109)
        && !OtherBounds(0xd5d2_38a4_abe9_8068, 770_3719_7775_4894_3412, 854, 854, 428);
    hide OtherBounds, Entry;
    PowersOfTwoThatOccur();
    PowersOfTenThatOccur();
    RowsHold();
    var row := if be < 862 then Rows853(be) else if be < 871 then Rows862(be) else Rows871(be);
    assert Row(770_3719_7775_4894_3412, 854, 854, 428, Pow(2, 913 - be), Misread(be));
    hide Misread;
    Settle(be, 50, 853, 879, 770_3719_7775_4894_3412, 854, 854, 428, Misread(be));
  }

  function Rows879(be: int): bool {
    match be
    case 879 => Power(516_9878_8284_5642_2968, 573, 573, 287, 0x1000_0000_0000_0000, 10, 4484_1550_8583_9415, false)
    case 880 => Power(516_9878_8284_5642_2968, 573, 573, 287, 0x800_0000_0000_0000, 100, 896_8310_1716_7883, false)
    case 881 => Power(516_9878_8284_5642_2968, 573, 573, 287, 0x400_0000_0000_0000, 100, 1793_6620_3433_5766, false)
    case 882 => Power(516_9878_8284_5642_2968, 573, 573, 287, 0x200_0000_0000_0000, 100, 3587_3240_6867_1532, false)
    case 883 => Power(516_9878_8284_5642_2968, 573, 573, 287, 0x100_0000_0000_0000, 100, 7174_6481_3734_3063, true)
    case 884 => Power(516_9878_8284_5642_2968, 573, 573, 287, 0x80_0000_0000_0000, 100, 1_4349_2962_7468_6127, false)
    case 885 => Power(516_9878_8284_5642_2968, 573, 573, 287, 0x40_0000_0000_0000, 100, 2_8698_5925_4937_2254, false)
    case 886 => Power(516_9878_8284_5642_2968, 573, 573, 287, 0x20_0000_0000_0000, 1000, 5739_7185_0987_4451, false)
    case _ => Power(516_9878_8284_5642_2968, 573, 573, 287, 0x10_0000_0000_0000, 1000, 1_1479_4370_1974_8901, false)
  }

  function Rows888(be: int): bool {
    match be
    case 888 => Power(516_9878_8284_5642_2968, 573, 573, 287, 0x8_0000_0000_0000, 1000, 2_2958_8740_3949_7803, false)
    case 889 => Power(516_9878_8284_5642_2968, 573, 573, 287, 0x4_0000_0000_0000, 1_0000, 4591_7748_0789_9561, false)
    case 890 => Power(516_9878_8284_5642_2968, 573, 573, 287, 0x2_0000_0000_0000, 1_0000, 9183_5496_1579_9121, false)
    case 891 => Power(516_9878_8284_5642_2968, 573, 573, 287, 0x1_0000_0000_0000, 1_0000, 1_8367_0992_3159_8242, false)
    case 892 => Power(516_9878_8284_5642_2968, 573, 573, 287, 0x8000_0000_0000, 1_0000, 3_6734_1984_6319_6485, false)
    case 893 => Power(516_9878_8284_5642_2968, 573, 573, 287, 0x4000_0000_0000, 10_0000, 7346_8396_9263_9297, false)
    case 894 => Power(516_9878_8284_5642_2968, 573, 573, 287, 0x2000_0000_0000, 10_0000, 1_4693_6793_8527_8594, false)
    case 895 => Power(516_9878_8284_5642_2968, 573, 573, 287, 0x1000_0000_0000, 100_0000, 2938_7358_7705_5719, false)
    case _ => Power(516_9878_8284_5642_2968, 573, 573, 287, 0x800_0000_0000, 100_0000, 5877_4717_5411_1438, false)
  }

  function Rows897(be: int): bool {
    match be
    case 897 => Power(516_9878_8284_5642_2968, 573, 573, 287, 0x400_0000_0000, 100_0000, 1_1754_9435_0822_2875, false)
    case 898 => Power(516_9878_8284_5642_2968, 573, 573, 287, 0x200_0000_0000, 1000_0000, 2350_9887_0164_4575, false)
    case 899 => Power(516_9878_8284_5642_2968, 573, 573, 287, 0x100_0000_0000, 1_0000_0000, 470_1977_4032_8915, false)
    case 900 => Power(516_9878_8284_5642_2968, 573, 573, 287, 0x80_0000_0000, 10_0000_0000, 94_0395_4806_5783, false)
    case 901 => Power(516_9878_8284_5642_2968, 573, 573, 287, 0x40_0000_0000, 10_0000_0000, 188_0790_9613_1566, false)
    case 902 => Power(516_9878_8284_5642_2968, 573, 573, 287, 0x20_0000_0000, 10_0000_0000, 376_1581_9226_3132, false)
    case 903 => Power(516_9878_8284_5642_2968, 573, 573, 287, 0x10_0000_0000, 10_0000_0000, 752_3163_8452_6264, false)
    case 904 => Power(516_9878_8284_5642_2968, 573, 573, 287, 0x8_0000_0000, 10_0000_0000, 1504_6327_6905_2528, false)
    case _ => Power(516_9878_8284_5642_2968, 573, 573, 287, 0x4_0000_0000, 10_0000_0000, 3009_2655_3810_5056, false)
  }

  lemma Settled49(be: nat)
    requires 879 <= be < 906
    ensures Settled(be, Misread(be))
  {
    hide HalfUlp, Serves, Normalized, Pow, PowerOfTen, Refuted, Candidate, Row, Settled;
    assert Entry(49) == DiyFp(0x8f7e_32ce_7bea_5c70, 83)
        && !OtherBounds(0x8f7e_32ce_7bea_5c70, 516_9878_8284_5642_2968, 573, 573, 287);
    hide OtherBounds, Entry;
    PowersOfTwoThatOccur();
    PowersOfTenThatOccur();
    RowsHold();
    var row := if be < 888 then Rows879(be) else if be < 897 then Rows888(be) else Rows897(be);
    assert Row(516_9878_8284_5642_2968, 573, 573, 287, Pow(2, 939 - be), Misread(be));
    hide Misread;
    Settle(be, 49, 879, 906, 516_9878_8284_5642_2968, 573, 573, 287, Misread(be));
  }

  function Rows906(be: int): bool {
    match be
    case 906 => Power(693_8893_9039_0722_8378, 770, 769, 386, 0x1000_0000_0000_0000, 10, 6018_5310_7621_0112, false)
    case 907 => Power(693_8893_9039_0722_8378, 770, 769, 386, 0x800_0000_0000_0000, 10, 1_2037_0621_5242_0224, false)
    case 908 => Power(693_8893_9039_0722_8378, 770, 769, 386, 0x400_0000_0000_0000, 100, 2407_4124_3048_4045, false)
    case 909 => Power(693_8893_9039_0722_8378, 770, 769, 386, 0x200_0000_0000_0000, 1000, 481_4824_8609_6809, false)
    case 910 => Power(693_8893_9039_0722_8378, 770, 769, 386, 0x100_0000_0000_0000, 1000, 962_9649_7219_3618, false)
    case 911 => Power(693_8893_9039_0722_8378, 770, 769, 386, 0x80_0000_0000_0000, 1000, 1925_9299_4438_7236, false)
    case 912 => Power(693_8893_9039_0722_8378, 770, 769, 386, 0x40_0000_0000_0000, 1000, 3851_8598_8877_4472, false)
    case 913 => Power(693_8893_9039_0722_8378, 770, 769, 386, 0x20_0000_0000_0000, 1000, 7703_7197_7754_8943, false)
    case _ => Power(693_8893_9039_0722_8378, 770, 769, 386, 0x10_0000_0000_0000, 1000, 1_5407_4395_5509_7887, false)
  }

  function Rows915(be: int): bool {
    match be
    case 915 => Power(693_8893_9039_0722_8378, 770, 769, 386, 0x8_0000_0000_0000, 1000, 3_0814_8791_1019_5774, false)
    case 916 => Power(693_8893_9039_0722_8378, 770, 769, 386, 0x4_0000_0000_0000, 1_0000, 6162_9758_2203_9155, false)
    case 917 => Power(693_8893_9039_0722_8378, 770, 769, 386, 0x2_0000_0000_0000, 10_0000, 1232_5951_6440_7831, false)
    case 918 => Power(693_8893_9039_0722_8378, 770, 769, 386, 0x1_0000_0000_0000, 10_0000, 2465_1903_2881_5662, false)
    case 919 => Power(693_8893_9039_0722_8378, 770, 769, 386, 0x8000_0000_0000, 10_0000, 4930_3806_5763_1324, false)
    case 920 => Power(693_8893_9039_0722_8378, 770, 769, 386, 0x4000_0000_0000, 10_0000, 9860_7613_1526_2648, false)
    case 921 => Power(693_8893_9039_0722_8378, 770, 769, 386, 0x2000_0000_0000, 10_0000, 1_9721_5226_3052_5295, false)
    case 922 => Power(693_8893_9039_0722_8378, 770, 769, 386, 0x1000_0000_0000, 100_0000, 3944_3045_2610_5059, false)
    case _ => Power(693_8893_9039_0722_8378, 770, 769, 386, 0x800_0000_0000, 100_0000, 7888_6090_5221_0118, false)
  }

  function Rows924(be: int): bool {
    match be
    case 924 => Power(693_8893_9039_0722_8378, 770, 769, 386, 0x400_0000_0000, 100_0000, 1_5777_2181_0442_0236, false)
    case 925 => Power(693_8893_9039_0722_8378, 770, 769, 386, 0x200_0000_0000, 1000_0000, 3155_4436_2088_4047, true)
    case 926 => Power(693_8893_9039_0722_8378, 770, 769, 386, 0x100_0000_0000, 1000_0000, 6310_8872_4176_8094, true)
    case 927 => Power(693_8893_9039_0722_8378, 770, 769, 386, 0x80_0000_0000, 1_0000_0000, 1262_1774_4835_3619, false)
    case 928 => Power(693_8893_9039_0722_8378, 770, 769, 386, 0x40_0000_0000, 1_0000_0000, 2524_3548_9670_7238, false)
    case 929 => Power(693_8893_9039_0722_8378, 770, 769, 386, 0x20_0000_0000, 1_0000_0000, 5048_7097_9341_4476, false)
    case 930 => Power(693_8893_9039_0722_8378, 770, 769, 386, 0x10_0000_0000, 10_0000_0000, 1009_7419_5868_2895, true)
    case _ => Power(693_8893_9039_0722_8378, 770, 769, 386, 0x8_0000_0000, 100_0000_0000, 201_9483_9173_6579, true)
  }

  lemma Settled48(be: nat)
    requires 906 <= be < 932
    ensures Settled(be, Misread(be))
  {
    hide HalfUlp, Serves, Normalized, Pow, PowerOfTen, Refuted, Candidate, Row, Settled;
    assert Entry(48) == DiyFp(0xc097_ce7b_c907_15b3, 56)
        && !OtherBounds(0xc097_ce7b_c907_15b3, 693_8893_9039_0722_8378, 770, 769, 386);
    hide OtherBounds, Entry;
    PowersOfTwoThatOccur();
    PowersOfTenThatOccur();
    RowsHold();
    var row := if be < 915 then Rows906(be) else if be < 924 then Rows915(be) else Rows924(be);
    assert Row(693_8893_9039_0722_8378, 770, 769, 386, Pow(2, 966 - be), Misread(be));
    hide Misread;
    Settle(be, 48, 906, 932, 693_8893_9039_0722_8378, 770, 769, 386, Misread(be));
  }

  function Rows932(be: int): bool {
    match be
    case 932 => Power(465_6612_8730_7739_2578, 516, 516, 258, 0x1000_0000_0000_0000, 100, 403_8967_8347_3158, true)
    case 933 => Power(465_6612_8730_7739_2578, 516, 516, 258, 0x800_0000_0000_0000, 100, 807_7935_6694_6316, true)
    case 934 => Power(465_6612_8730_7739_2578, 516, 516, 258, 0x400_0000_0000_0000, 100, 1615_5871_3389_2632, true)
    case 935 => Power(465_6612_8730_7739_2578, 516, 516, 258, 0x200_0000_0000_0000, 100, 3231_1742_6778_5264, true)
    case 936 => Power(465_6612_8730_7739_2578, 516, 516, 258, 0x100_0000_0000_0000, 100, 6462_3485_3557_0529, false)
    case 937 => Power(465_6612_8730_7739_2578, 516, 516, 258, 0x80_0000_0000_0000, 100, 1_2924_6970_7114_1057, false)
    case 938 => Power(465_6612_8730_7739_2578, 516, 516, 258, 0x40_0000_0000_0000, 100, 2_5849_3941_4228_2115, false)
    case 939 => Power(465_6612_8730_7739_2578, 516, 516, 258, 0x20_0000_0000_0000, 1000, 5169_8788_2845_6423, false)
    case _ => Power(465_6612_8730_7739_2578, 516, 516, 258, 0x10_0000_0000_0000, 1000, 1_0339_7576_5691_2846, false)
  }

  function Rows941(be: int): bool {
    match be
    case 941 => Power(465_6612_8730_7739_2578, 516, 516, 258, 0x8_0000_0000_0000, 1_0000, 2067_9515_3138_2569, true)
    case 942 => Power(465_6612_8730_7739_2578, 516, 516, 258, 0x4_0000_0000_0000, 1_0000, 4135_9030_6276_5138, true)
    case 943 => Power(465_6612_8730_7739_2578, 516, 516, 258, 0x2_0000_0000_0000, 1_0000, 8271_8061_2553_0277, false)
    case 944 => Power(465_6612_8730_7739_2578, 516, 516, 258, 0x1_0000_0000_0000, 1_0000, 1_6543_6122_5106_0553, false)
    case 945 => Power(465_6612_8730_7739_2578, 516, 516, 258, 0x8000_0000_0000, 10_0000, 3308_7224_5021_2111, false)
    case 946 => Power(465_6612_8730_7739_2578, 516, 516, 258, 0x4000_0000_0000, 10_0000, 6617_4449_0042_4221, true)
    case 947 => Power(465_6612_8730_7739_2578, 516, 516, 258, 0x2000_0000_0000, 10_0000, 1_3234_8898_0084_8443, false)
    case 948 => Power(465_6612_8730_7739_2578, 516, 516, 258, 0x1000_0000_0000, 10_0000, 2_6469_7796_0169_6886, false)
    case _ => Power(465_6612_8730_7739_2578, 516, 516, 258, 0x800_0000_0000, 100_0000, 5293_9559_2033_9377, false)
  }

  function Rows950(be: int): bool {
    match be
    case 950 => Power(465_6612_8730_7739_2578, 516, 516, 258, 0x400_0000_0000, 100_0000, 1_0587_9118_4067_8754, false)
    case 951 => Power(465_6612_8730_7739_2578, 516, 516, 258, 0x200_0000_0000, 1000_0000, 2117_5823_6813_5751, false)
    case 952 => Power(465_6612_8730_7739_2578, 516, 516, 258, 0x100_0000_0000, 1000_0000, 4235_1647_3627_1502, false)
    case 953 => Power(465_6612_8730_7739_2578, 516, 516, 258, 0x80_0000_0000, 1000_0000, 8470_3294_7254_3003, false)
    case 954 => Power(465_6612_8730_7739_2578, 516, 516, 258, 0x40_0000_0000, 1000_0000, 1_6940_6589_4508_6007, false)
    case 955 => Power(465_6612_8730_7739_2578, 516, 516, 258, 0x20_0000_0000, 1_0000_0000, 3388_1317_8901_7201, true)
    case 956 => Power(465_6612_8730_7739_2578, 516, 516, 258, 0x10_0000_0000, 1_0000_0000, 6776_2635_7803_4403, false)
    case 957 => Power(465_6612_8730_7739_2578, 516, 516, 258, 0x8_0000_0000, 1_0000_0000, 1_3552_5271_5606_8805, false)
    case _ => Power(465_6612_8730_7739_2578, 516, 516, 258, 0x4_0000_0000, 10_0000_0000, 2710_5054_3121_3761, false)
  }

  lemma Settled47(be: nat)
    requires 932 <= be < 959
    ensures Settled(be, Misread(be))
  {
    hide HalfUlp, Serves, Normalized, Pow, PowerOfTen, Refuted, Candidate, Row, Settled;
    assert Entry(47) == DiyFp(0x813f_3978_f894_0984, 30)
        && !OtherBounds(0x813f_3978_f894_0984, 465_6612_8730_7739_2578, 516, 516, 258);
    hide OtherBounds, Entry;
    PowersOfTwoThatOccur();
    PowersOfTenThatOccur();
    RowsHold();
    var row := if be < 941 then Rows932(be) else if be < 950 then Rows941(be) else Rows950(be);
    assert Row(465_6612_8730_7739_2578, 516, 516, 258, Pow(2, 992 - be), Misread(be));
    hide Misread;
    Settle(be, 47, 932, 959, 465_6612_8730_7739_2578, 516, 516, 258, Misread(be));
  }

  function Rows959(be: int): bool {
    match be
    case 959 => Power(625_0000_0000_0000_0000, 693, 693, 347, 0x1000_0000_0000_0000, 10, 5421_0108_6242_7522, false)
    case 960 => Power(625_0000_0000_0000_0000, 693, 693, 347, 0x800_0000_0000_0000, 10, 1_0842_0217_2485_5044, false)
    case 961 => Power(625_0000_0000_0000_0000, 693, 693, 347, 0x400_0000_0000_0000, 100, 2168_4043_4497_1009, false)
    case 962 => Power(625_0000_0000_0000_0000, 693, 693, 347, 0x200_0000_0000_0000, 100, 4336_8086_8994_2018, false)
    case 963 => Power(625_0000_0000_0000_0000, 693, 693, 347, 0x100_0000_0000_0000, 100, 8673_6173_7988_4035, false)
    case 964 => Power(625_0000_0000_0000_0000, 693, 693, 347, 0x80_0000_0000_0000, 1000, 1734_7234_7597_6807, false)
    case 965 => Power(625_0000_0000_0000_0000, 693, 693, 347, 0x40_0000_0000_0000, 1000, 3469_4469_5195_3614, false)
    case 966 => Power(625_0000_0000_0000_0000, 693, 693, 347, 0x20_0000_0000_0000, 1000, 6938_8939_0390_7228, false)
    case _ => Power(625_0000_0000_0000_0000, 693, 693, 347, 0x10_0000_0000_0000, 1000, 1_3877_7878_0781_4457, false)
  }

  function Rows968(be: int): bool {
    match be
    case 968 => Power(625_0000_0000_0000_0000, 693, 693, 347, 0x8_0000_0000_0000, 1000, 2_7755_5756_1562_8914, false)
    case 969 => Power(625_0000_0000_0000_0000, 693, 693, 347, 0x4_0000_0000_0000, 1_0000, 5551_1151_2312_5783, false)
    case 970 => Power(625_0000_0000_0000_0000, 693, 693, 347, 0x2_0000_0000_0000, 1_0000, 1_1102_2302_4625_1565, false)
    case 971 => Power(625_0000_0000_0000_0000, 693, 693, 347, 0x1_0000_0000_0000, 10_0000, 2220_4460_4925_0313, false)
    case 972 => Power(625_0000_0000_0000_0000, 693, 693, 347, 0x8000_0000_0000, 10_0000, 4440_8920_9850_0626, false)
    case 973 => Power(625_0000_0000_0000_0000, 693, 693, 347, 0x4000_0000_0000, 10_0000, 8881_7841_9700_1252, false)
    case 974 => Power(625_0000_0000_0000_0000, 693, 693, 347, 0x2000_0000_0000, 10_0000, 1_7763_5683_9400_2505, false)
    case 975 => Power(625_0000_0000_0000_0000, 693, 693, 347, 0x1000_0000_0000, 100_0000, 3552_7136_7880_0501, false)
    case _ => Power(625_0000_0000_0000_0000, 693, 693, 347, 0x800_0000_0000, 100_0000, 7105_4273_5760_1002, false)
  }

  function Rows977(be: int): bool {
    match be
    case 977 => Power(625_0000_0000_0000_0000, 693, 693, 347, 0x400_0000_0000, 100_0000, 1_4210_8547_1520_2004, false)
    case 978 => Power(625_0000_0000_0000_0000, 693, 693, 347, 0x200_0000_0000, 1000_0000, 2842_1709_4304_0401, false)
    case 979 => Power(625_0000_0000_0000_0000, 693, 693, 347, 0x100_0000_0000, 1000_0000, 5684_3418_8608_0801, true)
    case 980 => Power(625_0000_0000_0000_0000, 693, 693, 347, 0x80_0000_0000, 1000_0000, 1_1368_6837_7216_1603, false)
    case 981 => Power(625_0000_0000_0000_0000, 693, 693, 347, 0x40_0000_0000, 1000_0000, 2_2737_3675_4432_3206, false)
    case 982 => Power(625_0000_0000_0000_0000, 693, 693, 347, 0x20_0000_0000, 1_0000_0000, 4547_4735_0886_4641, false)
    case 983 => Power(625_0000_0000_0000_0000, 693, 693, 347, 0x10_0000_0000, 1_0000_0000, 9094_9470_1772_9282, false)
    case 984 => Power(625_0000_0000_0000_0000, 693, 693, 347, 0x8_0000_0000, 1_0000_0000, 1_8189_8940_3545_8565, false)
    case _ => Power(625_0000_0000_0000_0000, 693, 693, 347, 0x4_0000_0000, 10_0000_0000, 3637_9788_0709_1713, false)
  }

  lemma Settled46(be: nat)
    requires 959 <= be < 986
    ensures Settled(be, Misread(be))
  {
    hide HalfUlp, Serves, Normalized, Pow, PowerOfTen, Refuted, Candidate, Row, Settled;
    assert Entry(46) == DiyFp(0xad78_ebc5_ac62_0000, 3)
        && !OtherBounds(0xad78_ebc5_ac62_0000, 625_0000_0000_0000_0000, 693, 693, 347);
    hide OtherBounds, Entry;
    PowersOfTwoThatOccur();
    PowersOfTenThatOccur();
    RowsHold();
    var row := if be < 968 then Rows959(be) else if be < 977 then Rows968(be) else Rows977(be);
    assert Row(625_0000_0000_0000_0000, 693, 693, 347, Pow(2, 1019 - be), Misread(be));
    hide Misread;
    Settle(be, 46, 959, 986, 625_0000_0000_0000_0000, 693, 693, 347, Misread(be));
  }

  function Rows986(be: int): bool {
    match be
    case 986 => Power(838_8608_0000_0000_0000, 930, 930, 466, 0x1000_0000_0000_0000, 10, 7275_9576_1418_3426, false)
    case 987 => Power(838_8608_0000_0000_0000, 930, 930, 466, 0x800_0000_0000_0000, 10, 1_4551_9152_2836_6852, false)
    case 988 => Power(838_8608_0000_0000_0000, 930, 930, 466, 0x400_0000_0000_0000, 10, 2_9103_8304_5673_3704, false)
    case 989 => Power(838_8608_0000_0000_0000, 930, 930, 466, 0x200_0000_0000_0000, 100, 5820_7660_9134_6741, false)
    case 990 => Power(838_8608_0000_0000_0000, 930, 930, 466, 0x100_0000_0000_0000, 100, 1_1641_5321_8269_3481, false)
    case 991 => Power(838_8608_0000_0000_0000, 930, 930, 466, 0x80_0000_0000_0000, 100, 2_3283_0643_6538_6963, false)
    case 992 => Power(838_8608_0000_0000_0000, 930, 930, 466, 0x40_0000_0000_0000, 1000, 4656_6128_7307_7393, false)
    case 993 => Power(838_8608_0000_0000_0000, 930, 930, 466, 0x20_0000_0000_0000, 1000, 9313_2257_4615_4785, false)
    case _ => Power(838_8608_0000_0000_0000, 930, 930, 466, 0x10_0000_0000_0000, 1_0000, 1862_6451_4923_0957, false)
  }

  function Rows995(be: int): bool {
    match be
    case 995 => Power(838_8608_0000_0000_0000, 930, 930, 466, 0x8_0000_0000_0000, 1_0000, 3725_2902_9846_1914, false)
    case 996 => Power(838_8608_0000_0000_0000, 930, 930, 466, 0x4_0000_0000_0000, 1_0000, 7450_5805_9692_3828, false)
    case 997 => Power(838_8608_0000_0000_0000, 930, 930, 466, 0x2_0000_0000_0000, 1_0000, 1_4901_1611_9384_7656, false)
    case 998 => Power(838_8608_0000_0000_0000, 930, 930, 466, 0x1_0000_0000_0000, 10_0000, 2980_2322_3876_9531, true)
    case 999 => Power(838_8608_0000_0000_0000, 930, 930, 466, 0x8000_0000_0000, 10_0000, 5960_4644_7753_9063, false)
    case 1000 => Power(838_8608_0000_0000_0000, 930, 930, 466, 0x4000_0000_0000, 10_0000, 1_1920_9289_5507_8125, false)
    case 1001 => Power(838_8608_0000_0000_0000, 930, 930, 466, 0x2000_0000_0000, 100_0000, 2384_1857_9101_5625, false)
    case 1002 => Power(838_8608_0000_0000_0000, 930, 930, 466, 0x1000_0000_0000, 1000_0000, 476_8371_5820_3125, false)
    case _ => Power(838_8608_0000_0000_0000, 930, 930, 466, 0x800_0000_0000, 1_0000_0000, 95_3674_3164_0625, false)
  }

  function Rows1004(be: int): bool {
    match be
    case 1004 => Power(838_8608_0000_0000_0000, 930, 930, 466, 0x400_0000_0000, 10_0000_0000, 19_0734_8632_8125, false)
    case 1005 => Power(838_8608_0000_0000_0000, 930, 930, 466, 0x200_0000_0000, 100_0000_0000, 3_8146_9726_5625, false)
    case 1006 => Power(838_8608_0000_0000_0000, 930, 930, 466, 0x100_0000_0000, 1000_0000_0000, 7629_3945_3125, false)
    case 1007 => Power(838_8608_0000_0000_0000, 930, 930, 466, 0x80_0000_0000, 1_0000_0000_0000, 1525_8789_0625, false)
    case 1008 => Power(838_8608_0000_0000_0000, 930, 930, 466, 0x40_0000_0000, 10_0000_0000_0000, 305_1757_8125, false)
    case 1009 => Power(838_8608_0000_0000_0000, 930, 930, 466, 0x20_0000_0000, 100_0000_0000_0000, 61_0351_5625, false)
    case 1010 => Power(838_8608_0000_0000_0000, 930, 930, 466, 0x10_0000_0000, 1000_0000_0000_0000, 12_2070_3125, false)
    case _ => Power(838_8608_0000_0000_0000, 930, 930, 466, 0x8_0000_0000, 1_0000_0000_0000_0000, 2_4414_0625, false)
  }

  lemma Settled45(be: nat)
    requires 986 <= be < 1012
    ensures Settled(be, Misread(be))
  {
    hide HalfUlp, Serves, Normalized, Pow, PowerOfTen, Refuted, Candidate, Row, Settled;
    assert Entry(45) == DiyFp(0xe8d4_a510_0000_0000, -24)
        && !OtherBounds(0xe8d4_a510_0000_0000, 838_8608_0000_0000_0000, 930, 930, 466);
    hide OtherBounds, Entry;
    PowersOfTwoThatOccur();
    PowersOfTenThatOccur();
    RowsHold();
    var row := if be < 995 then Rows986(be) else if be < 1004 then Rows995(be) else Rows1004(be);
    assert Row(838_8608_0000_0000_0000, 930, 930, 466, Pow(2, 1046 - be), Misread(be));
    hide Misread;
    Settle(be, 45, 986, 1012, 838_8608_0000_0000_0000, 930, 930, 466, Misread(be));
  }

  function Rows1012(be: int): bool {
    match be
    case 1012 => Power(562_9499_5342_1312_0000, 624, 624, 312, 0x1000_0000_0000_0000, 10_0000_0000, 4882_8125, false)
    case 1013 => Power(562_9499_5342_1312_0000, 624, 624, 312, 0x800_0000_0000_0000, 100_0000_0000, 976_5625, false)
    case 1014 => Power(562_9499_5342_1312_0000, 624, 624, 312, 0x400_0000_0000_0000, 1000_0000_0000, 195_3125, false)
    case 1015 => Power(562_9499_5342_1312_0000, 624, 624, 312, 0x200_0000_0000_0000, 1_0000_0000_0000, 39_0625, false)
    case 1016 => Power(562_9499_5342_1312_0000, 624, 624, 312, 0x100_0000_0000_0000, 10_0000_0000_0000, 7_8125, false)
    case 1017 => Power(562_9499_5342_1312_0000, 624, 624, 312, 0x80_0000_0000_0000, 100_0000_0000_0000, 1_5625, false)
    case 1018 => Power(562_9499_5342_1312_0000, 624, 624, 312, 0x40_0000_0000_0000, 1000_0000_0000_0000, 3125, false)
    case 1019 => Power(562_9499_5342_1312_0000, 624, 624, 312, 0x20_0000_0000_0000, 1_0000_0000_0000_0000, 625, false)
    case _ => Power(562_9499_5342_1312_0000, 624, 624, 312, 0x10_0000_0000_0000, 10_0000_0000_0000_0000, 125, false)
  }

  function Rows1021(be: int): bool {
    match be
    case 1021 => Power(562_9499_5342_1312_0000, 624, 624, 312, 0x8_0000_0000_0000, 100_0000_0000_0000_0000, 25, false)
    case 1022 => Power(562_9499_5342_1312_0000, 624, 624, 312, 0x4_0000_0000_0000, 1000_0000_0000_0000_0000, 5, false)
    case 1023 => Power(562_9499_5342_1312_0000, 624, 624, 312, 0x2_0000_0000_0000, 1_0000_0000_0000_0000_0000, 1, false)
    case 1024 => Power(562_9499_5342_1312_0000, 624, 624, 312, 0x1_0000_0000_0000, 1_0000_0000_0000_0000_0000, 2, false)
    case 1025 => Power(562_9499_5342_1312_0000, 624, 624, 312, 0x8000_0000_0000, 1_0000_0000_0000_0000_0000, 4, false)
    case 1026 => Power(562_9499_5342_1312_0000, 624, 624, 312, 0x4000_0000_0000, 1_0000_0000_0000_0000_0000, 8, false)
    case 1027 => Power(562_9499_5342_1312_0000, 624, 624, 312, 0x2000_0000_0000, 1_0000_0000_0000_0000_0000, 16, false)
    case 1028 => Power(562_9499_5342_1312_0000, 624, 624, 312, 0x1000_0000_0000, 1_0000_0000_0000_0000_0000, 32, false)
    case _ => Power(562_9499_5342_1312_0000, 624, 624, 312, 0x800_0000_0000, 1_0000_0000_0000_0000_0000, 64, false)
  }

  function Rows1030(be: int): bool {
    match be
    case 1030 => Power(562_9499_5342_1312_0000, 624, 624, 312, 0x400_0000_0000, 1_0000_0000_0000_0000_0000, 128, false)
    case 1031 => Power(562_9499_5342_1312_0000, 624, 624, 312, 0x200_0000_0000, 1_0000_0000_0000_0000_0000, 256, false)
    case 1032 => Power(562_9499_5342_1312_0000, 624, 624, 312, 0x100_0000_0000, 1_0000_0000_0000_0000_0000, 512, false)
    case 1033 => Power(562_9499_5342_1312_0000, 624, 624, 312, 0x80_0000_0000, 1_0000_0000_0000_0000_0000, 1024, false)
    case 1034 => Power(562_9499_5342_1312_0000, 624, 624, 312, 0x40_0000_0000, 1_0000_0000_0000_0000_0000, 2048, false)
    case 1035 => Power(562_9499_5342_1312_0000, 624, 624, 312, 0x20_0000_0000, 1_0000_0000_0000_0000_0000, 4096, false)
    case 1036 => Power(562_9499_5342_1312_0000, 624, 624, 312, 0x10_0000_0000, 1_0000_0000_0000_0000_0000, 8192, false)
    case 1037 => Power(562_9499_5342_1312_0000, 624, 624, 312, 0x8_0000_0000, 1_0000_0000_0000_0000_0000, 1_6384, false)
    case _ => Power(562_9499_5342_1312_0000, 624, 624, 312, 0x4_0000_0000, 1_0000_0000_0000_0000_0000, 3_2768, false)
  }

  lemma Settled44(be: nat)
    requires 1012 <= be < 1039
    ensures Settled(be, Misread(be))
  {
    hide HalfUlp, Serves, Normalized, Pow, PowerOfTen, Refuted, Candidate, Row, Settled;
    assert Entry(44) == DiyFp(0x9c40_0000_0000_0000, -50)
        && !OtherBounds(0x9c40_0000_0000_0000, 562_9499_5342_1312_0000, 624, 624, 312);
    hide OtherBounds, Entry;
    PowersOfTwoThatOccur();
    PowersOfTenThatOccur();
    RowsHold();
    var row := if be < 1021 then Rows1012(be) else if be < 1030 then Rows1021(be) else Rows1030(be);
    assert Row(562_9499_5342_1312_0000, 624, 624, 312, Pow(2, 1072 - be), Misread(be));
    hide Misread;
    Settle(be, 44, 1012, 1039, 562_9499_5342_1312_0000, 624, 624, 312, Misread(be));
  }

  function Rows1039(be: int): bool {
    match be
    case 1039 => Power(755_5786_3725_9143_2342, 838, 838, 419, 0x1000_0000_0000_0000, 1_0000_0000_0000, 6_5536, false)
    case 1040 => Power(755_5786_3725_9143_2342, 838, 838, 419, 0x800_0000_0000_0000, 1_0000_0000_0000, 13_1072, false)
    case 1041 => Power(755_5786_3725_9143_2342, 838, 838, 419, 0x400_0000_0000_0000, 1_0000_0000_0000, 26_2144, false)
    case 1042 => Power(755_5786_3725_9143_2342, 838, 838, 419, 0x200_0000_0000_0000, 1_0000_0000_0000, 52_4288, false)
    case 1043 => Power(755_5786_3725_9143_2342, 838, 838, 419, 0x100_0000_0000_0000, 1_0000_0000_0000, 104_8576, false)
    case 1044 => Power(755_5786_3725_9143_2342, 838, 838, 419, 0x80_0000_0000_0000, 1_0000_0000_0000, 209_7152, false)
    case 1045 => Power(755_5786_3725_9143_2342, 838, 838, 419, 0x40_0000_0000_0000, 1_0000_0000_0000, 419_4304, false)
    case 1046 => Power(755_5786_3725_9143_2342, 838, 838, 419, 0x20_0000_0000_0000, 1_0000_0000_0000, 838_8608, false)
    case _ => Power(755_5786_3725_9143_2342, 838, 838, 419, 0x10_0000_0000_0000, 1_0000_0000_0000, 1677_7216, false)
  }

  function Rows1048(be: int): bool {
    match be
    case 1048 => Power(755_5786_3725_9143_2342, 838, 838, 419, 0x8_0000_0000_0000, 1_0000_0000_0000, 3355_4432, false)
    case 1049 => Power(755_5786_3725_9143_2342, 838, 838, 419, 0x4_0000_0000_0000, 1_0000_0000_0000, 6710_8864, false)
    case 1050 => Power(755_5786_3725_9143_2342, 838, 838, 419, 0x2_0000_0000_0000, 1_0000_0000_0000, 1_3421_7728, false)
    case 1051 => Power(755_5786_3725_9143_2342, 838, 838, 419, 0x1_0000_0000_0000, 1_0000_0000_0000, 2_6843_5456, false)
    case 1052 => Power(755_5786_3725_9143_2342, 838, 838, 419, 0x8000_0000_0000, 1_0000_0000_0000, 5_3687_0912, false)
    case 1053 => Power(755_5786_3725_9143_2342, 838, 838, 419, 0x4000_0000_0000, 1_0000_0000_0000, 10_7374_1824, false)
    case 1054 => Power(755_5786_3725_9143_2342, 838, 838, 419, 0x2000_0000_0000, 1_0000_0000_0000, 21_4748_3648, false)
    case 1055 => Power(755_5786_3725_9143_2342, 838, 838, 419, 0x1000_0000_0000, 1_0000_0000_0000, 42_9496_7296, false)
    case _ => Power(755_5786_3725_9143_2342, 838, 838, 419, 0x800_0000_0000, 1_0000_0000_0000, 85_8993_4592, false)
  }

  function Rows1057(be: int): bool {
    match be
    case 1057 => Power(755_5786_3725_9143_2342, 838, 838, 419, 0x400_0000_0000, 1_0000_0000_0000, 171_7986_9184, false)
    case 1058 => Power(755_5786_3725_9143_2342, 838, 838, 419, 0x200_0000_0000, 1_0000_0000_0000, 343_5973_8368, false)
    case 1059 => Power(755_5786_3725_9143_2342, 838, 838, 419, 0x100_0000_0000, 1_0000_0000_0000, 687_1947_6736, false)
    case 1060 => Power(755_5786_3725_9143_2342, 838, 838, 419, 0x80_0000_0000, 1_0000_0000_0000, 1374_3895_3472, false)
    case 1061 => Power(755_5786_3725_9143_2342, 838, 838, 419, 0x40_0000_0000, 1_0000_0000_0000, 2748_7790_6944, false)
    case 1062 => Power(755_5786_3725_9143_2342, 838, 838, 419, 0x20_0000_0000, 1_0000_0000_0000, 5497_5581_3888, false)
    case 1063 =>
      Power(755_5786_3725_9143_2342, 838, 838, 419, 0x10_0000_0000, 1_0000_0000_0000, 1_0995_1162_7776, false)
    case _ => Power(755_5786_3725_9143_2342, 838, 838, 419, 0x8_0000_0000, 1_0000_0000_0000, 2_1990_2325_5552, false)
  }

  lemma Settled43(be: nat)
    requires 1039 <= be < 1065
    ensures Settled(be, Misread(be))
  {
    hide HalfUlp, Serves, Normalized, Pow, PowerOfTen, Refuted, Candidate, Row, Settled;
    assert Entry(43) == DiyFp(0xd1b7_1758_e219_652c, -77)
        && !OtherBounds(0xd1b7_1758_e219_652c, 755_5786_3725_9143_2342, 838, 838, 419);
    hide OtherBounds, Entry;
    PowersOfTwoThatOccur();
    PowersOfTenThatOccur();
    RowsHold();
    var row := if be < 1048 then Rows1039(be) else if be < 1057 then Rows1048(be) else Rows1057(be);
    assert Row(755_5786_3725_9143_2342, 838, 838, 419, Pow(2, 1099 - be), Misread(be));
    hide Misread;
    Settle(be, 43, 1039, 1065, 755_5786_3725_9143_2342, 838, 838, 419, Misread(be));
  }

  function Rows1065(be: int): bool {
    match be
    case 1065 => Power(507_0602_4009_1291_7606, 562, 562, 281, 0x1000_0000_0000_0000, 1_0000, 4_3980_4651_1104, false)
    case 1066 => Power(507_0602_4009_1291_7606, 562, 562, 281, 0x800_0000_0000_0000, 1_0000, 8_7960_9302_2208, false)
    case 1067 => Power(507_0602_4009_1291_7606, 562, 562, 281, 0x400_0000_0000_0000, 1_0000, 17_5921_8604_4416, false)
    case 1068 => Power(507_0602_4009_1291_7606, 562, 562, 281, 0x200_0000_0000_0000, 1_0000, 35_1843_7208_8832, false)
    case 1069 => Power(507_0602_4009_1291_7606, 562, 562, 281, 0x100_0000_0000_0000, 1_0000, 70_3687_4417_7664, false)
    case 1070 => Power(507_0602_4009_1291_7606, 562, 562, 281, 0x80_0000_0000_0000, 1_0000, 140_7374_8835_5328, false)
    case 1071 => Power(507_0602_4009_1291_7606, 562, 562, 281, 0x40_0000_0000_0000, 1_0000, 281_4749_7671_0656, false)
    case 1072 => Power(507_0602_4009_1291_7606, 562, 562, 281, 0x20_0000_0000_0000, 1_0000, 562_9499_5342_1312, false)
    case _ => Power(507_0602_4009_1291_7606, 562, 562, 281, 0x10_0000_0000_0000, 1_0000, 1125_8999_0684_2624, false)
  }

  function Rows1074(be: int): bool {
    match be
    case 1074 => Power(507_0602_4009_1291_7606, 562, 562, 281, 0x8_0000_0000_0000, 1_0000, 2251_7998_1368_5248, false)
    case 1075 => Power(507_0602_4009_1291_7606, 562, 562, 281, 0x4_0000_0000_0000, 1_0000, 4503_5996_2737_0496, false)
    case 1076 => Power(507_0602_4009_1291_7606, 562, 562, 281, 0x2_0000_0000_0000, 1_0000, 9007_1992_5474_0992, false)
    case 1077 => Power(507_0602_4009_1291_7606, 562, 562, 281, 0x1_0000_0000_0000, 1_0000, 1_8014_3985_0948_1984, false)
    case 1078 => Power(507_0602_4009_1291_7606, 562, 562, 281, 0x8000_0000_0000, 10_0000, 3602_8797_0189_6397, false)
    case 1079 => Power(507_0602_4009_1291_7606, 562, 562, 281, 0x4000_0000_0000, 10_0000, 7205_7594_0379_2794, false)
    case 1080 => Power(507_0602_4009_1291_7606, 562, 562, 281, 0x2000_0000_0000, 10_0000, 1_4411_5188_0758_5587, false)
    case 1081 => Power(507_0602_4009_1291_7606, 562, 562, 281, 0x1000_0000_0000, 10_0000, 2_8823_0376_1517_1174, false)
    case _ => Power(507_0602_4009_1291_7606, 562, 562, 281, 0x800_0000_0000, 100_0000, 5764_6075_2303_4235, false)
  }

  function Rows1083(be: int): bool {
    match be
    case 1083 => Power(507_0602_4009_1291_7606, 562, 562, 281, 0x400_0000_0000, 1000_0000, 1152_9215_0460_6847, false)
    case 1084 => Power(507_0602_4009_1291_7606, 562, 562, 281, 0x200_0000_0000, 1000_0000, 2305_8430_0921_3694, false)
    case 1085 => Power(507_0602_4009_1291_7606, 562, 562, 281, 0x100_0000_0000, 1000_0000, 4611_6860_1842_7388, false)
    case 1086 => Power(507_0602_4009_1291_7606, 562, 562, 281, 0x80_0000_0000, 1000_0000, 9223_3720_3685_4776, false)
    case 1087 => Power(507_0602_4009_1291_7606, 562, 562, 281, 0x40_0000_0000, 1_0000_0000, 1844_6744_0737_0955, true)
    case 1088 => Power(507_0602_4009_1291_7606, 562, 562, 281, 0x20_0000_0000, 10_0000_0000, 368_9348_8147_4191, true)
    case 1089 => Power(507_0602_4009_1291_7606, 562, 562, 281, 0x10_0000_0000, 10_0000_0000, 737_8697_6294_8382, true)
    case 1090 => Power(507_0602_4009_1291_7606, 562, 562, 281, 0x8_0000_0000, 10_0000_0000, 1475_7395_2589_6764, true)
    case _ => Power(507_0602_4009_1291_7606, 562, 562, 281, 0x4_0000_0000, 10_0000_0000, 2951_4790_5179_3528, true)
  }

  lemma Settled42(be: nat)
    requires 1065 <= be < 1092
    ensures Settled(be, Misread(be))
  {
    hide HalfUlp, Serves, Normalized, Pow, PowerOfTen, Refuted, Candidate, Row, Settled;
    assert Entry(42) == DiyFp(0x8cbc_cc09_6f50_88cc, -103)
        && !OtherBounds(0x8cbc_cc09_6f50_88cc, 507_0602_4009_1291_7606, 562, 562, 281);
    hide OtherBounds, Entry;
    PowersOfTwoThatOccur();
    PowersOfTenThatOccur();
    RowsHold();
    var row := if be < 1074 then Rows1065(be) else if be < 1083 then Rows1074(be) else Rows1083(be);
    assert Row(507_0602_4009_1291_7606, 562, 562, 281, Pow(2, 1125 - be), Misread(be));
    hide Misread;
    Settle(be, 42, 1065, 1092, 507_0602_4009_1291_7606, 562, 562, 281, Misread(be));
  }

  function Rows1092(be: int): bool {
    match be
    case 1092 => Power(680_5647_3384_1876_9270, 755, 754, 378, 0x1000_0000_0000_0000, 10, 5902_9581_0358_7057, false)
    case 1093 => Power(680_5647_3384_1876_9270, 755, 754, 378, 0x800_0000_0000_0000, 10, 1_1805_9162_0717_4113, false)
    case 1094 => Power(680_5647_3384_1876_9270, 755, 754, 378, 0x400_0000_0000_0000, 10, 2_3611_8324_1434_8226, false)
    case 1095 => Power(680_5647_3384_1876_9270, 755, 754, 378, 0x200_0000_0000_0000, 100, 4722_3664_8286_9645, false)
    case 1096 => Power(680_5647_3384_1876_9270, 755, 754, 378, 0x100_0000_0000_0000, 1000, 944_4732_9657_3929, false)
    case 1097 => Power(680_5647_3384_1876_9270, 755, 754, 378, 0x80_0000_0000_0000, 1000, 1888_9465_9314_7858, false)
    case 1098 => Power(680_5647_3384_1876_9270, 755, 754, 378, 0x40_0000_0000_0000, 1000, 3777_8931_8629_5716, false)
    case 1099 => Power(680_5647_3384_1876_9270, 755, 754, 378, 0x20_0000_0000_0000, 1000, 7555_7863_7259_1432, false)
    case _ => Power(680_5647_3384_1876_9270, 755, 754, 378, 0x10_0000_0000_0000, 1000, 1_5111_5727_4518_2865, false)
  }

  function Rows1101(be: int): bool {
    match be
    case 1101 => Power(680_5647_3384_1876_9270, 755, 754, 378, 0x8_0000_0000_0000, 1_0000, 3022_3145_4903_6573, false)
    case 1102 => Power(680_5647_3384_1876_9270, 755, 754, 378, 0x4_0000_0000_0000, 1_0000, 6044_6290_9807_3146, false)
    case 1103 => Power(680_5647_3384_1876_9270, 755, 754, 378, 0x2_0000_0000_0000, 1_0000, 1_2089_2581_9614_6292, false)
    case 1104 => Power(680_5647_3384_1876_9270, 755, 754, 378, 0x1_0000_0000_0000, 1_0000, 2_4178_5163_9229_2583, false)
    case 1105 => Power(680_5647_3384_1876_9270, 755, 754, 378, 0x8000_0000_0000, 10_0000, 4835_7032_7845_8517, false)
    case 1106 => Power(680_5647_3384_1876_9270, 755, 754, 378, 0x4000_0000_0000, 10_0000, 9671_4065_5691_7033, false)
    case 1107 => Power(680_5647_3384_1876_9270, 755, 754, 378, 0x2000_0000_0000, 10_0000, 1_9342_8131_1383_4067, false)
    case 1108 => Power(680_5647_3384_1876_9270, 755, 754, 378, 0x1000_0000_0000, 100_0000, 3868_5626_2276_6813, true)
    case _ => Power(680_5647_3384_1876_9270, 755, 754, 378, 0x800_0000_0000, 100_0000, 7737_1252_4553_3627, false)
  }

  function Rows1110(be: int): bool {
    match be
    case 1110 => Power(680_5647_3384_1876_9270, 755, 754, 378, 0x400_0000_0000, 100_0000, 1_5474_2504_9106_7253, false)
    case 1111 => Power(680_5647_3384_1876_9270, 755, 754, 378, 0x200_0000_0000, 1000_0000, 3094_8500_9821_3451, false)
    case 1112 => Power(680_5647_3384_1876_9270, 755, 754, 378, 0x100_0000_0000, 1000_0000, 6189_7001_9642_6901, true)
    case 1113 => Power(680_5647_3384_1876_9270, 755, 754, 378, 0x80_0000_0000, 1000_0000, 1_2379_4003_9285_3803, false)
    case 1114 => Power(680_5647_3384_1876_9270, 755, 754, 378, 0x40_0000_0000, 1000_0000, 2_4758_8007_8570_7606, false)
    case 1115 => Power(680_5647_3384_1876_9270, 755, 754, 378, 0x20_0000_0000, 1_0000_0000, 4951_7601_5714_1521, false)
    case 1116 => Power(680_5647_3384_1876_9270, 755, 754, 378, 0x10_0000_0000, 1_0000_0000, 9903_5203_1428_3042, false)
    case 1117 => Power(680_5647_3384_1876_9270, 755, 754, 378, 0x8_0000_0000, 1_0000_0000, 1_9807_0406_2856_6084, false)
    case _ => Power(680_5647_3384_1876_9270, 755, 754, 378, 0x4_0000_0000, 10_0000_0000, 3961_4081_2571_3217, false)
  }

  lemma Settled41(be: nat)
    requires 1092 <= be < 1119
    ensures Settled(be, Misread(be))
  {
    hide HalfUlp, Serves, Normalized, Pow, PowerOfTen, Refuted, Candidate, Row, Settled;
    assert Entry(41) == DiyFp(0xbce5_0864_9211_1aeb, -130)
        && !OtherBounds(0xbce5_0864_9211_1aeb, 680_5647_3384_1876_9270, 755, 754, 378);
    hide OtherBounds, Entry;
    PowersOfTwoThatOccur();
    PowersOfTenThatOccur();
    RowsHold();
    var row := if be < 1101 then Rows1092(be) else if be < 1110 then Rows1101(be) else Rows1110(be);
    assert Row(680_5647_3384_1876_9270, 755, 754, 378, Pow(2, 1152 - be), Misread(be));
    hide Misread;
    Settle(be, 41, 1092, 1119, 680_5647_3384_1876_9270, 755, 754, 378, Misread(be));
  }

  function Rows1119(be: int): bool {
    match be
    case 1119 => Power(913_4385_2333_1814_3239, 1013, 1013, 507, 0x1000_0000_0000_0000, 10, 7922_8162_5142_6434, false)
    case 1120 => Power(913_4385_2333_1814_3239, 1013, 1013, 507, 0x800_0000_0000_0000, 10, 1_5845_6325_0285_2868, false)
    case 1121 => Power(913_4385_2333_1814_3239, 1013, 1013, 507, 0x400_0000_0000_0000, 10, 3_1691_2650_0570_5735, false)
    case 1122 => Power(913_4385_2333_1814_3239, 1013, 1013, 507, 0x200_0000_0000_0000, 100, 6338_2530_0114_1147, false)
    case 1123 =>
      Power(913_4385_2333_1814_3239, 1013, 1013, 507, 0x100_0000_0000_0000, 100, 1_2676_5060_0228_2294, false)
    case 1124 => Power(913_4385_2333_1814_3239, 1013, 1013, 507, 0x80_0000_0000_0000, 1000, 2535_3012_0045_6459, false)
    case 1125 => Power(913_4385_2333_1814_3239, 1013, 1013, 507, 0x40_0000_0000_0000, 1000, 5070_6024_0091_2918, false)
    case 1126 =>
      Power(913_4385_2333_1814_3239, 1013, 1013, 507, 0x20_0000_0000_0000, 1000, 1_0141_2048_0182_5835, false)
    case _ => Power(913_4385_2333_1814_3239, 1013, 1013, 507, 0x10_0000_0000_0000, 1_0000, 2028_2409_6036_5167, false)
  }

  function Rows1128(be: int): bool {
    match be
    case 1128 => Power(913_4385_2333_1814_3239, 1013, 1013, 507, 0x8_0000_0000_0000, 1_0000, 4056_4819_2073_0334, false)
    case 1129 => Power(913_4385_2333_1814_3239, 1013, 1013, 507, 0x4_0000_0000_0000, 1_0000, 8112_9638_4146_0668, false)
    case 1130 =>
      Power(913_4385_2333_1814_3239, 1013, 1013, 507, 0x2_0000_0000_0000, 1_0000, 1_6225_9276_8292_1336, false)
    case 1131 => Power(913_4385_2333_1814_3239, 1013, 1013, 507, 0x1_0000_0000_0000, 10_0000, 3245_1855_3658_4267, true)
    case 1132 => Power(913_4385_2333_1814_3239, 1013, 1013, 507, 0x8000_0000_0000, 10_0000, 6490_3710_7316_8535, false)
    case 1133 => Power(913_4385_2333_1814_3239, 1013, 1013, 507, 0x4000_0000_0000, 100_0000, 1298_0742_1463_3707, false)
    case 1134 => Power(913_4385_2333_1814_3239, 1013, 1013, 507, 0x2000_0000_0000, 100_0000, 2596_1484_2926_7414, false)
    case 1135 => Power(913_4385_2333_1814_3239, 1013, 1013, 507, 0x1000_0000_0000, 100_0000, 5192_2968_5853_4828, false)
    case _ => Power(913_4385_2333_1814_3239, 1013, 1013, 507, 0x800_0000_0000, 100_0000, 1_0384_5937_1706_9655, false)
  }

  function Rows1137(be: int): bool {
    match be
    case 1137 => Power(913_4385_2333_1814_3239, 1013, 1013, 507, 0x400_0000_0000, 1000_0000, 2076_9187_4341_3931, false)
    case 1138 => Power(913_4385_2333_1814_3239, 1013, 1013, 507, 0x200_0000_0000, 1000_0000, 4153_8374_8682_7862, false)
    case 1139 => Power(913_4385_2333_1814_3239, 1013, 1013, 507, 0x100_0000_0000, 1000_0000, 8307_6749_7365_5724, false)
    case 1140 =>
      Power(913_4385_2333_1814_3239, 1013, 1013, 507, 0x80_0000_0000, 1_0000_0000, 1661_5349_9473_1145, false)
    case 1141 =>
      Power(913_4385_2333_1814_3239, 1013, 1013, 507, 0x40_0000_0000, 10_0000_0000, 332_3069_9894_6229, false)
    case 1142 =>
      Power(913_4385_2333_1814_3239, 1013, 1013, 507, 0x20_0000_0000, 10_0000_0000, 664_6139_9789_2458, false)
    case 1143 =>
      Power(913_4385_2333_1814_3239, 1013, 1013, 507, 0x10_0000_0000, 10_0000_0000, 1329_2279_9578_4916, false)
    case _ => Power(913_4385_2333_1814_3239, 1013, 1013, 507, 0x8_0000_0000, 10_0000_0000, 2658_4559_9156_9832, false)
  }

  lemma Settled40(be: nat)
    requires 1119 <= be < 1145
    ensures Settled(be, Misread(be))
  {
    hide HalfUlp, Serves, Normalized, Pow, PowerOfTen, Refuted, Candidate, Row, Settled;
    assert Entry(40) == DiyFp(0xfd87_b5f2_8300_ca0e, -157)
        && !OtherBounds(0xfd87_b5f2_8300_ca0e, 913_4385_2333_1814_3239, 1013, 1013, 507);
    hide OtherBounds, Entry;
    PowersOfTwoThatOccur();
    PowersOfTenThatOccur();
    RowsHold();
    var row := if be < 1128 then Rows1119(be) else if be < 1137 then Rows1128(be) else Rows1137(be);
    assert Row(913_4385_2333_1814_3239, 1013, 1013, 507, Pow(2, 1179 - be), Misread(be));
    hide Misread;
    Settle(be, 40, 1119, 1145, 913_4385_2333_1814_3239, 1013, 1013, 507, Misread(be));
  }

  function Rows1145(be: int): bool {
    match be
    case 1145 => Power(612_9982_1634_6355_5434, 680, 679, 341, 0x1000_0000_0000_0000, 10, 5316_9119_8313_9663, true)
    case 1146 => Power(612_9982_1634_6355_5434, 680, 679, 341, 0x800_0000_0000_0000, 10, 1_0633_8239_6627_9327, false)
    case 1147 => Power(612_9982_1634_6355_5434, 680, 679, 341, 0x400_0000_0000_0000, 10, 2_1267_6479_3255_8654, false)
    case 1148 => Power(612_9982_1634_6355_5434, 680, 679, 341, 0x200_0000_0000_0000, 100, 4253_5295_8651_1731, false)
    case 1149 => Power(612_9982_1634_6355_5434, 680, 679, 341, 0x100_0000_0000_0000, 100, 8507_0591_7302_3462, false)
    case 1150 => Power(612_9982_1634_6355_5434, 680, 679, 341, 0x80_0000_0000_0000, 100, 1_7014_1183_4604_6923, false)
    case 1151 => Power(612_9982_1634_6355_5434, 680, 679, 341, 0x40_0000_0000_0000, 1000, 3402_8236_6920_9385, false)
    case 1152 => Power(612_9982_1634_6355_5434, 680, 679, 341, 0x20_0000_0000_0000, 1_0000, 680_5647_3384_1877, false)
    case _ => Power(612_9982_1634_6355_5434, 680, 679, 341, 0x10_0000_0000_0000, 1_0000, 1361_1294_6768_3754, false)
  }

  function Rows1154(be: int): bool {
    match be
    case 1154 => Power(612_9982_1634_6355_5434, 680, 679, 341, 0x8_0000_0000_0000, 1_0000, 2722_2589_3536_7508, false)
    case 1155 => Power(612_9982_1634_6355_5434, 680, 679, 341, 0x4_0000_0000_0000, 1_0000, 5444_5178_7073_5015, true)
    case 1156 => Power(612_9982_1634_6355_5434, 680, 679, 341, 0x2_0000_0000_0000, 10_0000, 1088_9035_7414_7003, true)
    case 1157 => Power(612_9982_1634_6355_5434, 680, 679, 341, 0x1_0000_0000_0000, 10_0000, 2177_8071_4829_4006, true)
    case 1158 => Power(612_9982_1634_6355_5434, 680, 679, 341, 0x8000_0000_0000, 10_0000, 4355_6142_9658_8012, true)
    case 1159 => Power(612_9982_1634_6355_5434, 680, 679, 341, 0x4000_0000_0000, 10_0000, 8711_2285_9317_6025, false)
    case 1160 => Power(612_9982_1634_6355_5434, 680, 679, 341, 0x2000_0000_0000, 100_0000, 1742_2457_1863_5205, false)
    case 1161 => Power(612_9982_1634_6355_5434, 680, 679, 341, 0x1000_0000_0000, 1000_0000, 348_4491_4372_7041, false)
    case _ => Power(612_9982_1634_6355_5434, 680, 679, 341, 0x800_0000_0000, 1000_0000, 696_8982_8745_4082, false)
  }

  function Rows1163(be: int): bool {
    match be
    case 1163 => Power(612_9982_1634_6355_5434, 680, 679, 341, 0x400_0000_0000, 1000_0000, 1393_7965_7490_8164, false)
    case 1164 => Power(612_9982_1634_6355_5434, 680, 679, 341, 0x200_0000_0000, 1000_0000, 2787_5931_4981_6328, false)
    case 1165 => Power(612_9982_1634_6355_5434, 680, 679, 341, 0x100_0000_0000, 1000_0000, 5575_1862_9963_2656, false)
    case 1166 => Power(612_9982_1634_6355_5434, 680, 679, 341, 0x80_0000_0000, 1000_0000, 1_1150_3725_9926_5312, false)
    case 1167 => Power(612_9982_1634_6355_5434, 680, 679, 341, 0x40_0000_0000, 1000_0000, 2_2300_7451_9853_0623, false)
    case 1168 => Power(612_9982_1634_6355_5434, 680, 679, 341, 0x20_0000_0000, 1_0000_0000, 4460_1490_3970_6125, false)
    case 1169 => Power(612_9982_1634_6355_5434, 680, 679, 341, 0x10_0000_0000, 10_0000_0000, 892_0298_0794_1225, false)
    case 1170 => Power(612_9982_1634_6355_5434, 680, 679, 341, 0x8_0000_0000, 100_0000_0000, 178_4059_6158_8245, false)
    case _ => Power(612_9982_1634_6355_5434, 680, 679, 341, 0x4_0000_0000, 1000_0000_0000, 35_6811_9231_7649, false)
  }

  lemma Settled39(be: nat)
    requires 1145 <= be < 1172
    ensures Settled(be, Misread(be))
  {
    hide HalfUlp, Serves, Normalized, Pow, PowerOfTen, Refuted, Candidate, Row, Settled;
    assert Entry(39) == DiyFp(0xaa24_2499_6973_92d3, -183)
        && !OtherBounds(0xaa24_2499_6973_92d3, 612_9982_1634_6355_5434, 680, 679, 341);
    hide OtherBounds, Entry;
    PowersOfTwoThatOccur();
    PowersOfTenThatOccur();
    RowsHold();
    var row := if be < 1154 then Rows1145(be) else if be < 1163 then Rows1154(be) else Rows1163(be);
    assert Row(612_9982_1634_6355_5434, 680, 679, 341, Pow(2, 1205 - be), Misread(be));
    hide Misread;
    Settle(be, 39, 1145, 1172, 612_9982_1634_6355_5434, 680, 679, 341, Misread(be));
  }

  function Rows1172(be: int): bool {
    match be
    case 1172 => Power(822_7522_7866_0603_0211, 912, 912, 457, 0x1000_0000_0000_0000, 1000, 71_3623_8463_5298, false)
    case 1173 => Power(822_7522_7866_0603_0211, 912, 912, 457, 0x800_0000_0000_0000, 1000, 142_7247_6927_0596, false)
    case 1174 => Power(822_7522_7866_0603_0211, 912, 912, 457, 0x400_0000_0000_0000, 1000, 285_4495_3854_1192, false)
    case 1175 => Power(822_7522_7866_0603_0211, 912, 912, 457, 0x200_0000_0000_0000, 1000, 570_8990_7708_2384, false)
    case 1176 => Power(822_7522_7866_0603_0211, 912, 912, 457, 0x100_0000_0000_0000, 1000, 1141_7981_5416_4768, false)
    case 1177 => Power(822_7522_7866_0603_0211, 912, 912, 457, 0x80_0000_0000_0000, 1000, 2283_5963_0832_9536, false)
    case 1178 => Power(822_7522_7866_0603_0211, 912, 912, 457, 0x40_0000_0000_0000, 1000, 4567_1926_1665_9072, false)
    case 1179 => Power(822_7522_7866_0603_0211, 912, 912, 457, 0x20_0000_0000_0000, 1000, 9134_3852_3331_8143, false)
    case _ => Power(822_7522_7866_0603_0211, 912, 912, 457, 0x10_0000_0000_0000, 1000, 1_8268_7704_6663_6286, false)
  }

  function Rows1181(be: int): bool {
    match be
    case 1181 => Power(822_7522_7866_0603_0211, 912, 912, 457, 0x8_0000_0000_0000, 1_0000, 3653_7540_9332_7257, true)
    case 1182 => Power(822_7522_7866_0603_0211, 912, 912, 457, 0x4_0000_0000_0000, 1_0000, 7307_5081_8665_4515, false)
    case 1183 => Power(822_7522_7866_0603_0211, 912, 912, 457, 0x2_0000_0000_0000, 10_0000, 1461_5016_3733_0903, false)
    case 1184 => Power(822_7522_7866_0603_0211, 912, 912, 457, 0x1_0000_0000_0000, 10_0000, 2923_0032_7466_1806, false)
    case 1185 => Power(822_7522_7866_0603_0211, 912, 912, 457, 0x8000_0000_0000, 10_0000, 5846_0065_4932_3612, false)
    case 1186 => Power(822_7522_7866_0603_0211, 912, 912, 457, 0x4000_0000_0000, 10_0000, 1_1692_0130_9864_7223, false)
    case 1187 => Power(822_7522_7866_0603_0211, 912, 912, 457, 0x2000_0000_0000, 10_0000, 2_3384_0261_9729_4447, false)
    case 1188 => Power(822_7522_7866_0603_0211, 912, 912, 457, 0x1000_0000_0000, 100_0000, 4676_8052_3945_8889, true)
    case _ => Power(822_7522_7866_0603_0211, 912, 912, 457, 0x800_0000_0000, 100_0000, 9353_6104_7891_7779, false)
  }

  function Rows1190(be: int): bool {
    match be
    case 1190 => Power(822_7522_7866_0603_0211, 912, 912, 457, 0x400_0000_0000, 100_0000, 1_8707_2209_5783_5557, false)
    case 1191 => Power(822_7522_7866_0603_0211, 912, 912, 457, 0x200_0000_0000, 100_0000, 3_7414_4419_1567_1115, false)
    case 1192 => Power(822_7522_7866_0603_0211, 912, 912, 457, 0x100_0000_0000, 1000_0000, 7482_8883_8313_4223, false)
    case 1193 => Power(822_7522_7866_0603_0211, 912, 912, 457, 0x80_0000_0000, 1000_0000, 1_4965_7767_6626_8446, false)
    case 1194 => Power(822_7522_7866_0603_0211, 912, 912, 457, 0x40_0000_0000, 1_0000_0000, 2993_1553_5325_3689, true)
    case 1195 => Power(822_7522_7866_0603_0211, 912, 912, 457, 0x20_0000_0000, 1_0000_0000, 5986_3107_0650_7378, true)
    case 1196 =>
      Power(822_7522_7866_0603_0211, 912, 912, 457, 0x10_0000_0000, 1_0000_0000, 1_1972_6214_1301_4757, false)
    case _ => Power(822_7522_7866_0603_0211, 912, 912, 457, 0x8_0000_0000, 1_0000_0000, 2_3945_2428_2602_9513, false)
  }

  lemma Settled38(be: nat)
    requires 1172 <= be < 1198
    ensures Settled(be, Misread(be))
  {
    hide HalfUlp, Serves, Normalized, Pow, PowerOfTen, Refuted, Candidate, Row, Settled;
    assert Entry(38) == DiyFp(0xe45c_10c4_2a2b_3b06, -210)
        && !OtherBounds(0xe45c_10c4_2a2b_3b06, 822_7522_7866_0603_0211, 912, 912, 457);
    hide OtherBounds, Entry;
    PowersOfTwoThatOccur();
    PowersOfTenThatOccur();
    RowsHold();
    var row := if be < 1181 then Rows1172(be) else if be < 1190 then Rows1181(be) else Rows1190(be);
    assert Row(822_7522_7866_0603_0211, 912, 912, 457, Pow(2, 1232 - be), Misread(be));
    hide Misread;
    Settle(be, 38, 1172, 1198, 822_7522_7866_0603_0211, 912, 912, 457, Misread(be));
  }

  function Rows1198(be: int): bool {
    match be
    case 1198 => Power(552_1397_0774_3245_1030, 612, 612, 306, 0x1000_0000_0000_0000, 10, 4789_0485_6520_5903, false)
    case 1199 => Power(552_1397_0774_3245_1030, 612, 612, 306, 0x800_0000_0000_0000, 10, 9578_0971_3041_1805, false)
    case 1200 => Power(552_1397_0774_3245_1030, 612, 612, 306, 0x400_0000_0000_0000, 100, 1915_6194_2608_2361, false)
    case 1201 => Power(552_1397_0774_3245_1030, 612, 612, 306, 0x200_0000_0000_0000, 100, 3831_2388_5216_4722, false)
    case 1202 => Power(552_1397_0774_3245_1030, 612, 612, 306, 0x100_0000_0000_0000, 100, 7662_4777_0432_9444, false)
    case 1203 => Power(552_1397_0774_3245_1030, 612, 612, 306, 0x80_0000_0000_0000, 1000, 1532_4955_4086_5889, false)
    case 1204 => Power(552_1397_0774_3245_1030, 612, 612, 306, 0x40_0000_0000_0000, 1000, 3064_9910_8173_1778, false)
    case 1205 => Power(552_1397_0774_3245_1030, 612, 612, 306, 0x20_0000_0000_0000, 1000, 6129_9821_6346_3555, true)
    case _ => Power(552_1397_0774_3245_1030, 612, 612, 306, 0x10_0000_0000_0000, 1_0000, 1225_9964_3269_2711, true)
  }

  function Rows1207(be: int): bool {
    match be
    case 1207 => Power(552_1397_0774_3245_1030, 612, 612, 306, 0x8_0000_0000_0000, 1_0000, 2451_9928_6538_5422, true)
    case 1208 => Power(552_1397_0774_3245_1030, 612, 612, 306, 0x4_0000_0000_0000, 1_0000, 4903_9857_3077_0844, true)
    case 1209 => Power(552_1397_0774_3245_1030, 612, 612, 306, 0x2_0000_0000_0000, 1_0000, 9807_9714_6154_1689, false)
    case 1210 => Power(552_1397_0774_3245_1030, 612, 612, 306, 0x1_0000_0000_0000, 1_0000, 1_9615_9429_2308_3377, false)
    case 1211 => Power(552_1397_0774_3245_1030, 612, 612, 306, 0x8000_0000_0000, 1_0000, 3_9231_8858_4616_6755, false)
    case 1212 => Power(552_1397_0774_3245_1030, 612, 612, 306, 0x4000_0000_0000, 10_0000, 7846_3771_6923_3351, false)
    case 1213 => Power(552_1397_0774_3245_1030, 612, 612, 306, 0x2000_0000_0000, 10_0000, 1_5692_7543_3846_6702, false)
    case 1214 => Power(552_1397_0774_3245_1030, 612, 612, 306, 0x1000_0000_0000, 10_0000, 3_1385_5086_7693_3404, false)
    case _ => Power(552_1397_0774_3245_1030, 612, 612, 306, 0x800_0000_0000, 100_0000, 6277_1017_3538_6681, false)
  }

  function Rows1216(be: int): bool {
    match be
    case 1216 => Power(552_1397_0774_3245_1030, 612, 612, 306, 0x400_0000_0000, 100_0000, 1_2554_2034_7077_3362, false)
    case 1217 => Power(552_1397_0774_3245_1030, 612, 612, 306, 0x200_0000_0000, 100_0000, 2_5108_4069_4154_6723, false)
    case 1218 => Power(552_1397_0774_3245_1030, 612, 612, 306, 0x100_0000_0000, 1000_0000, 5021_6813_8830_9345, false)
    case 1219 => Power(552_1397_0774_3245_1030, 612, 612, 306, 0x80_0000_0000, 1_0000_0000, 1004_3362_7766_1869, false)
    case 1220 => Power(552_1397_0774_3245_1030, 612, 612, 306, 0x40_0000_0000, 1_0000_0000, 2008_6725_5532_3738, false)
    case 1221 => Power(552_1397_0774_3245_1030, 612, 612, 306, 0x20_0000_0000, 1_0000_0000, 4017_3451_1064_7476, false)
    case 1222 => Power(552_1397_0774_3245_1030, 612, 612, 306, 0x10_0000_0000, 1_0000_0000, 8034_6902_2129_4951, false)
    case 1223 => Power(552_1397_0774_3245_1030, 612, 612, 306, 0x8_0000_0000, 1_0000_0000, 1_6069_3804_4258_9903, false)
    case _ => Power(552_1397_0774_3245_1030, 612, 612, 306, 0x4_0000_0000, 1_0000_0000, 3_2138_7608_8517_9806, false)
  }

  lemma Settled37(be: nat)
    requires 1198 <= be < 1225
    ensures Settled(be, Misread(be))
  {
    hide HalfUlp, Serves, Normalized, Pow, PowerOfTen, Refuted, Candidate, Row, Settled;
    assert Entry(37) == DiyFp(0x993f_e2c6_d07b_7fac, -236)
        && !OtherBounds(0x993f_e2c6_d07b_7fac, 552_1397_0774_3245_1030, 612, 612, 306);
    hide OtherBounds, Entry;
    PowersOfTwoThatOccur();
    PowersOfTenThatOccur();
    RowsHold();
    var row := if be < 1207 then Rows1198(be) else if be < 1216 then Rows1207(be) else Rows1216(be);
    assert Row(552_1397_0774_3245_1030, 612, 612, 306, Pow(2, 1258 - be), Misread(be));
    hide Misread;
    Settle(be, 37, 1198, 1225, 552_1397_0774_3245_1030, 612, 612, 306, Misread(be));
  }

  function Rows1225(be: int): bool {
    match be
    case 1225 => Power(741_0693_7111_8823_6507, 822, 822, 411, 0x1000_0000_0000_0000, 10, 6427_7521_7703_5961, false)
    case 1226 => Power(741_0693_7111_8823_6507, 822, 822, 411, 0x800_0000_0000_0000, 10, 1_2855_5043_5407_1922, false)
    case 1227 => Power(741_0693_7111_8823_6507, 822, 822, 411, 0x400_0000_0000_0000, 10, 2_5711_0087_0814_3844, false)
    case 1228 => Power(741_0693_7111_8823_6507, 822, 822, 411, 0x200_0000_0000_0000, 100, 5142_2017_4162_8769, false)
    case 1229 => Power(741_0693_7111_8823_6507, 822, 822, 411, 0x100_0000_0000_0000, 100, 1_0284_4034_8325_7538, false)
    case 1230 => Power(741_0693_7111_8823_6507, 822, 822, 411, 0x80_0000_0000_0000, 100, 2_0568_8069_6651_5076, false)
    case 1231 => Power(741_0693_7111_8823_6507, 822, 822, 411, 0x40_0000_0000_0000, 1000, 4113_7613_9330_3015, false)
    case 1232 => Power(741_0693_7111_8823_6507, 822, 822, 411, 0x20_0000_0000_0000, 1_0000, 822_7522_7866_0603, false)
    case _ => Power(741_0693_7111_8823_6507, 822, 822, 411, 0x10_0000_0000_0000, 1_0000, 1645_5045_5732_1206, false)
  }

  function Rows1234(be: int): bool {
    match be
    case 1234 => Power(741_0693_7111_8823_6507, 822, 822, 411, 0x8_0000_0000_0000, 1_0000, 3291_0091_1464_2412, false)
    case 1235 => Power(741_0693_7111_8823_6507, 822, 822, 411, 0x4_0000_0000_0000, 1_0000, 6582_0182_2928_4824, false)
    case 1236 => Power(741_0693_7111_8823_6507, 822, 822, 411, 0x2_0000_0000_0000, 1_0000, 1_3164_0364_5856_9648, false)
    case 1237 => Power(741_0693_7111_8823_6507, 822, 822, 411, 0x1_0000_0000_0000, 1_0000, 2_6328_0729_1713_9297, false)
    case 1238 => Power(741_0693_7111_8823_6507, 822, 822, 411, 0x8000_0000_0000, 10_0000, 5265_6145_8342_7859, true)
    case 1239 => Power(741_0693_7111_8823_6507, 822, 822, 411, 0x4000_0000_0000, 10_0000, 1_0531_2291_6685_5719, false)
    case 1240 => Power(741_0693_7111_8823_6507, 822, 822, 411, 0x2000_0000_0000, 10_0000, 2_1062_4583_3371_1437, false)
    case 1241 => Power(741_0693_7111_8823_6507, 822, 822, 411, 0x1000_0000_0000, 10_0000, 4_2124_9166_6742_2875, false)
    case _ => Power(741_0693_7111_8823_6507, 822, 822, 411, 0x800_0000_0000, 100_0000, 8424_9833_3348_4575, false)
  }

  function Rows1243(be: int): bool {
    match be
    case 1243 => Power(741_0693_7111_8823_6507, 822, 822, 411, 0x400_0000_0000, 1000_0000, 1684_9966_6669_6915, false)
    case 1244 => Power(741_0693_7111_8823_6507, 822, 822, 411, 0x200_0000_0000, 1_0000_0000, 336_9993_3333_9383, false)
    case 1245 => Power(741_0693_7111_8823_6507, 822, 822, 411, 0x100_0000_0000, 1_0000_0000, 673_9986_6667_8766, false)
    case 1246 => Power(741_0693_7111_8823_6507, 822, 822, 411, 0x80_0000_0000, 1_0000_0000, 1347_9973_3335_7532, false)
    case 1247 => Power(741_0693_7111_8823_6507, 822, 822, 411, 0x40_0000_0000, 1_0000_0000, 2695_9946_6671_5064, false)
    case 1248 => Power(741_0693_7111_8823_6507, 822, 822, 411, 0x20_0000_0000, 1_0000_0000, 5391_9893_3343_0128, false)
    case 1249 =>
      Power(741_0693_7111_8823_6507, 822, 822, 411, 0x10_0000_0000, 1_0000_0000, 1_0783_9786_6686_0256, false)
    case _ => Power(741_0693_7111_8823_6507, 822, 822, 411, 0x8_0000_0000, 10_0000_0000, 2156_7957_3337_2051, true)
  }

  lemma Settled36(be: nat)
    requires 1225 <= be < 1251
    ensures Settled(be, Misread(be))
  {
    hide HalfUlp, Serves, Normalized, Pow, PowerOfTen, Refuted, Candidate, Row, Settled;
    assert Entry(36) == DiyFp(0xcdb0_2555_6531_31b6, -263)
        && !OtherBounds(0xcdb0_2555_6531_31b6, 741_0693_7111_8823_6507, 822, 822, 411);
    hide OtherBounds, Entry;
    PowersOfTwoThatOccur();
    PowersOfTenThatOccur();
    RowsHold();
    var row := if be < 1234 then Rows1225(be) else if be < 1243 then Rows1234(be) else Rows1243(be);
    assert Row(741_0693_7111_8823_6507, 822, 822, 411, Pow(2, 1285 - be), Misread(be));
    hide Misread;
    Settle(be, 36, 1225, 1251, 741_0693_7111_8823_6507, 822, 822, 411, Misread(be));
  }

  function Rows1251(be: int): bool {
    match be
    case 1251 => Power(497_3232_3640_9786_6422, 552, 551, 277, 0x1000_0000_0000_0000, 10, 4313_5914_6674_4102, true)
    case 1252 => Power(497_3232_3640_9786_6422, 552, 551, 277, 0x800_0000_0000_0000, 10, 8627_1829_3348_8205, false)
    case 1253 => Power(497_3232_3640_9786_6422, 552, 551, 277, 0x400_0000_0000_0000, 100, 1725_4365_8669_7641, false)
    case 1254 => Power(497_3232_3640_9786_6422, 552, 551, 277, 0x200_0000_0000_0000, 100, 3450_8731_7339_5282, false)
    case 1255 => Power(497_3232_3640_9786_6422, 552, 551, 277, 0x100_0000_0000_0000, 100, 6901_7463_4679_0564, false)
    case 1256 => Power(497_3232_3640_9786_6422, 552, 551, 277, 0x80_0000_0000_0000, 100, 1_3803_4926_9358_1128, false)
    case 1257 => Power(497_3232_3640_9786_6422, 552, 551, 277, 0x40_0000_0000_0000, 100, 2_7606_9853_8716_2255, false)
    case 1258 => Power(497_3232_3640_9786_6422, 552, 551, 277, 0x20_0000_0000_0000, 1000, 5521_3970_7743_2451, false)
    case _ => Power(497_3232_3640_9786_6422, 552, 551, 277, 0x10_0000_0000_0000, 1000, 1_1042_7941_5486_4902, false)
  }

  function Rows1260(be: int): bool {
    match be
    case 1260 => Power(497_3232_3640_9786_6422, 552, 551, 277, 0x8_0000_0000_0000, 1000, 2_2085_5883_0972_9804, false)
    case 1261 => Power(497_3232_3640_9786_6422, 552, 551, 277, 0x4_0000_0000_0000, 1_0000, 4417_1176_6194_5961, false)
    case 1262 => Power(497_3232_3640_9786_6422, 552, 551, 277, 0x2_0000_0000_0000, 1_0000, 8834_2353_2389_1922, false)
    case 1263 => Power(497_3232_3640_9786_6422, 552, 551, 277, 0x1_0000_0000_0000, 1_0000, 1_7668_4706_4778_3843, false)
    case 1264 => Power(497_3232_3640_9786_6422, 552, 551, 277, 0x8000_0000_0000, 10_0000, 3533_6941_2955_6769, false)
    case 1265 => Power(497_3232_3640_9786_6422, 552, 551, 277, 0x4000_0000_0000, 10_0000, 7067_3882_5911_3537, false)
    case 1266 => Power(497_3232_3640_9786_6422, 552, 551, 277, 0x2000_0000_0000, 10_0000, 1_4134_7765_1822_7075, false)
    case 1267 => Power(497_3232_3640_9786_6422, 552, 551, 277, 0x1000_0000_0000, 100_0000, 2826_9553_0364_5415, false)
    case _ => Power(497_3232_3640_9786_6422, 552, 551, 277, 0x800_0000_0000, 1000_0000, 565_3910_6072_9083, false)
  }

  function Rows1269(be: int): bool {
    match be
    case 1269 => Power(497_3232_3640_9786_6422, 552, 551, 277, 0x400_0000_0000, 1000_0000, 1130_7821_2145_8166, false)
    case 1270 => Power(497_3232_3640_9786_6422, 552, 551, 277, 0x200_0000_0000, 1000_0000, 2261_5642_4291_6332, false)
    case 1271 => Power(497_3232_3640_9786_6422, 552, 551, 277, 0x100_0000_0000, 1000_0000, 4523_1284_8583_2664, false)
    case 1272 => Power(497_3232_3640_9786_6422, 552, 551, 277, 0x80_0000_0000, 1000_0000, 9046_2569_7166_5328, false)
    case 1273 => Power(497_3232_3640_9786_6422, 552, 551, 277, 0x40_0000_0000, 1000_0000, 1_8092_5139_4333_0656, false)
    case 1274 => Power(497_3232_3640_9786_6422, 552, 551, 277, 0x20_0000_0000, 1_0000_0000, 3618_5027_8866_6131, false)
    case 1275 => Power(497_3232_3640_9786_6422, 552, 551, 277, 0x10_0000_0000, 1_0000_0000, 7237_0055_7733_2262, false)
    case 1276 => Power(497_3232_3640_9786_6422, 552, 551, 277, 0x8_0000_0000, 1_0000_0000, 1_4474_0111_5466_4524, false)
    case _ => Power(497_3232_3640_9786_6422, 552, 551, 277, 0x4_0000_0000, 10_0000_0000, 2894_8022_3093_2905, false)
  }

  lemma Settled35(be: nat)
    requires 1251 <= be < 1278
    ensures Settled(be, Misread(be))
  {
    hide HalfUlp, Serves, Normalized, Pow, PowerOfTen, Refuted, Candidate, Row, Settled;
    assert Entry(35) == DiyFp(0x8a08_f0f8_bf0f_156b, -289)
        && !OtherBounds(0x8a08_f0f8_bf0f_156b, 497_3232_3640_9786_6422, 552, 551, 277);
    hide OtherBounds, Entry;
    PowersOfTwoThatOccur();
    PowersOfTenThatOccur();
    RowsHold();
    var row := if be < 1260 then Rows1251(be) else if be < 1269 then Rows1260(be) else Rows1269(be);
    assert Row(497_3232_3640_9786_6422, 552, 551, 277, Pow(2, 1311 - be), Misread(be));
    hide Misread;
    Settle(be, 35, 1251, 1278, 497_3232_3640_9786_6422, 552, 551, 277, Misread(be));
  }

  function Rows1278(be: int): bool {
    match be
    case 1278 => Power(667_4959_4872_5284_4008, 741, 740, 371, 0x1000_0000_0000_0000, 100, 578_9604_4618_6581, false)
    case 1279 => Power(667_4959_4872_5284_4008, 741, 740, 371, 0x800_0000_0000_0000, 100, 1157_9208_9237_3162, false)
    case 1280 => Power(667_4959_4872_5284_4008, 741, 740, 371, 0x400_0000_0000_0000, 100, 2315_8417_8474_6324, false)
    case 1281 => Power(667_4959_4872_5284_4008, 741, 740, 371, 0x200_0000_0000_0000, 100, 4631_6835_6949_2648, false)
    case 1282 => Power(667_4959_4872_5284_4008, 741, 740, 371, 0x100_0000_0000_0000, 100, 9263_3671_3898_5296, false)
    case 1283 => Power(667_4959_4872_5284_4008, 741, 740, 371, 0x80_0000_0000_0000, 1000, 1852_6734_2779_7059, true)
    case 1284 => Power(667_4959_4872_5284_4008, 741, 740, 371, 0x40_0000_0000_0000, 1000, 3705_3468_5559_4118, true)
    case 1285 => Power(667_4959_4872_5284_4008, 741, 740, 371, 0x20_0000_0000_0000, 1000, 7410_6937_1118_8237, false)
    case _ => Power(667_4959_4872_5284_4008, 741, 740, 371, 0x10_0000_0000_0000, 1000, 1_4821_3874_2237_6473, false)
  }

  function Rows1287(be: int): bool {
    match be
    case 1287 => Power(667_4959_4872_5284_4008, 741, 740, 371, 0x8_0000_0000_0000, 1000, 2_9642_7748_4475_2946, false)
    case 1288 => Power(667_4959_4872_5284_4008, 741, 740, 371, 0x4_0000_0000_0000, 1_0000, 5928_5549_6895_0589, false)
    case 1289 => Power(667_4959_4872_5284_4008, 741, 740, 371, 0x2_0000_0000_0000, 1_0000, 1_1857_1099_3790_1178, false)
    case 1290 => Power(667_4959_4872_5284_4008, 741, 740, 371, 0x1_0000_0000_0000, 1_0000, 2_3714_2198_7580_2357, false)
    case 1291 => Power(667_4959_4872_5284_4008, 741, 740, 371, 0x8000_0000_0000, 10_0000, 4742_8439_7516_0471, true)
    case 1292 => Power(667_4959_4872_5284_4008, 741, 740, 371, 0x4000_0000_0000, 10_0000, 9485_6879_5032_0943, false)
    case 1293 => Power(667_4959_4872_5284_4008, 741, 740, 371, 0x2000_0000_0000, 10_0000, 1_8971_3759_0064_1885, false)
    case 1294 => Power(667_4959_4872_5284_4008, 741, 740, 371, 0x1000_0000_0000, 100_0000, 3794_2751_8012_8377, false)
    case _ => Power(667_4959_4872_5284_4008, 741, 740, 371, 0x800_0000_0000, 100_0000, 7588_5503_6025_6754, false)
  }

  function Rows1296(be: int): bool {
    match be
    case 1296 => Power(667_4959_4872_5284_4008, 741, 740, 371, 0x400_0000_0000, 1000_0000, 1517_7100_7205_1351, false)
    case 1297 => Power(667_4959_4872_5284_4008, 741, 740, 371, 0x200_0000_0000, 1000_0000, 3035_4201_4410_2702, false)
    case 1298 => Power(667_4959_4872_5284_4008, 741, 740, 371, 0x100_0000_0000, 1000_0000, 6070_8402_8820_5403, true)
    case 1299 => Power(667_4959_4872_5284_4008, 741, 740, 371, 0x80_0000_0000, 1000_0000, 1_2141_6805_7641_0807, false)
    case 1300 => Power(667_4959_4872_5284_4008, 741, 740, 371, 0x40_0000_0000, 1000_0000, 2_4283_3611_5282_1613, false)
    case 1301 => Power(667_4959_4872_5284_4008, 741, 740, 371, 0x20_0000_0000, 1_0000_0000, 4856_6722_3056_4323, false)
    case 1302 => Power(667_4959_4872_5284_4008, 741, 740, 371, 0x10_0000_0000, 1_0000_0000, 9713_3444_6112_8645, false)
    case 1303 => Power(667_4959_4872_5284_4008, 741, 740, 371, 0x8_0000_0000, 10_0000_0000, 1942_6688_9222_5729, false)
    case _ => Power(667_4959_4872_5284_4008, 741, 740, 371, 0x4_0000_0000, 10_0000_0000, 3885_3377_8445_1458, false)
  }

  lemma Settled34(be: nat)
    requires 1278 <= be < 1305
    ensures Settled(be, Misread(be))
  {
    hide HalfUlp, Serves, Normalized, Pow, PowerOfTen, Refuted, Candidate, Row, Settled;
    assert Entry(34) == DiyFp(0xb944_7093_8fa8_9bcf, -316)
        && !OtherBounds(0xb944_7093_8fa8_9bcf, 667_4959_4872_5284_4008, 741, 740, 371);
    hide OtherBounds, Entry;
    PowersOfTwoThatOccur();
    PowersOfTenThatOccur();
    RowsHold();
    var row := if be < 1287 then Rows1278(be) else if be < 1296 then Rows1287(be) else Rows1296(be);
    assert Row(667_4959_4872_5284_4008, 741, 740, 371, Pow(2, 1338 - be), Misread(be));
    hide Misread;
    Settle(be, 34, 1278, 1305, 667_4959_4872_5284_4008, 741, 740, 371, Misread(be));
  }

  function Rows1305(be: int): bool {
    match be
    case 1305 => Power(895_8978_9687_1121_6842, 994, 994, 497, 0x1000_0000_0000_0000, 10, 7770_6755_6890_2916, false)
    case 1306 => Power(895_8978_9687_1121_6842, 994, 994, 497, 0x800_0000_0000_0000, 10, 1_5541_3511_3780_5833, false)
    case 1307 => Power(895_8978_9687_1121_6842, 994, 994, 497, 0x400_0000_0000_0000, 10, 3_1082_7022_7561_1665, false)
    case 1308 => Power(895_8978_9687_1121_6842, 994, 994, 497, 0x200_0000_0000_0000, 100, 6216_5404_5512_2333, false)
    case 1309 => Power(895_8978_9687_1121_6842, 994, 994, 497, 0x100_0000_0000_0000, 100, 1_2433_0809_1024_4666, false)
    case 1310 => Power(895_8978_9687_1121_6842, 994, 994, 497, 0x80_0000_0000_0000, 1000, 2486_6161_8204_8933, true)
    case 1311 => Power(895_8978_9687_1121_6842, 994, 994, 497, 0x40_0000_0000_0000, 1000, 4973_2323_6409_7866, true)
    case 1312 => Power(895_8978_9687_1121_6842, 994, 994, 497, 0x20_0000_0000_0000, 1000, 9946_4647_2819_5733, false)
    case _ => Power(895_8978_9687_1121_6842, 994, 994, 497, 0x10_0000_0000_0000, 1000, 1_9892_9294_5639_1466, false)
  }

  function Rows1314(be: int): bool {
    match be
    case 1314 => Power(895_8978_9687_1121_6842, 994, 994, 497, 0x8_0000_0000_0000, 1_0000, 3978_5858_9127_8293, false)
    case 1315 => Power(895_8978_9687_1121_6842, 994, 994, 497, 0x4_0000_0000_0000, 1_0000, 7957_1717_8255_6586, false)
    case 1316 => Power(895_8978_9687_1121_6842, 994, 994, 497, 0x2_0000_0000_0000, 1_0000, 1_5914_3435_6511_3173, false)
    case 1317 => Power(895_8978_9687_1121_6842, 994, 994, 497, 0x1_0000_0000_0000, 1_0000, 3_1828_6871_3022_6345, false)
    case 1318 => Power(895_8978_9687_1121_6842, 994, 994, 497, 0x8000_0000_0000, 10_0000, 6365_7374_2604_5269, false)
    case 1319 => Power(895_8978_9687_1121_6842, 994, 994, 497, 0x4000_0000_0000, 10_0000, 1_2731_4748_5209_0538, false)
    case 1320 => Power(895_8978_9687_1121_6842, 994, 994, 497, 0x2000_0000_0000, 10_0000, 2_5462_9497_0418_1076, false)
    case 1321 => Power(895_8978_9687_1121_6842, 994, 994, 497, 0x1000_0000_0000, 100_0000, 5092_5899_4083_6215, false)
    case _ => Power(895_8978_9687_1121_6842, 994, 994, 497, 0x800_0000_0000, 1000_0000, 1018_5179_8816_7243, false)
  }

  function Rows1323(be: int): bool {
    match be
    case 1323 => Power(895_8978_9687_1121_6842, 994, 994, 497, 0x400_0000_0000, 1000_0000, 2037_0359_7633_4486, false)
    case 1324 => Power(895_8978_9687_1121_6842, 994, 994, 497, 0x200_0000_0000, 1000_0000, 4074_0719_5266_8972, false)
    case 1325 => Power(895_8978_9687_1121_6842, 994, 994, 497, 0x100_0000_0000, 1000_0000, 8148_1439_0533_7944, false)
    case 1326 => Power(895_8978_9687_1121_6842, 994, 994, 497, 0x80_0000_0000, 1_0000_0000, 1629_6287_8106_7589, false)
    case 1327 => Power(895_8978_9687_1121_6842, 994, 994, 497, 0x40_0000_0000, 1_0000_0000, 3259_2575_6213_5178, false)
    case 1328 => Power(895_8978_9687_1121_6842, 994, 994, 497, 0x20_0000_0000, 1_0000_0000, 6518_5151_2427_0355, true)
    case 1329 => Power(895_8978_9687_1121_6842, 994, 994, 497, 0x10_0000_0000, 10_0000_0000, 1303_7030_2485_4071, true)
    case _ => Power(895_8978_9687_1121_6842, 994, 994, 497, 0x8_0000_0000, 10_0000_0000, 2607_4060_4970_8142, true)
  }

  lemma Settled33(be: nat)
    requires 1305 <= be < 1331
    ensures Settled(be, Misread(be))
  {
    hide HalfUlp, Serves, Normalized, Pow, PowerOfTen, Refuted, Candidate, Row, Settled;
    assert Entry(33) == DiyFp(0xf8a9_5fcf_8874_7d94, -343)
        && !OtherBounds(0xf8a9_5fcf_8874_7d94, 895_8978_9687_1121_6842, 994, 994, 497);
    hide OtherBounds, Entry;
    PowersOfTwoThatOccur();
    PowersOfTenThatOccur();
    RowsHold();
    var row := if be < 1314 then Rows1305(be) else if be < 1323 then Rows1314(be) else Rows1323(be);
    assert Row(895_8978_9687_1121_6842, 994, 994, 497, Pow(2, 1365 - be), Misread(be));
    hide Misread;
    Settle(be, 33, 1305, 1331, 895_8978_9687_1121_6842, 994, 994, 497, Misread(be));
  }

  function Rows1331(be: int): bool {
    match be
    case 1331 => Power(601_2269_0119_0101_3064, 667, 666, 334, 0x1000_0000_0000_0000, 10, 5214_8120_9941_6284, true)
    case 1332 => Power(601_2269_0119_0101_3064, 667, 666, 334, 0x800_0000_0000_0000, 10, 1_0429_6241_9883_2569, false)
    case 1333 => Power(601_2269_0119_0101_3064, 667, 666, 334, 0x400_0000_0000_0000, 10, 2_0859_2483_9766_5138, false)
    case 1334 => Power(601_2269_0119_0101_3064, 667, 666, 334, 0x200_0000_0000_0000, 10, 4_1718_4967_9533_0275, false)
    case 1335 => Power(601_2269_0119_0101_3064, 667, 666, 334, 0x100_0000_0000_0000, 100, 8343_6993_5906_6055, false)
    case 1336 => Power(601_2269_0119_0101_3064, 667, 666, 334, 0x80_0000_0000_0000, 1000, 1668_7398_7181_3211, false)
    case 1337 => Power(601_2269_0119_0101_3064, 667, 666, 334, 0x40_0000_0000_0000, 1000, 3337_4797_4362_6422, false)
    case 1338 => Power(601_2269_0119_0101_3064, 667, 666, 334, 0x20_0000_0000_0000, 1000, 6674_9594_8725_2844, false)
    case _ => Power(601_2269_0119_0101_3064, 667, 666, 334, 0x10_0000_0000_0000, 1000, 1_3349_9189_7450_5688, false)
  }

  function Rows1340(be: int): bool {
    match be
    case 1340 => Power(601_2269_0119_0101_3064, 667, 666, 334, 0x8_0000_0000_0000, 1000, 2_6699_8379_4901_1376, false)
    case 1341 => Power(601_2269_0119_0101_3064, 667, 666, 334, 0x4_0000_0000_0000, 1_0000, 5339_9675_8980_2275, false)
    case 1342 => Power(601_2269_0119_0101_3064, 667, 666, 334, 0x2_0000_0000_0000, 10_0000, 1067_9935_1796_0455, false)
    case 1343 => Power(601_2269_0119_0101_3064, 667, 666, 334, 0x1_0000_0000_0000, 100_0000, 213_5987_0359_2091, false)
    case 1344 => Power(601_2269_0119_0101_3064, 667, 666, 334, 0x8000_0000_0000, 100_0000, 427_1974_0718_4182, false)
    case 1345 => Power(601_2269_0119_0101_3064, 667, 666, 334, 0x4000_0000_0000, 100_0000, 854_3948_1436_8364, false)
    case 1346 => Power(601_2269_0119_0101_3064, 667, 666, 334, 0x2000_0000_0000, 100_0000, 1708_7896_2873_6728, false)
    case 1347 => Power(601_2269_0119_0101_3064, 667, 666, 334, 0x1000_0000_0000, 100_0000, 3417_5792_5747_3456, false)
    case _ => Power(601_2269_0119_0101_3064, 667, 666, 334, 0x800_0000_0000, 100_0000, 6835_1585_1494_6912, false)
  }

  function Rows1349(be: int): bool {
    match be
    case 1349 => Power(601_2269_0119_0101_3064, 667, 666, 334, 0x400_0000_0000, 100_0000, 1_3670_3170_2989_3825, false)
    case 1350 => Power(601_2269_0119_0101_3064, 667, 666, 334, 0x200_0000_0000, 1000_0000, 2734_0634_0597_8765, false)
    case 1351 => Power(601_2269_0119_0101_3064, 667, 666, 334, 0x100_0000_0000, 1_0000_0000, 546_8126_8119_5753, false)
    case 1352 => Power(601_2269_0119_0101_3064, 667, 666, 334, 0x80_0000_0000, 1_0000_0000, 1093_6253_6239_1506, false)
    case 1353 => Power(601_2269_0119_0101_3064, 667, 666, 334, 0x40_0000_0000, 1_0000_0000, 2187_2507_2478_3012, false)
    case 1354 => Power(601_2269_0119_0101_3064, 667, 666, 334, 0x20_0000_0000, 1_0000_0000, 4374_5014_4956_6024, false)
    case 1355 => Power(601_2269_0119_0101_3064, 667, 666, 334, 0x10_0000_0000, 1_0000_0000, 8749_0028_9913_2048, false)
    case 1356 => Power(601_2269_0119_0101_3064, 667, 666, 334, 0x8_0000_0000, 1_0000_0000, 1_7498_0057_9826_4095, false)
    case _ => Power(601_2269_0119_0101_3064, 667, 666, 334, 0x4_0000_0000, 10_0000_0000, 3499_6011_5965_2819, false)
  }

  lemma Settled32(be: nat)
    requires 1331 <= be < 1358
    ensures Settled(be, Misread(be))
  {
    hide HalfUlp, Serves, Normalized, Pow, PowerOfTen, Refuted, Candidate, Row, Settled;
    assert Entry(32) == DiyFp(0xa6df_bd9f_b8e5_b88f, -369)
        && !OtherBounds(0xa6df_bd9f_b8e5_b88f, 601_2269_0119_0101_3064, 667, 666, 334);
    hide OtherBounds, Entry;
    PowersOfTwoThatOccur();
    PowersOfTenThatOccur();
    RowsHold();
    var row := if be < 1340 then Rows1331(be) else if be < 1349 then Rows1340(be) else Rows1349(be);
    assert Row(601_2269_0119_0101_3064, 667, 666, 334, Pow(2, 1391 - be), Misread(be));
    hide Misread;
    Settle(be, 32, 1331, 1358, 601_2269_0119_0101_3064, 667, 666, 334, Misread(be));
  }

  function Rows1358(be: int): bool {
    match be
    case 1358 => Power(806_9530_8690_2158_9343, 895, 894, 448, 0x1000_0000_0000_0000, 10, 6999_2023_1930_5638, false)
    case 1359 => Power(806_9530_8690_2158_9343, 895, 894, 448, 0x800_0000_0000_0000, 10, 1_3998_4046_3861_1276, false)
    case 1360 => Power(806_9530_8690_2158_9343, 895, 894, 448, 0x400_0000_0000_0000, 100, 2799_6809_2772_2255, true)
    case 1361 => Power(806_9530_8690_2158_9343, 895, 894, 448, 0x200_0000_0000_0000, 1000, 559_9361_8554_4451, true)
    case 1362 => Power(806_9530_8690_2158_9343, 895, 894, 448, 0x100_0000_0000_0000, 1000, 1119_8723_7108_8902, true)
    case 1363 => Power(806_9530_8690_2158_9343, 895, 894, 448, 0x80_0000_0000_0000, 1000, 2239_7447_4217_7804, true)
    case 1364 => Power(806_9530_8690_2158_9343, 895, 894, 448, 0x40_0000_0000_0000, 1000, 4479_4894_8435_5608, true)
    case 1365 => Power(806_9530_8690_2158_9343, 895, 894, 448, 0x20_0000_0000_0000, 1000, 8958_9789_6871_1217, false)
    case _ => Power(806_9530_8690_2158_9343, 895, 894, 448, 0x10_0000_0000_0000, 1000, 1_7917_9579_3742_2434, false)
  }

  function Rows1367(be: int): bool {
    match be
    case 1367 => Power(806_9530_8690_2158_9343, 895, 894, 448, 0x8_0000_0000_0000, 1_0000, 3583_5915_8748_4487, false)
    case 1368 => Power(806_9530_8690_2158_9343, 895, 894, 448, 0x4_0000_0000_0000, 1_0000, 7167_1831_7496_8973, true)
    case 1369 => Power(806_9530_8690_2158_9343, 895, 894, 448, 0x2_0000_0000_0000, 1_0000, 1_4334_3663_4993_7947, false)
    case 1370 => Power(806_9530_8690_2158_9343, 895, 894, 448, 0x1_0000_0000_0000, 1_0000, 2_8668_7326_9987_5894, false)
    case 1371 => Power(806_9530_8690_2158_9343, 895, 894, 448, 0x8000_0000_0000, 10_0000, 5733_7465_3997_5179, false)
    case 1372 => Power(806_9530_8690_2158_9343, 895, 894, 448, 0x4000_0000_0000, 10_0000, 1_1467_4930_7995_0358, false)
    case 1373 => Power(806_9530_8690_2158_9343, 895, 894, 448, 0x2000_0000_0000, 10_0000, 2_2934_9861_5990_0715, false)
    case 1374 => Power(806_9530_8690_2158_9343, 895, 894, 448, 0x1000_0000_0000, 100_0000, 4586_9972_3198_0143, false)
    case _ => Power(806_9530_8690_2158_9343, 895, 894, 448, 0x800_0000_0000, 100_0000, 9173_9944_6396_0286, false)
  }

  function Rows1376(be: int): bool {
    match be
    case 1376 => Power(806_9530_8690_2158_9343, 895, 894, 448, 0x400_0000_0000, 100_0000, 1_8347_9889_2792_0572, false)
    case 1377 => Power(806_9530_8690_2158_9343, 895, 894, 448, 0x200_0000_0000, 100_0000, 3_6695_9778_5584_1144, false)
    case 1378 => Power(806_9530_8690_2158_9343, 895, 894, 448, 0x100_0000_0000, 1000_0000, 7339_1955_7116_8229, false)
    case 1379 => Power(806_9530_8690_2158_9343, 895, 894, 448, 0x80_0000_0000, 1000_0000, 1_4678_3911_4233_6458, false)
    case 1380 => Power(806_9530_8690_2158_9343, 895, 894, 448, 0x40_0000_0000, 1000_0000, 2_9356_7822_8467_2915, false)
    case 1381 => Power(806_9530_8690_2158_9343, 895, 894, 448, 0x20_0000_0000, 1_0000_0000, 5871_3564_5693_4583, false)
    case 1382 =>
      Power(806_9530_8690_2158_9343, 895, 894, 448, 0x10_0000_0000, 1_0000_0000, 1_1742_7129_1386_9166, false)
    case _ => Power(806_9530_8690_2158_9343, 895, 894, 448, 0x8_0000_0000, 10_0000_0000, 2348_5425_8277_3833, true)
  }

  lemma Settled31(be: nat)
    requires 1358 <= be < 1384
    ensures Settled(be, Misread(be))
  {
    hide HalfUlp, Serves, Normalized, Pow, PowerOfTen, Refuted, Candidate, Row, Settled;
    assert Entry(31) == DiyFp(0xdff9_7724_7029_7ebd, -396)
        && !OtherBounds(0xdff9_7724_7029_7ebd, 806_9530_8690_2158_9343, 895, 894, 448);
    hide OtherBounds, Entry;
    PowersOfTwoThatOccur();
    PowersOfTenThatOccur();
    RowsHold();
    var row := if be < 1367 then Rows1358(be) else if be < 1376 then Rows1367(be) else Rows1376(be);
    assert Row(806_9530_8690_2158_9343, 895, 894, 448, Pow(2, 1418 - be), Misread(be));
    hide Misread;
    Settle(be, 31, 1358, 1384, 806_9530_8690_2158_9343, 895, 894, 448, Misread(be));
  }

  function Rows1384(be: int): bool {
    match be
    case 1384 => Power(541_5370_4963_2971_6523, 601, 600, 301, 0x1000_0000_0000_0000, 10, 4697_0851_6554_7666, true)
    case 1385 => Power(541_5370_4963_2971_6523, 601, 600, 301, 0x800_0000_0000_0000, 10, 9394_1703_3109_5333, false)
    case 1386 => Power(541_5370_4963_2971_6523, 601, 600, 301, 0x400_0000_0000_0000, 10, 1_8788_3406_6219_0666, false)
    case 1387 => Power(541_5370_4963_2971_6523, 601, 600, 301, 0x200_0000_0000_0000, 100, 3757_6681_3243_8133, false)
    case 1388 => Power(541_5370_4963_2971_6523, 601, 600, 301, 0x100_0000_0000_0000, 100, 7515_3362_6487_6266, false)
    case 1389 => Power(541_5370_4963_2971_6523, 601, 600, 301, 0x80_0000_0000_0000, 100, 1_5030_6725_2975_2533, false)
    case 1390 => Power(541_5370_4963_2971_6523, 601, 600, 301, 0x40_0000_0000_0000, 100, 3_0061_3450_5950_5065, false)
    case 1391 => Power(541_5370_4963_2971_6523, 601, 600, 301, 0x20_0000_0000_0000, 1000, 6012_2690_1190_1013, false)
    case _ => Power(541_5370_4963_2971_6523, 601, 600, 301, 0x10_0000_0000_0000, 1000, 1_2024_5380_2380_2026, false)
  }

  function Rows1393(be: int): bool {
    match be
    case 1393 => Power(541_5370_4963_2971_6523, 601, 600, 301, 0x8_0000_0000_0000, 1_0000, 2404_9076_0476_0405, true)
    case 1394 => Power(541_5370_4963_2971_6523, 601, 600, 301, 0x4_0000_0000_0000, 10_0000, 480_9815_2095_2081, true)
    case 1395 => Power(541_5370_4963_2971_6523, 601, 600, 301, 0x2_0000_0000_0000, 10_0000, 961_9630_4190_4162, true)
    case 1396 => Power(541_5370_4963_2971_6523, 601, 600, 301, 0x1_0000_0000_0000, 10_0000, 1923_9260_8380_8324, true)
    case 1397 => Power(541_5370_4963_2971_6523, 601, 600, 301, 0x8000_0000_0000, 10_0000, 3847_8521_6761_6648, true)
    case 1398 => Power(541_5370_4963_2971_6523, 601, 600, 301, 0x4000_0000_0000, 10_0000, 7695_7043_3523_3297, false)
    case 1399 => Power(541_5370_4963_2971_6523, 601, 600, 301, 0x2000_0000_0000, 10_0000, 1_5391_4086_7046_6593, false)
    case 1400 => Power(541_5370_4963_2971_6523, 601, 600, 301, 0x1000_0000_0000, 100_0000, 3078_2817_3409_3319, false)
    case _ => Power(541_5370_4963_2971_6523, 601, 600, 301, 0x800_0000_0000, 100_0000, 6156_5634_6818_6637, true)
  }

  function Rows1402(be: int): bool {
    match be
    case 1402 => Power(541_5370_4963_2971_6523, 601, 600, 301, 0x400_0000_0000, 100_0000, 1_2313_1269_3637_3275, false)
    case 1403 => Power(541_5370_4963_2971_6523, 601, 600, 301, 0x200_0000_0000, 1000_0000, 2462_6253_8727_4655, false)
    case 1404 => Power(541_5370_4963_2971_6523, 601, 600, 301, 0x100_0000_0000, 1_0000_0000, 492_5250_7745_4931, false)
    case 1405 => Power(541_5370_4963_2971_6523, 601, 600, 301, 0x80_0000_0000, 1_0000_0000, 985_0501_5490_9862, false)
    case 1406 => Power(541_5370_4963_2971_6523, 601, 600, 301, 0x40_0000_0000, 1_0000_0000, 1970_1003_0981_9724, false)
    case 1407 => Power(541_5370_4963_2971_6523, 601, 600, 301, 0x20_0000_0000, 1_0000_0000, 3940_2006_1963_9448, false)
    case 1408 => Power(541_5370_4963_2971_6523, 601, 600, 301, 0x10_0000_0000, 1_0000_0000, 7880_4012_3927_8896, false)
    case 1409 => Power(541_5370_4963_2971_6523, 601, 600, 301, 0x8_0000_0000, 10_0000_0000, 1576_0802_4785_5779, true)
    case _ => Power(541_5370_4963_2971_6523, 601, 600, 301, 0x4_0000_0000, 10_0000_0000, 3152_1604_9571_1558, true)
  }

  lemma Settled30(be: nat)
    requires 1384 <= be < 1411
    ensures Settled(be, Misread(be))
  {
    hide HalfUlp, Serves, Normalized, Pow, PowerOfTen, Refuted, Candidate, Row, Settled;
    assert Entry(30) == DiyFp(0x964e_858c_91ba_2655, -422)
        && !OtherBounds(0x964e_858c_91ba_2655, 541_5370_4963_2971_6523, 601, 600, 301);
    hide OtherBounds, Entry;
    PowersOfTwoThatOccur();
    PowersOfTenThatOccur();
    RowsHold();
    var row := if be < 1393 then Rows1384(be) else if be < 1402 then Rows1393(be) else Rows1402(be);
    assert Row(541_5370_4963_2971_6523, 601, 600, 301, Pow(2, 1444 - be), Misread(be));
    hide Misread;
    Settle(be, 30, 1384, 1411, 541_5370_4963_2971_6523, 601, 600, 301, Misread(be));
  }

  function Rows1411(be: int): bool {
    match be
    case 1411 => Power(726_8387_2429_5606_8906, 806, 805, 404, 0x1000_0000_0000_0000, 10, 6304_3209_9142_3117, false)
    case 1412 => Power(726_8387_2429_5606_8906, 806, 805, 404, 0x800_0000_0000_0000, 10, 1_2608_6419_8284_6233, false)
    case 1413 => Power(726_8387_2429_5606_8906, 806, 805, 404, 0x400_0000_0000_0000, 10, 2_5217_2839_6569_2467, false)
    case 1414 => Power(726_8387_2429_5606_8906, 806, 805, 404, 0x200_0000_0000_0000, 100, 5043_4567_9313_8493, true)
    case 1415 => Power(726_8387_2429_5606_8906, 806, 805, 404, 0x100_0000_0000_0000, 100, 1_0086_9135_8627_6987, false)
    case 1416 => Power(726_8387_2429_5606_8906, 806, 805, 404, 0x80_0000_0000_0000, 100, 2_0173_8271_7255_3973, false)
    case 1417 => Power(726_8387_2429_5606_8906, 806, 805, 404, 0x40_0000_0000_0000, 1000, 4034_7654_3451_0795, false)
    case 1418 => Power(726_8387_2429_5606_8906, 806, 805, 404, 0x20_0000_0000_0000, 1_0000, 806_9530_8690_2159, false)
    case _ => Power(726_8387_2429_5606_8906, 806, 805, 404, 0x10_0000_0000_0000, 1_0000, 1613_9061_7380_4318, false)
  }

  function Rows1420(be: int): bool {
    match be
    case 1420 => Power(726_8387_2429_5606_8906, 806, 805, 404, 0x8_0000_0000_0000, 1_0000, 3227_8123_4760_8636, false)
    case 1421 => Power(726_8387_2429_5606_8906, 806, 805, 404, 0x4_0000_0000_0000, 1_0000, 6455_6246_9521_7271, true)
    case 1422 => Power(726_8387_2429_5606_8906, 806, 805, 404, 0x2_0000_0000_0000, 1_0000, 1_2911_2493_9043_4543, false)
    case 1423 => Power(726_8387_2429_5606_8906, 806, 805, 404, 0x1_0000_0000_0000, 1_0000, 2_5822_4987_8086_9086, false)
    case 1424 => Power(726_8387_2429_5606_8906, 806, 805, 404, 0x8000_0000_0000, 10_0000, 5164_4997_5617_3817, false)
    case 1425 => Power(726_8387_2429_5606_8906, 806, 805, 404, 0x4000_0000_0000, 10_0000, 1_0328_9995_1234_7634, false)
    case 1426 => Power(726_8387_2429_5606_8906, 806, 805, 404, 0x2000_0000_0000, 100_0000, 2065_7999_0246_9527, false)
    case 1427 => Power(726_8387_2429_5606_8906, 806, 805, 404, 0x1000_0000_0000, 100_0000, 4131_5998_0493_9054, false)
    case _ => Power(726_8387_2429_5606_8906, 806, 805, 404, 0x800_0000_0000, 100_0000, 8263_1996_0987_8107, true)
  }

  function Rows1429(be: int): bool {
    match be
    case 1429 => Power(726_8387_2429_5606_8906, 806, 805, 404, 0x400_0000_0000, 100_0000, 1_6526_3992_1975_6215, false)
    case 1430 => Power(726_8387_2429_5606_8906, 806, 805, 404, 0x200_0000_0000, 1000_0000, 3305_2798_4395_1243, false)
    case 1431 => Power(726_8387_2429_5606_8906, 806, 805, 404, 0x100_0000_0000, 1000_0000, 6610_5596_8790_2486, false)
    case 1432 => Power(726_8387_2429_5606_8906, 806, 805, 404, 0x80_0000_0000, 1000_0000, 1_3221_1193_7580_4972, false)
    case 1433 => Power(726_8387_2429_5606_8906, 806, 805, 404, 0x40_0000_0000, 1000_0000, 2_6442_2387_5160_9944, false)
    case 1434 => Power(726_8387_2429_5606_8906, 806, 805, 404, 0x20_0000_0000, 1_0000_0000, 5288_4477_5032_1989, false)
    case 1435 =>
      Power(726_8387_2429_5606_8906, 806, 805, 404, 0x10_0000_0000, 1_0000_0000, 1_0576_8955_0064_3978, false)
    case _ => Power(726_8387_2429_5606_8906, 806, 805, 404, 0x8_0000_0000, 1_0000_0000, 2_1153_7910_0128_7955, false)
  }

  lemma Settled29(be: nat)
    requires 1411 <= be < 1437
    ensures Settled(be, Misread(be))
  {
    hide HalfUlp, Serves, Normalized, Pow, PowerOfTen, Refuted, Candidate, Row, Settled;
    assert Entry(29) == DiyFp(0xc9bc_ff60_34c1_3053, -449)
        && !OtherBounds(0xc9bc_ff60_34c1_3053, 726_8387_2429_5606_8906, 806, 805, 404);
    hide OtherBounds, Entry;
    PowersOfTwoThatOccur();
    PowersOfTenThatOccur();
    RowsHold();
    var row := if be < 1420 then Rows1411(be) else if be < 1429 then Rows1420(be) else Rows1429(be);
    assert Row(726_8387_2429_5606_8906, 806, 805, 404, Pow(2, 1471 - be), Misread(be));
    hide Misread;
    Settle(be, 29, 1411, 1437, 726_8387_2429_5606_8906, 806, 805, 404, Misread(be));
  }

  function Rows1437(be: int): bool {
    match be
    case 1437 => Power(487_7732_1098_6873_7862, 541, 540, 271, 0x1000_0000_0000_0000, 10, 4230_7582_0025_7591, false)
    case 1438 => Power(487_7732_1098_6873_7862, 541, 540, 271, 0x800_0000_0000_0000, 10, 8461_5164_0051_5182, false)
    case 1439 => Power(487_7732_1098_6873_7862, 541, 540, 271, 0x400_0000_0000_0000, 10, 1_6923_0328_0103_0364, false)
    case 1440 => Power(487_7732_1098_6873_7862, 541, 540, 271, 0x200_0000_0000_0000, 100, 3384_6065_6020_6073, false)
    case 1441 => Power(487_7732_1098_6873_7862, 541, 540, 271, 0x100_0000_0000_0000, 100, 6769_2131_2041_2146, false)
    case 1442 => Power(487_7732_1098_6873_7862, 541, 540, 271, 0x80_0000_0000_0000, 1000, 1353_8426_2408_2429, true)
    case 1443 => Power(487_7732_1098_6873_7862, 541, 540, 271, 0x40_0000_0000_0000, 1000, 2707_6852_4816_4858, true)
    case 1444 => Power(487_7732_1098_6873_7862, 541, 540, 271, 0x20_0000_0000_0000, 1000, 5415_3704_9632_9717, false)
    case _ => Power(487_7732_1098_6873_7862, 541, 540, 271, 0x10_0000_0000_0000, 1000, 1_0830_7409_9265_9433, false)
  }

  function Rows1446(be: int): bool {
    match be
    case 1446 => Power(487_7732_1098_6873_7862, 541, 540, 271, 0x8_0000_0000_0000, 1000, 2_1661_4819_8531_8866, false)
    case 1447 => Power(487_7732_1098_6873_7862, 541, 540, 271, 0x4_0000_0000_0000, 1_0000, 4332_2963_9706_3773, false)
    case 1448 => Power(487_7732_1098_6873_7862, 541, 540, 271, 0x2_0000_0000_0000, 1_0000, 8664_5927_9412_7546, false)
    case 1449 => Power(487_7732_1098_6873_7862, 541, 540, 271, 0x1_0000_0000_0000, 1_0000, 1_7329_1855_8825_5093, false)
    case 1450 => Power(487_7732_1098_6873_7862, 541, 540, 271, 0x8000_0000_0000, 1_0000, 3_4658_3711_7651_0186, false)
    case 1451 => Power(487_7732_1098_6873_7862, 541, 540, 271, 0x4000_0000_0000, 10_0000, 6931_6742_3530_2037, false)
    case 1452 => Power(487_7732_1098_6873_7862, 541, 540, 271, 0x2000_0000_0000, 10_0000, 1_3863_3484_7060_4074, false)
    case 1453 => Power(487_7732_1098_6873_7862, 541, 540, 271, 0x1000_0000_0000, 100_0000, 2772_6696_9412_0815, false)
    case _ => Power(487_7732_1098_6873_7862, 541, 540, 271, 0x800_0000_0000, 1000_0000, 554_5339_3882_4163, false)
  }

  function Rows1455(be: int): bool {
    match be
    case 1455 => Power(487_7732_1098_6873_7862, 541, 540, 271, 0x400_0000_0000, 1000_0000, 1109_0678_7764_8326, false)
    case 1456 => Power(487_7732_1098_6873_7862, 541, 540, 271, 0x200_0000_0000, 1000_0000, 2218_1357_5529_6652, false)
    case 1457 => Power(487_7732_1098_6873_7862, 541, 540, 271, 0x100_0000_0000, 1000_0000, 4436_2715_1059_3304, false)
    case 1458 => Power(487_7732_1098_6873_7862, 541, 540, 271, 0x80_0000_0000, 1000_0000, 8872_5430_2118_6608, false)
    case 1459 => Power(487_7732_1098_6873_7862, 541, 540, 271, 0x40_0000_0000, 1000_0000, 1_7745_0860_4237_3215, false)
    case 1460 => Power(487_7732_1098_6873_7862, 541, 540, 271, 0x20_0000_0000, 1_0000_0000, 3549_0172_0847_4643, false)
    case 1461 => Power(487_7732_1098_6873_7862, 541, 540, 271, 0x10_0000_0000, 1_0000_0000, 7098_0344_1694_9286, false)
    case 1462 => Power(487_7732_1098_6873_7862, 541, 540, 271, 0x8_0000_0000, 1_0000_0000, 1_4196_0688_3389_8572, false)
    case _ => Power(487_7732_1098_6873_7862, 541, 540, 271, 0x4_0000_0000, 1_0000_0000, 2_8392_1376_6779_7144, false)
  }

  lemma Settled28(be: nat)
    requires 1437 <= be < 1464
    ensures Settled(be, Misread(be))
  {
    hide HalfUlp, Serves, Normalized, Pow, PowerOfTen, Refuted, Candidate, Row, Settled;
    assert Entry(28) == DiyFp(0x8762_5f05_6c7c_4a8b, -475)
        && !OtherBounds(0x8762_5f05_6c7c_4a8b, 487_7732_1098_6873_7862, 541, 540, 271);
    hide OtherBounds, Entry;
    PowersOfTwoThatOccur();
    PowersOfTenThatOccur();
    RowsHold();
    var row := if be < 1446 then Rows1437(be) else if be < 1455 then Rows1446(be) else Rows1455(be);
    assert Row(487_7732_1098_6873_7862, 541, 540, 271, Pow(2, 1497 - be), Misread(be));
    hide Misread;
    Settle(be, 28, 1437, 1464, 487_7732_1098_6873_7862, 541, 540, 271, Misread(be));
  }

  function Rows1464(be: int): bool {
    match be
    case 1464 => Power(654_6781_2157_9228_3740, 726, 726, 363, 0x1000_0000_0000_0000, 10, 5678_4275_3355_9429, false)
    case 1465 => Power(654_6781_2157_9228_3740, 726, 726, 363, 0x800_0000_0000_0000, 10, 1_1356_8550_6711_8858, false)
    case 1466 => Power(654_6781_2157_9228_3740, 726, 726, 363, 0x400_0000_0000_0000, 10, 2_2713_7101_3423_7715, false)
    case 1467 => Power(654_6781_2157_9228_3740, 726, 726, 363, 0x200_0000_0000_0000, 100, 4542_7420_2684_7543, false)
    case 1468 => Power(654_6781_2157_9228_3740, 726, 726, 363, 0x100_0000_0000_0000, 100, 9085_4840_5369_5086, false)
    case 1469 => Power(654_6781_2157_9228_3740, 726, 726, 363, 0x80_0000_0000_0000, 100, 1_8170_9681_0739_0172, false)
    case 1470 => Power(654_6781_2157_9228_3740, 726, 726, 363, 0x40_0000_0000_0000, 100, 3_6341_9362_1478_0345, false)
    case 1471 => Power(654_6781_2157_9228_3740, 726, 726, 363, 0x20_0000_0000_0000, 1000, 7268_3872_4295_6069, false)
    case _ => Power(654_6781_2157_9228_3740, 726, 726, 363, 0x10_0000_0000_0000, 1000, 1_4536_7744_8591_2138, false)
  }

  function Rows1473(be: int): bool {
    match be
    case 1473 => Power(654_6781_2157_9228_3740, 726, 726, 363, 0x8_0000_0000_0000, 1000, 2_9073_5489_7182_4276, false)
    case 1474 => Power(654_6781_2157_9228_3740, 726, 726, 363, 0x4_0000_0000_0000, 1_0000, 5814_7097_9436_4855, false)
    case 1475 => Power(654_6781_2157_9228_3740, 726, 726, 363, 0x2_0000_0000_0000, 10_0000, 1162_9419_5887_2971, false)
    case 1476 => Power(654_6781_2157_9228_3740, 726, 726, 363, 0x1_0000_0000_0000, 10_0000, 2325_8839_1774_5942, false)
    case 1477 => Power(654_6781_2157_9228_3740, 726, 726, 363, 0x8000_0000_0000, 10_0000, 4651_7678_3549_1884, false)
    case 1478 => Power(654_6781_2157_9228_3740, 726, 726, 363, 0x4000_0000_0000, 10_0000, 9303_5356_7098_3768, false)
    case 1479 => Power(654_6781_2157_9228_3740, 726, 726, 363, 0x2000_0000_0000, 10_0000, 1_8607_0713_4196_7536, false)
    case 1480 => Power(654_6781_2157_9228_3740, 726, 726, 363, 0x1000_0000_0000, 100_0000, 3721_4142_6839_3507, true)
    case _ => Power(654_6781_2157_9228_3740, 726, 726, 363, 0x800_0000_0000, 100_0000, 7442_8285_3678_7015, false)
  }

  function Rows1482(be: int): bool {
    match be
    case 1482 => Power(654_6781_2157_9228_3740, 726, 726, 363, 0x400_0000_0000, 1000_0000, 1488_5657_0735_7403, false)
    case 1483 => Power(654_6781_2157_9228_3740, 726, 726, 363, 0x200_0000_0000, 1000_0000, 2977_1314_1471_4806, false)
    case 1484 => Power(654_6781_2157_9228_3740, 726, 726, 363, 0x100_0000_0000, 1000_0000, 5954_2628_2942_9612, false)
    case 1485 => Power(654_6781_2157_9228_3740, 726, 726, 363, 0x80_0000_0000, 1000_0000, 1_1908_5256_5885_9223, false)
    case 1486 => Power(654_6781_2157_9228_3740, 726, 726, 363, 0x40_0000_0000, 1000_0000, 2_3817_0513_1771_8447, false)
    case 1487 => Power(654_6781_2157_9228_3740, 726, 726, 363, 0x20_0000_0000, 1_0000_0000, 4763_4102_6354_3689, true)
    case 1488 => Power(654_6781_2157_9228_3740, 726, 726, 363, 0x10_0000_0000, 1_0000_0000, 9526_8205_2708_7379, false)
    case 1489 => Power(654_6781_2157_9228_3740, 726, 726, 363, 0x8_0000_0000, 1_0000_0000, 1_9053_6410_5417_4757, false)
    case _ => Power(654_6781_2157_9228_3740, 726, 726, 363, 0x4_0000_0000, 1_0000_0000, 3_8107_2821_0834_9515, false)
  }

  lemma Settled27(be: nat)
    requires 1464 <= be < 1491
    ensures Settled(be, Misread(be))
  {
    hide HalfUlp, Serves, Normalized, Pow, PowerOfTen, Refuted, Candidate, Row, Settled;
    assert Entry(27) == DiyFp(0xb5b5_ada8_aaff_80b8, -502)
        && !OtherBounds(0xb5b5_ada8_aaff_80b8, 654_6781_2157_9228_3740, 726, 726, 363);
    hide OtherBounds, Entry;
    PowersOfTwoThatOccur();
    PowersOfTenThatOccur();
    RowsHold();
    var row := if be < 1473 then Rows1464(be) else if be < 1482 then Rows1473(be) else Rows1482(be);
    assert Row(654_6781_2157_9228_3740, 726, 726, 363, Pow(2, 1524 - be), Misread(be));
    hide Misread;
    Settle(be, 27, 1464, 1491, 654_6781_2157_9228_3740, 726, 726, 363, Misread(be));
  }

  function Rows1491(be: int): bool {
    match be
    case 1491 => Power(878_6941_0049_6718_0435, 975, 975, 488, 0x1000_0000_0000_0000, 10, 7621_4564_2166_9903, false)
    case 1492 => Power(878_6941_0049_6718_0435, 975, 975, 488, 0x800_0000_0000_0000, 10, 1_5242_9128_4333_9806, false)
    case 1493 => Power(878_6941_0049_6718_0435, 975, 975, 488, 0x400_0000_0000_0000, 100, 3048_5825_6866_7961, false)
    case 1494 => Power(878_6941_0049_6718_0435, 975, 975, 488, 0x200_0000_0000_0000, 100, 6097_1651_3733_5922, false)
    case 1495 => Power(878_6941_0049_6718_0435, 975, 975, 488, 0x100_0000_0000_0000, 100, 1_2194_3302_7467_1845, false)
    case 1496 => Power(878_6941_0049_6718_0435, 975, 975, 488, 0x80_0000_0000_0000, 1000, 2438_8660_5493_4369, false)
    case 1497 => Power(878_6941_0049_6718_0435, 975, 975, 488, 0x40_0000_0000_0000, 1000, 4877_7321_0986_8738, false)
    case 1498 => Power(878_6941_0049_6718_0435, 975, 975, 488, 0x20_0000_0000_0000, 1000, 9755_4642_1973_7476, false)
    case _ => Power(878_6941_0049_6718_0435, 975, 975, 488, 0x10_0000_0000_0000, 1_0000, 1951_0928_4394_7495, true)
  }

  function Rows1500(be: int): bool {
    match be
    case 1500 => Power(878_6941_0049_6718_0435, 975, 975, 488, 0x8_0000_0000_0000, 10_0000, 390_2185_6878_9499, true)
    case 1501 => Power(878_6941_0049_6718_0435, 975, 975, 488, 0x4_0000_0000_0000, 10_0000, 780_4371_3757_8998, true)
    case 1502 => Power(878_6941_0049_6718_0435, 975, 975, 488, 0x2_0000_0000_0000, 10_0000, 1560_8742_7515_7996, true)
    case 1503 => Power(878_6941_0049_6718_0435, 975, 975, 488, 0x1_0000_0000_0000, 10_0000, 3121_7485_5031_5992, true)
    case 1504 => Power(878_6941_0049_6718_0435, 975, 975, 488, 0x8000_0000_0000, 10_0000, 6243_4971_0063_1984, true)
    case 1505 => Power(878_6941_0049_6718_0435, 975, 975, 488, 0x4000_0000_0000, 100_0000, 1248_6994_2012_6397, false)
    case 1506 => Power(878_6941_0049_6718_0435, 975, 975, 488, 0x2000_0000_0000, 100_0000, 2497_3988_4025_2794, false)
    case 1507 => Power(878_6941_0049_6718_0435, 975, 975, 488, 0x1000_0000_0000, 100_0000, 4994_7976_8050_5588, false)
    case _ => Power(878_6941_0049_6718_0435, 975, 975, 488, 0x800_0000_0000, 100_0000, 9989_5953_6101_1175, false)
  }

  function Rows1509(be: int): bool {
    match be
    case 1509 => Power(878_6941_0049_6718_0435, 975, 975, 488, 0x400_0000_0000, 1000_0000, 1997_9190_7220_2235, false)
    case 1510 => Power(878_6941_0049_6718_0435, 975, 975, 488, 0x200_0000_0000, 1_0000_0000, 399_5838_1444_0447, false)
    case 1511 => Power(878_6941_0049_6718_0435, 975, 975, 488, 0x100_0000_0000, 1_0000_0000, 799_1676_2888_0894, false)
    case 1512 => Power(878_6941_0049_6718_0435, 975, 975, 488, 0x80_0000_0000, 1_0000_0000, 1598_3352_5776_1788, false)
    case 1513 => Power(878_6941_0049_6718_0435, 975, 975, 488, 0x40_0000_0000, 1_0000_0000, 3196_6705_1552_3576, false)
    case 1514 => Power(878_6941_0049_6718_0435, 975, 975, 488, 0x20_0000_0000, 1_0000_0000, 6393_3410_3104_7152, false)
    case 1515 =>
      Power(878_6941_0049_6718_0435, 975, 975, 488, 0x10_0000_0000, 1_0000_0000, 1_2786_6820_6209_4304, false)
    case _ => Power(878_6941_0049_6718_0435, 975, 975, 488, 0x8_0000_0000, 10_0000_0000, 2557_3364_1241_8861, false)
  }

  lemma Settled26(be: nat)
    requires 1491 <= be < 1517
    ensures Settled(be, Misread(be))
  {
    hide HalfUlp, Serves, Normalized, Pow, PowerOfTen, Refuted, Candidate, Row, Settled;
    assert Entry(26) == DiyFp(0xf3e2_f893_dec3_f126, -529)
        && !OtherBounds(0xf3e2_f893_dec3_f126, 878_6941_0049_6718_0435, 975, 975, 488);
    hide OtherBounds, Entry;
    PowersOfTwoThatOccur();
    PowersOfTenThatOccur();
    RowsHold();
    var row := if be < 1500 then Rows1491(be) else if be < 1509 then Rows1500(be) else Rows1509(be);
    assert Row(878_6941_0049_6718_0435, 975, 975, 488, Pow(2, 1551 - be), Misread(be));
    hide Misread;
    Settle(be, 26, 1491, 1517, 878_6941_0049_6718_0435, 975, 975, 488, Misread(be));
  }

  function Rows1517(be: int): bool {
    match be
    case 1517 => Power(589_6816_2887_8365_8363, 654, 654, 327, 0x1000_0000_0000_0000, 10, 5114_6728_2483_7722, false)
    case 1518 => Power(589_6816_2887_8365_8363, 654, 654, 327, 0x800_0000_0000_0000, 10, 1_0229_3456_4967_5443, false)
    case 1519 => Power(589_6816_2887_8365_8363, 654, 654, 327, 0x400_0000_0000_0000, 10, 2_0458_6912_9935_0887, false)
    case 1520 => Power(589_6816_2887_8365_8363, 654, 654, 327, 0x200_0000_0000_0000, 100, 4091_7382_5987_0177, true)
    case 1521 => Power(589_6816_2887_8365_8363, 654, 654, 327, 0x100_0000_0000_0000, 100, 8183_4765_1974_0355, false)
    case 1522 => Power(589_6816_2887_8365_8363, 654, 654, 327, 0x80_0000_0000_0000, 1000, 1636_6953_0394_8071, false)
    case 1523 => Power(589_6816_2887_8365_8363, 654, 654, 327, 0x40_0000_0000_0000, 1000, 3273_3906_0789_6142, false)
    case 1524 => Power(589_6816_2887_8365_8363, 654, 654, 327, 0x20_0000_0000_0000, 1000, 6546_7812_1579_2284, false)
    case _ => Power(589_6816_2887_8365_8363, 654, 654, 327, 0x10_0000_0000_0000, 1000, 1_3093_5624_3158_4567, false)
  }

  function Rows1526(be: int): bool {
    match be
    case 1526 => Power(589_6816_2887_8365_8363, 654, 654, 327, 0x8_0000_0000_0000, 1000, 2_6187_1248_6316_9135, false)
    case 1527 => Power(589_6816_2887_8365_8363, 654, 654, 327, 0x4_0000_0000_0000, 1_0000, 5237_4249_7263_3827, false)
    case 1528 => Power(589_6816_2887_8365_8363, 654, 654, 327, 0x2_0000_0000_0000, 1_0000, 1_0474_8499_4526_7654, false)
    case 1529 => Power(589_6816_2887_8365_8363, 654, 654, 327, 0x1_0000_0000_0000, 10_0000, 2094_9699_8905_3531, false)
    case 1530 => Power(589_6816_2887_8365_8363, 654, 654, 327, 0x8000_0000_0000, 10_0000, 4189_9399_7810_7062, false)
    case 1531 => Power(589_6816_2887_8365_8363, 654, 654, 327, 0x4000_0000_0000, 10_0000, 8379_8799_5621_4123, false)
    case 1532 => Power(589_6816_2887_8365_8363, 654, 654, 327, 0x2000_0000_0000, 10_0000, 1_6759_7599_1242_8246, false)
    case 1533 => Power(589_6816_2887_8365_8363, 654, 654, 327, 0x1000_0000_0000, 100_0000, 3351_9519_8248_5649, true)
    case _ => Power(589_6816_2887_8365_8363, 654, 654, 327, 0x800_0000_0000, 100_0000, 6703_9039_6497_1299, false)
  }

  function Rows1535(be: int): bool {
    match be
    case 1535 => Power(589_6816_2887_8365_8363, 654, 654, 327, 0x400_0000_0000, 100_0000, 1_3407_8079_2994_2597, false)
    case 1536 => Power(589_6816_2887_8365_8363, 654, 654, 327, 0x200_0000_0000, 100_0000, 2_6815_6158_5988_5194, false)
    case 1537 => Power(589_6816_2887_8365_8363, 654, 654, 327, 0x100_0000_0000, 1000_0000, 5363_1231_7197_7039, false)
    case 1538 => Power(589_6816_2887_8365_8363, 654, 654, 327, 0x80_0000_0000, 1000_0000, 1_0726_2463_4395_4078, false)
    case 1539 => Power(589_6816_2887_8365_8363, 654, 654, 327, 0x40_0000_0000, 1000_0000, 2_1452_4926_8790_8155, false)
    case 1540 => Power(589_6816_2887_8365_8363, 654, 654, 327, 0x20_0000_0000, 1_0000_0000, 4290_4985_3758_1631, false)
    case 1541 => Power(589_6816_2887_8365_8363, 654, 654, 327, 0x10_0000_0000, 1_0000_0000, 8580_9970_7516_3262, false)
    case 1542 => Power(589_6816_2887_8365_8363, 654, 654, 327, 0x8_0000_0000, 1_0000_0000, 1_7161_9941_5032_6524, false)
    case _ => Power(589_6816_2887_8365_8363, 654, 654, 327, 0x4_0000_0000, 10_0000_0000, 3432_3988_3006_5305, false)
  }

  lemma Settled25(be: nat)
    requires 1517 <= be < 1544
    ensures Settled(be, Misread(be))
  {
    hide HalfUlp, Serves, Normalized, Pow, PowerOfTen, Refuted, Candidate, Row, Settled;
    assert Entry(25) == DiyFp(0xa3ab_6658_0d5f_daf6, -555)
        && !OtherBounds(0xa3ab_6658_0d5f_daf6, 589_6816_2887_8365_8363, 654, 654, 327);
    hide OtherBounds, Entry;
    PowersOfTwoThatOccur();
    PowersOfTenThatOccur();
    RowsHold();
    var row := if be < 1526 then Rows1517(be) else if be < 1535 then Rows1526(be) else Rows1535(be);
    assert Row(589_6816_2887_8365_8363, 654, 654, 327, Pow(2, 1577 - be), Misread(be));
    hide Misread;
    Settle(be, 25, 1517, 1544, 589_6816_2887_8365_8363, 654, 654, 327, Misread(be));
  }

  function Rows1544(be: int): bool {
    match be
    case 1544 => Power(791_4572_8471_3934_5090, 878, 878, 439, 0x1000_0000_0000_0000, 100, 686_4797_6601_3061, false)
    case 1545 => Power(791_4572_8471_3934_5090, 878, 878, 439, 0x800_0000_0000_0000, 100, 1372_9595_3202_6122, false)
    case 1546 => Power(791_4572_8471_3934_5090, 878, 878, 439, 0x400_0000_0000_0000, 100, 2745_9190_6405_2244, false)
    case 1547 => Power(791_4572_8471_3934_5090, 878, 878, 439, 0x200_0000_0000_0000, 100, 5491_8381_2810_4488, false)
    case 1548 => Power(791_4572_8471_3934_5090, 878, 878, 439, 0x100_0000_0000_0000, 100, 1_0983_6762_5620_8976, false)
    case 1549 => Power(791_4572_8471_3934_5090, 878, 878, 439, 0x80_0000_0000_0000, 1000, 2196_7352_5124_1795, false)
    case 1550 => Power(791_4572_8471_3934_5090, 878, 878, 439, 0x40_0000_0000_0000, 1_0000, 439_3470_5024_8359, false)
    case 1551 => Power(791_4572_8471_3934_5090, 878, 878, 439, 0x20_0000_0000_0000, 1_0000, 878_6941_0049_6718, false)
    case _ => Power(791_4572_8471_3934_5090, 878, 878, 439, 0x10_0000_0000_0000, 1_0000, 1757_3882_0099_3436, false)
  }

  function Rows1553(be: int): bool {
    match be
    case 1553 => Power(791_4572_8471_3934_5090, 878, 878, 439, 0x8_0000_0000_0000, 1_0000, 3514_7764_0198_6872, false)
    case 1554 => Power(791_4572_8471_3934_5090, 878, 878, 439, 0x4_0000_0000_0000, 1_0000, 7029_5528_0397_3744, false)
    case 1555 => Power(791_4572_8471_3934_5090, 878, 878, 439, 0x2_0000_0000_0000, 10_0000, 1405_9105_6079_4749, false)
    case 1556 => Power(791_4572_8471_3934_5090, 878, 878, 439, 0x1_0000_0000_0000, 10_0000, 2811_8211_2158_9498, false)
    case 1557 => Power(791_4572_8471_3934_5090, 878, 878, 439, 0x8000_0000_0000, 10_0000, 5623_6422_4317_8995, true)
    case 1558 => Power(791_4572_8471_3934_5090, 878, 878, 439, 0x4000_0000_0000, 100_0000, 1124_7284_4863_5799, true)
    case 1559 => Power(791_4572_8471_3934_5090, 878, 878, 439, 0x2000_0000_0000, 100_0000, 2249_4568_9727_1598, true)
    case 1560 => Power(791_4572_8471_3934_5090, 878, 878, 439, 0x1000_0000_0000, 100_0000, 4498_9137_9454_3196, true)
    case _ => Power(791_4572_8471_3934_5090, 878, 878, 439, 0x800_0000_0000, 100_0000, 8997_8275_8908_6393, false)
  }

  function Rows1562(be: int): bool {
    match be
    case 1562 => Power(791_4572_8471_3934_5090, 878, 878, 439, 0x400_0000_0000, 100_0000, 1_7995_6551_7817_2786, false)
    case 1563 => Power(791_4572_8471_3934_5090, 878, 878, 439, 0x200_0000_0000, 1000_0000, 3599_1310_3563_4557, false)
    case 1564 => Power(791_4572_8471_3934_5090, 878, 878, 439, 0x100_0000_0000, 1000_0000, 7198_2620_7126_9114, false)
    case 1565 => Power(791_4572_8471_3934_5090, 878, 878, 439, 0x80_0000_0000, 1_0000_0000, 1439_6524_1425_3823, false)
    case 1566 => Power(791_4572_8471_3934_5090, 878, 878, 439, 0x40_0000_0000, 1_0000_0000, 2879_3048_2850_7646, false)
    case 1567 => Power(791_4572_8471_3934_5090, 878, 878, 439, 0x20_0000_0000, 1_0000_0000, 5758_6096_5701_5291, true)
    case 1568 =>
      Power(791_4572_8471_3934_5090, 878, 878, 439, 0x10_0000_0000, 1_0000_0000, 1_1517_2193_1403_0583, false)
    case _ => Power(791_4572_8471_3934_5090, 878, 878, 439, 0x8_0000_0000, 1_0000_0000, 2_3034_4386_2806_1165, false)
  }

  lemma Settled24(be: nat)
    requires 1544 <= be < 1570
    ensures Settled(be, Misread(be))
  {
    hide HalfUlp, Serves, Normalized, Pow, PowerOfTen, Refuted, Candidate, Row, Settled;
    assert Entry(24) == DiyFp(0xdbac_6c24_7d62_a584, -582)
        && !OtherBounds(0xdbac_6c24_7d62_a584, 791_4572_8471_3934_5090, 878, 878, 439);
    hide OtherBounds, Entry;
    PowersOfTwoThatOccur();
    PowersOfTenThatOccur();
    RowsHold();
    var row := if be < 1553 then Rows1544(be) else if be < 1562 then Rows1553(be) else Rows1562(be);
    assert Row(791_4572_8471_3934_5090, 878, 878, 439, Pow(2, 1604 - be), Misread(be));
    hide Misread;
    Settle(be, 24, 1544, 1570, 791_4572_8471_3934_5090, 878, 878, 439, Misread(be));
  }

  function Rows1570(be: int): bool {
    match be
    case 1570 => Power(531_1379_9281_6767_0987, 589, 589, 295, 0x1000_0000_0000_0000, 10, 4606_8877_2561_2233, false)
    case 1571 => Power(531_1379_9281_6767_0987, 589, 589, 295, 0x800_0000_0000_0000, 10, 9213_7754_5122_4466, false)
    case 1572 => Power(531_1379_9281_6767_0987, 589, 589, 295, 0x400_0000_0000_0000, 10, 1_8427_5509_0244_8932, false)
    case 1573 => Power(531_1379_9281_6767_0987, 589, 589, 295, 0x200_0000_0000_0000, 10, 3_6855_1018_0489_7865, false)
    case 1574 => Power(531_1379_9281_6767_0987, 589, 589, 295, 0x100_0000_0000_0000, 100, 7371_0203_6097_9573, false)
    case 1575 => Power(531_1379_9281_6767_0987, 589, 589, 295, 0x80_0000_0000_0000, 100, 1_4742_0407_2195_9146, false)
    case 1576 => Power(531_1379_9281_6767_0987, 589, 589, 295, 0x40_0000_0000_0000, 1000, 2948_4081_4439_1829, true)
    case 1577 => Power(531_1379_9281_6767_0987, 589, 589, 295, 0x20_0000_0000_0000, 1000, 5896_8162_8878_3658, true)
    case _ => Power(531_1379_9281_6767_0987, 589, 589, 295, 0x10_0000_0000_0000, 1000, 1_1793_6325_7756_7317, false)
  }

  function Rows1579(be: int): bool {
    match be
    case 1579 => Power(531_1379_9281_6767_0987, 589, 589, 295, 0x8_0000_0000_0000, 1000, 2_3587_2651_5513_4633, false)
    case 1580 => Power(531_1379_9281_6767_0987, 589, 589, 295, 0x4_0000_0000_0000, 1_0000, 4717_4530_3102_6927, false)
    case 1581 => Power(531_1379_9281_6767_0987, 589, 589, 295, 0x2_0000_0000_0000, 1_0000, 9434_9060_6205_3853, false)
    case 1582 => Power(531_1379_9281_6767_0987, 589, 589, 295, 0x1_0000_0000_0000, 1_0000, 1_8869_8121_2410_7707, false)
    case 1583 => Power(531_1379_9281_6767_0987, 589, 589, 295, 0x8000_0000_0000, 10_0000, 3773_9624_2482_1541, true)
    case 1584 => Power(531_1379_9281_6767_0987, 589, 589, 295, 0x4000_0000_0000, 10_0000, 7547_9248_4964_3083, false)
    case 1585 => Power(531_1379_9281_6767_0987, 589, 589, 295, 0x2000_0000_0000, 10_0000, 1_5095_8496_9928_6165, false)
    case 1586 => Power(531_1379_9281_6767_0987, 589, 589, 295, 0x1000_0000_0000, 100_0000, 3019_1699_3985_7233, false)
    case _ => Power(531_1379_9281_6767_0987, 589, 589, 295, 0x800_0000_0000, 100_0000, 6038_3398_7971_4466, false)
  }

  function Rows1588(be: int): bool {
    match be
    case 1588 => Power(531_1379_9281_6767_0987, 589, 589, 295, 0x400_0000_0000, 100_0000, 1_2076_6797_5942_8932, false)
    case 1589 => Power(531_1379_9281_6767_0987, 589, 589, 295, 0x200_0000_0000, 100_0000, 2_4153_3595_1885_7865, false)
    case 1590 => Power(531_1379_9281_6767_0987, 589, 589, 295, 0x100_0000_0000, 1000_0000, 4830_6719_0377_1573, false)
    case 1591 => Power(531_1379_9281_6767_0987, 589, 589, 295, 0x80_0000_0000, 1000_0000, 9661_3438_0754_3146, false)
    case 1592 => Power(531_1379_9281_6767_0987, 589, 589, 295, 0x40_0000_0000, 1_0000_0000, 1932_2687_6150_8629, true)
    case 1593 => Power(531_1379_9281_6767_0987, 589, 589, 295, 0x20_0000_0000, 1_0000_0000, 3864_5375_2301_7258, true)
    case 1594 => Power(531_1379_9281_6767_0987, 589, 589, 295, 0x10_0000_0000, 1_0000_0000, 7729_0750_4603_4517, false)
    case 1595 => Power(531_1379_9281_6767_0987, 589, 589, 295, 0x8_0000_0000, 1_0000_0000, 1_5458_1500_9206_9033, false)
    case _ => Power(531_1379_9281_6767_0987, 589, 589, 295, 0x4_0000_0000, 10_0000_0000, 3091_6300_1841_3807, false)
  }

  lemma Settled23(be: nat)
    requires 1570 <= be < 1597
    ensures Settled(be, Misread(be))
  {
    hide HalfUlp, Serves, Normalized, Pow, PowerOfTen, Refuted, Candidate, Row, Settled;
    assert Entry(23) == DiyFp(0x936b_9fce_bb25_c996, -608)
        && !OtherBounds(0x936b_9fce_bb25_c996, 531_1379_9281_6767_0987, 589, 589, 295);
    hide OtherBounds, Entry;
    PowersOfTwoThatOccur();
    PowersOfTenThatOccur();
    RowsHold();
    var row := if be < 1579 then Rows1570(be) else if be < 1588 then Rows1579(be) else Rows1588(be);
    assert Row(531_1379_9281_6767_0987, 589, 589, 295, Pow(2, 1630 - be), Misread(be));
    hide Misread;
    Settle(be, 23, 1570, 1597, 531_1379_9281_6767_0987, 589, 589, 295, Misread(be));
  }

  function Rows1597(be: int): bool {
    match be
    case 1597 => Power(712_8813_4650_3468_0029, 790, 790, 396, 0x1000_0000_0000_0000, 10, 6183_2600_3682_7613, true)
    case 1598 => Power(712_8813_4650_3468_0029, 790, 790, 396, 0x800_0000_0000_0000, 10, 1_2366_5200_7365_5227, false)
    case 1599 => Power(712_8813_4650_3468_0029, 790, 790, 396, 0x400_0000_0000_0000, 10, 2_4733_0401_4731_0453, false)
    case 1600 => Power(712_8813_4650_3468_0029, 790, 790, 396, 0x200_0000_0000_0000, 100, 4946_6080_2946_2091, false)
    case 1601 => Power(712_8813_4650_3468_0029, 790, 790, 396, 0x100_0000_0000_0000, 100, 9893_2160_5892_4181, false)
    case 1602 => Power(712_8813_4650_3468_0029, 790, 790, 396, 0x80_0000_0000_0000, 100, 1_9786_4321_1784_8363, false)
    case 1603 => Power(712_8813_4650_3468_0029, 790, 790, 396, 0x40_0000_0000_0000, 100, 3_9572_8642_3569_6725, false)
    case 1604 => Power(712_8813_4650_3468_0029, 790, 790, 396, 0x20_0000_0000_0000, 1000, 7914_5728_4713_9345, false)
    case _ => Power(712_8813_4650_3468_0029, 790, 790, 396, 0x10_0000_0000_0000, 1_0000, 1582_9145_6942_7869, false)
  }

  function Rows1606(be: int): bool {
    match be
    case 1606 => Power(712_8813_4650_3468_0029, 790, 790, 396, 0x8_0000_0000_0000, 1_0000, 3165_8291_3885_5738, false)
    case 1607 => Power(712_8813_4650_3468_0029, 790, 790, 396, 0x4_0000_0000_0000, 1_0000, 6331_6582_7771_1476, false)
    case 1608 => Power(712_8813_4650_3468_0029, 790, 790, 396, 0x2_0000_0000_0000, 1_0000, 1_2663_3165_5542_2952, false)
    case 1609 => Power(712_8813_4650_3468_0029, 790, 790, 396, 0x1_0000_0000_0000, 1_0000, 2_5326_6331_1084_5904, false)
    case 1610 => Power(712_8813_4650_3468_0029, 790, 790, 396, 0x8000_0000_0000, 10_0000, 5065_3266_2216_9181, false)
    case 1611 => Power(712_8813_4650_3468_0029, 790, 790, 396, 0x4000_0000_0000, 10_0000, 1_0130_6532_4433_8362, false)
    case 1612 => Power(712_8813_4650_3468_0029, 790, 790, 396, 0x2000_0000_0000, 10_0000, 2_0261_3064_8867_6723, false)
    case 1613 => Power(712_8813_4650_3468_0029, 790, 790, 396, 0x1000_0000_0000, 100_0000, 4052_2612_9773_5345, false)
    case _ => Power(712_8813_4650_3468_0029, 790, 790, 396, 0x800_0000_0000, 1000_0000, 810_4522_5954_7069, false)
  }

  function Rows1615(be: int): bool {
    match be
    case 1615 => Power(712_8813_4650_3468_0029, 790, 790, 396, 0x400_0000_0000, 1000_0000, 1620_9045_1909_4138, false)
    case 1616 => Power(712_8813_4650_3468_0029, 790, 790, 396, 0x200_0000_0000, 1000_0000, 3241_8090_3818_8276, false)
    case 1617 => Power(712_8813_4650_3468_0029, 790, 790, 396, 0x100_0000_0000, 1000_0000, 6483_6180_7637_6551, true)
    case 1618 => Power(712_8813_4650_3468_0029, 790, 790, 396, 0x80_0000_0000, 1000_0000, 1_2967_2361_5275_3103, false)
    case 1619 => Power(712_8813_4650_3468_0029, 790, 790, 396, 0x40_0000_0000, 1000_0000, 2_5934_4723_0550_6206, false)
    case 1620 => Power(712_8813_4650_3468_0029, 790, 790, 396, 0x20_0000_0000, 1_0000_0000, 5186_8944_6110_1241, false)
    case 1621 =>
      Power(712_8813_4650_3468_0029, 790, 790, 396, 0x10_0000_0000, 1_0000_0000, 1_0373_7889_2220_2482, false)
    case _ => Power(712_8813_4650_3468_0029, 790, 790, 396, 0x8_0000_0000, 1_0000_0000, 2_0747_5778_4440_4965, false)
  }

  lemma Settled22(be: nat)
    requires 1597 <= be < 1623
    ensures Settled(be, Misread(be))
  {
    hide HalfUlp, Serves, Normalized, Pow, PowerOfTen, Refuted, Candidate, Row, Settled;
    assert Entry(22) == DiyFp(0xc5dd_4427_1ad3_cdba, -635)
        && !OtherBounds(0xc5dd_4427_1ad3_cdba, 712_8813_4650_3468_0029, 790, 790, 396);
    hide OtherBounds, Entry;
    PowersOfTwoThatOccur();
    PowersOfTenThatOccur();
    RowsHold();
    var row := if be < 1606 then Rows1597(be) else if be < 1615 then Rows1606(be) else Rows1615(be);
    assert Row(712_8813_4650_3468_0029, 790, 790, 396, Pow(2, 1657 - be), Misread(be));
    hide Misread;
    Settle(be, 22, 1597, 1623, 712_8813_4650_3468_0029, 790, 790, 396, Misread(be));
  }

  function Rows1623(be: int): bool {
    match be
    case 1623 => Power(478_4065_7330_6381_0974, 531, 530, 266, 0x1000_0000_0000_0000, 10, 4149_5155_6888_0993, false)
    case 1624 => Power(478_4065_7330_6381_0974, 531, 530, 266, 0x800_0000_0000_0000, 10, 8299_0311_3776_1986, false)
    case 1625 => Power(478_4065_7330_6381_0974, 531, 530, 266, 0x400_0000_0000_0000, 100, 1659_8062_2755_2397, true)
    case 1626 => Power(478_4065_7330_6381_0974, 531, 530, 266, 0x200_0000_0000_0000, 100, 3319_6124_5510_4794, true)
    case 1627 => Power(478_4065_7330_6381_0974, 531, 530, 266, 0x100_0000_0000_0000, 100, 6639_2249_1020_9589, false)
    case 1628 => Power(478_4065_7330_6381_0974, 531, 530, 266, 0x80_0000_0000_0000, 100, 1_3278_4498_2041_9177, false)
    case 1629 => Power(478_4065_7330_6381_0974, 531, 530, 266, 0x40_0000_0000_0000, 100, 2_6556_8996_4083_8355, false)
    case 1630 => Power(478_4065_7330_6381_0974, 531, 530, 266, 0x20_0000_0000_0000, 1000, 5311_3799_2816_7671, false)
    case _ => Power(478_4065_7330_6381_0974, 531, 530, 266, 0x10_0000_0000_0000, 1000, 1_0622_7598_5633_5342, false)
  }

  function Rows1632(be: int): bool {
    match be
    case 1632 => Power(478_4065_7330_6381_0974, 531, 530, 266, 0x8_0000_0000_0000, 1000, 2_1245_5197_1267_0684, false)
    case 1633 => Power(478_4065_7330_6381_0974, 531, 530, 266, 0x4_0000_0000_0000, 1_0000, 4249_1039_4253_4137, false)
    case 1634 => Power(478_4065_7330_6381_0974, 531, 530, 266, 0x2_0000_0000_0000, 1_0000, 8498_2078_8506_8274, false)
    case 1635 => Power(478_4065_7330_6381_0974, 531, 530, 266, 0x1_0000_0000_0000, 1_0000, 1_6996_4157_7013_6547, false)
    case 1636 => Power(478_4065_7330_6381_0974, 531, 530, 266, 0x8000_0000_0000, 1_0000, 3_3992_8315_4027_3094, false)
    case 1637 => Power(478_4065_7330_6381_0974, 531, 530, 266, 0x4000_0000_0000, 10_0000, 6798_5663_0805_4619, false)
    case 1638 => Power(478_4065_7330_6381_0974, 531, 530, 266, 0x2000_0000_0000, 10_0000, 1_3597_1326_1610_9238, false)
    case 1639 => Power(478_4065_7330_6381_0974, 531, 530, 266, 0x1000_0000_0000, 10_0000, 2_7194_2652_3221_8475, false)
    case _ => Power(478_4065_7330_6381_0974, 531, 530, 266, 0x800_0000_0000, 100_0000, 5438_8530_4644_3695, false)
  }

  function Rows1641(be: int): bool {
    match be
    case 1641 => Power(478_4065_7330_6381_0974, 531, 530, 266, 0x400_0000_0000, 1000_0000, 1087_7706_0928_8739, false)
    case 1642 => Power(478_4065_7330_6381_0974, 531, 530, 266, 0x200_0000_0000, 1000_0000, 2175_5412_1857_7478, false)
    case 1643 => Power(478_4065_7330_6381_0974, 531, 530, 266, 0x100_0000_0000, 1000_0000, 4351_0824_3715_4956, false)
    case 1644 => Power(478_4065_7330_6381_0974, 531, 530, 266, 0x80_0000_0000, 1000_0000, 8702_1648_7430_9912, false)
    case 1645 => Power(478_4065_7330_6381_0974, 531, 530, 266, 0x40_0000_0000, 1000_0000, 1_7404_3297_4861_9824, false)
    case 1646 => Power(478_4065_7330_6381_0974, 531, 530, 266, 0x20_0000_0000, 1_0000_0000, 3480_8659_4972_3965, false)
    case 1647 => Power(478_4065_7330_6381_0974, 531, 530, 266, 0x10_0000_0000, 10_0000_0000, 696_1731_8994_4793, false)
    case 1648 => Power(478_4065_7330_6381_0974, 531, 530, 266, 0x8_0000_0000, 10_0000_0000, 1392_3463_7988_9586, false)
    case _ => Power(478_4065_7330_6381_0974, 531, 530, 266, 0x4_0000_0000, 10_0000_0000, 2784_6927_5977_9172, false)
  }

  lemma Settled21(be: nat)
    requires 1623 <= be < 1650
    ensures Settled(be, Misread(be))
  {
    hide HalfUlp, Serves, Normalized, Pow, PowerOfTen, Refuted, Candidate, Row, Settled;
    assert Entry(21) == DiyFp(0x84c8_d4df_d2c6_3f3b, -661)
        && !OtherBounds(0x84c8_d4df_d2c6_3f3b, 478_4065_7330_6381_0974, 531, 530, 266);
    hide OtherBounds, Entry;
    PowersOfTwoThatOccur();
    PowersOfTenThatOccur();
    RowsHold();
    var row := if be < 1632 then Rows1623(be) else if be < 1641 then Rows1632(be) else Rows1641(be);
    assert Row(478_4065_7330_6381_0974, 531, 530, 266, Pow(2, 1683 - be), Misread(be));
    hide Misread;
    Settle(be, 21, 1623, 1650, 478_4065_7330_6381_0974, 531, 530, 266, Misread(be));
  }

  function Rows1650(be: int): bool {
    match be
    case 1650 => Power(642_1064_3329_4479_1879, 712, 712, 356, 0x1000_0000_0000_0000, 10, 5569_3855_1955_8344, false)
    case 1651 => Power(642_1064_3329_4479_1879, 712, 712, 356, 0x800_0000_0000_0000, 10, 1_1138_7710_3911_6688, false)
    case 1652 => Power(642_1064_3329_4479_1879, 712, 712, 356, 0x400_0000_0000_0000, 10, 2_2277_5420_7823_3375, false)
    case 1653 => Power(642_1064_3329_4479_1879, 712, 712, 356, 0x200_0000_0000_0000, 100, 4455_5084_1564_6675, false)
    case 1654 => Power(642_1064_3329_4479_1879, 712, 712, 356, 0x100_0000_0000_0000, 1000, 891_1016_8312_9335, false)
    case 1655 => Power(642_1064_3329_4479_1879, 712, 712, 356, 0x80_0000_0000_0000, 1_0000, 178_2203_3662_5867, false)
    case 1656 => Power(642_1064_3329_4479_1879, 712, 712, 356, 0x40_0000_0000_0000, 1_0000, 356_4406_7325_1734, false)
    case 1657 => Power(642_1064_3329_4479_1879, 712, 712, 356, 0x20_0000_0000_0000, 1_0000, 712_8813_4650_3468, false)
    case _ => Power(642_1064_3329_4479_1879, 712, 712, 356, 0x10_0000_0000_0000, 1_0000, 1425_7626_9300_6936, false)
  }

  function Rows1659(be: int): bool {
    match be
    case 1659 => Power(642_1064_3329_4479_1879, 712, 712, 356, 0x8_0000_0000_0000, 1_0000, 2851_5253_8601_3872, false)
    case 1660 => Power(642_1064_3329_4479_1879, 712, 712, 356, 0x4_0000_0000_0000, 1_0000, 5703_0507_7202_7744, false)
    case 1661 => Power(642_1064_3329_4479_1879, 712, 712, 356, 0x2_0000_0000_0000, 1_0000, 1_1406_1015_4405_5488, false)
    case 1662 => Power(642_1064_3329_4479_1879, 712, 712, 356, 0x1_0000_0000_0000, 1_0000, 2_2812_2030_8811_0976, false)
    case 1663 => Power(642_1064_3329_4479_1879, 712, 712, 356, 0x8000_0000_0000, 10_0000, 4562_4406_1762_2195, false)
    case 1664 => Power(642_1064_3329_4479_1879, 712, 712, 356, 0x4000_0000_0000, 100_0000, 912_4881_2352_4439, false)
    case 1665 => Power(642_1064_3329_4479_1879, 712, 712, 356, 0x2000_0000_0000, 100_0000, 1824_9762_4704_8878, false)
    case 1666 => Power(642_1064_3329_4479_1879, 712, 712, 356, 0x1000_0000_0000, 100_0000, 3649_9524_9409_7756, false)
    case _ => Power(642_1064_3329_4479_1879, 712, 712, 356, 0x800_0000_0000, 100_0000, 7299_9049_8819_5512, false)
  }

  function Rows1668(be: int): bool {
    match be
    case 1668 => Power(642_1064_3329_4479_1879, 712, 712, 356, 0x400_0000_0000, 100_0000, 1_4599_8099_7639_1025, false)
    case 1669 => Power(642_1064_3329_4479_1879, 712, 712, 356, 0x200_0000_0000, 1000_0000, 2919_9619_9527_8205, false)
    case 1670 => Power(642_1064_3329_4479_1879, 712, 712, 356, 0x100_0000_0000, 1_0000_0000, 583_9923_9905_5641, false)
    case 1671 => Power(642_1064_3329_4479_1879, 712, 712, 356, 0x80_0000_0000, 1_0000_0000, 1167_9847_9811_1282, false)
    case 1672 => Power(642_1064_3329_4479_1879, 712, 712, 356, 0x40_0000_0000, 1_0000_0000, 2335_9695_9622_2564, false)
    case 1673 => Power(642_1064_3329_4479_1879, 712, 712, 356, 0x20_0000_0000, 1_0000_0000, 4671_9391_9244_5128, false)
    case 1674 => Power(642_1064_3329_4479_1879, 712, 712, 356, 0x10_0000_0000, 1_0000_0000, 9343_8783_8489_0256, false)
    case 1675 => Power(642_1064_3329_4479_1879, 712, 712, 356, 0x8_0000_0000, 10_0000_0000, 1868_7756_7697_8051, true)
    case _ => Power(642_1064_3329_4479_1879, 712, 712, 356, 0x4_0000_0000, 10_0000_0000, 3737_5513_5395_6102, true)
  }

  lemma Settled20(be: nat)
    requires 1650 <= be < 1677
    ensures Settled(be, Misread(be))
  {
    hide HalfUlp, Serves, Normalized, Pow, PowerOfTen, Refuted, Candidate, Row, Settled;
    assert Entry(20) == DiyFp(0xb238_67fb_2a35_b28e, -688)
        && !OtherBounds(0xb238_67fb_2a35_b28e, 642_1064_3329_4479_1879, 712, 712, 356);
    hide OtherBounds, Entry;
    PowersOfTwoThatOccur();
    PowersOfTenThatOccur();
    RowsHold();
    var row := if be < 1659 then Rows1650(be) else if be < 1668 then Rows1659(be) else Rows1668(be);
    assert Row(642_1064_3329_4479_1879, 712, 712, 356, Pow(2, 1710 - be), Misread(be));
    hide Misread;
    Settle(be, 20, 1650, 1677, 642_1064_3329_4479_1879, 712, 712, 356, Misread(be));
  }

  function Rows1677(be: int): bool {
    match be
    case 1677 => Power(861_8206_6610_9685_5155, 956, 955, 479, 0x1000_0000_0000_0000, 10, 7475_1027_0791_2205, false)
    case 1678 => Power(861_8206_6610_9685_5155, 956, 955, 479, 0x800_0000_0000_0000, 100, 1495_0205_4158_2441, false)
    case 1679 => Power(861_8206_6610_9685_5155, 956, 955, 479, 0x400_0000_0000_0000, 100, 2990_0410_8316_4882, false)
    case 1680 => Power(861_8206_6610_9685_5155, 956, 955, 479, 0x200_0000_0000_0000, 100, 5980_0821_6632_9764, false)
    case 1681 => Power(861_8206_6610_9685_5155, 956, 955, 479, 0x100_0000_0000_0000, 100, 1_1960_1643_3265_9527, false)
    case 1682 => Power(861_8206_6610_9685_5155, 956, 955, 479, 0x80_0000_0000_0000, 100, 2_3920_3286_6531_9055, false)
    case 1683 => Power(861_8206_6610_9685_5155, 956, 955, 479, 0x40_0000_0000_0000, 1000, 4784_0657_3306_3811, false)
    case 1684 => Power(861_8206_6610_9685_5155, 956, 955, 479, 0x20_0000_0000_0000, 1000, 9568_1314_6612_7622, false)
    case _ => Power(861_8206_6610_9685_5155, 956, 955, 479, 0x10_0000_0000_0000, 1000, 1_9136_2629_3225_5244, false)
  }

  function Rows1686(be: int): bool {
    match be
    case 1686 => Power(861_8206_6610_9685_5155, 956, 955, 479, 0x8_0000_0000_0000, 1_0000, 3827_2525_8645_1049, false)
    case 1687 => Power(861_8206_6610_9685_5155, 956, 955, 479, 0x4_0000_0000_0000, 1_0000, 7654_5051_7290_2098, false)
    case 1688 => Power(861_8206_6610_9685_5155, 956, 955, 479, 0x2_0000_0000_0000, 1_0000, 1_5309_0103_4580_4195, false)
    case 1689 => Power(861_8206_6610_9685_5155, 956, 955, 479, 0x1_0000_0000_0000, 10_0000, 3061_8020_6916_0839, false)
    case 1690 => Power(861_8206_6610_9685_5155, 956, 955, 479, 0x8000_0000_0000, 10_0000, 6123_6041_3832_1678, false)
    case 1691 => Power(861_8206_6610_9685_5155, 956, 955, 479, 0x4000_0000_0000, 10_0000, 1_2247_2082_7664_3356, false)
    case 1692 => Power(861_8206_6610_9685_5155, 956, 955, 479, 0x2000_0000_0000, 100_0000, 2449_4416_5532_8671, true)
    case 1693 => Power(861_8206_6610_9685_5155, 956, 955, 479, 0x1000_0000_0000, 100_0000, 4898_8833_1065_7342, true)
    case _ => Power(861_8206_6610_9685_5155, 956, 955, 479, 0x800_0000_0000, 100_0000, 9797_7666_2131_4685, false)
  }

  function Rows1695(be: int): bool {
    match be
    case 1695 => Power(861_8206_6610_9685_5155, 956, 955, 479, 0x400_0000_0000, 1000_0000, 1959_5533_2426_2937, false)
    case 1696 => Power(861_8206_6610_9685_5155, 956, 955, 479, 0x200_0000_0000, 1000_0000, 3919_1066_4852_5874, false)
    case 1697 => Power(861_8206_6610_9685_5155, 956, 955, 479, 0x100_0000_0000, 1000_0000, 7838_2132_9705_1748, false)
    case 1698 => Power(861_8206_6610_9685_5155, 956, 955, 479, 0x80_0000_0000, 1000_0000, 1_5676_4265_9410_3496, false)
    case 1699 => Power(861_8206_6610_9685_5155, 956, 955, 479, 0x40_0000_0000, 1_0000_0000, 3135_2853_1882_0699, false)
    case 1700 => Power(861_8206_6610_9685_5155, 956, 955, 479, 0x20_0000_0000, 1_0000_0000, 6270_5706_3764_1398, false)
    case 1701 =>
      Power(861_8206_6610_9685_5155, 956, 955, 479, 0x10_0000_0000, 1_0000_0000, 1_2541_1412_7528_2797, false)
    case _ => Power(861_8206_6610_9685_5155, 956, 955, 479, 0x8_0000_0000, 1_0000_0000, 2_5082_2825_5056_5593, false)
  }

  lemma Settled19(be: nat)
    requires 1677 <= be < 1703
    ensures Settled(be, Misread(be))
  {
    hide HalfUlp, Serves, Normalized, Pow, PowerOfTen, Refuted, Candidate, Row, Settled;
    assert Entry(19) == DiyFp(0xef34_0a98_172a_ace5, -715)
        && !OtherBounds(0xef34_0a98_172a_ace5, 861_8206_6610_9685_5155, 956, 955, 479);
    hide OtherBounds, Entry;
    PowersOfTwoThatOccur();
    PowersOfTenThatOccur();
    RowsHold();
    var row := if be < 1686 then Rows1677(be) else if be < 1695 then Rows1686(be) else Rows1695(be);
    assert Row(861_8206_6610_9685_5155, 956, 955, 479, Pow(2, 1737 - be), Misread(be));
    hide Misread;
    Settle(be, 19, 1677, 1703, 861_8206_6610_9685_5155, 956, 955, 479, Misread(be));
  }

  function Rows1703(be: int): bool {
    match be
    case 1703 => Power(578_3580_5874_3442_9434, 641, 641, 321, 0x1000_0000_0000_0000, 10, 5016_4565_1011_3119, false)
    case 1704 => Power(578_3580_5874_3442_9434, 641, 641, 321, 0x800_0000_0000_0000, 10, 1_0032_9130_2022_6237, false)
    case 1705 => Power(578_3580_5874_3442_9434, 641, 641, 321, 0x400_0000_0000_0000, 10, 2_0065_8260_4045_2475, false)
    case 1706 => Power(578_3580_5874_3442_9434, 641, 641, 321, 0x200_0000_0000_0000, 100, 4013_1652_0809_0495, false)
    case 1707 => Power(578_3580_5874_3442_9434, 641, 641, 321, 0x100_0000_0000_0000, 1000, 802_6330_4161_8099, false)
    case 1708 => Power(578_3580_5874_3442_9434, 641, 641, 321, 0x80_0000_0000_0000, 1000, 1605_2660_8323_6198, false)
    case 1709 => Power(578_3580_5874_3442_9434, 641, 641, 321, 0x40_0000_0000_0000, 1000, 3210_5321_6647_2396, false)
    case 1710 => Power(578_3580_5874_3442_9434, 641, 641, 321, 0x20_0000_0000_0000, 1000, 6421_0643_3294_4792, false)
    case _ => Power(578_3580_5874_3442_9434, 641, 641, 321, 0x10_0000_0000_0000, 1000, 1_2842_1286_6588_9584, false)
  }

  function Rows1712(be: int): bool {
    match be
    case 1712 => Power(578_3580_5874_3442_9434, 641, 641, 321, 0x8_0000_0000_0000, 1_0000, 2568_4257_3317_7917, false)
    case 1713 => Power(578_3580_5874_3442_9434, 641, 641, 321, 0x4_0000_0000_0000, 1_0000, 5136_8514_6635_5834, false)
    case 1714 => Power(578_3580_5874_3442_9434, 641, 641, 321, 0x2_0000_0000_0000, 1_0000, 1_0273_7029_3271_1667, false)
    case 1715 => Power(578_3580_5874_3442_9434, 641, 641, 321, 0x1_0000_0000_0000, 1_0000, 2_0547_4058_6542_3334, false)
    case 1716 => Power(578_3580_5874_3442_9434, 641, 641, 321, 0x8000_0000_0000, 10_0000, 4109_4811_7308_4667, false)
    case 1717 => Power(578_3580_5874_3442_9434, 641, 641, 321, 0x4000_0000_0000, 10_0000, 8218_9623_4616_9334, false)
    case 1718 => Power(578_3580_5874_3442_9434, 641, 641, 321, 0x2000_0000_0000, 10_0000, 1_6437_9246_9233_8667, false)
    case 1719 => Power(578_3580_5874_3442_9434, 641, 641, 321, 0x1000_0000_0000, 10_0000, 3_2875_8493_8467_7334, false)
    case _ => Power(578_3580_5874_3442_9434, 641, 641, 321, 0x800_0000_0000, 100_0000, 6575_1698_7693_5467, false)
  }

  function Rows1721(be: int): bool {
    match be
    case 1721 => Power(578_3580_5874_3442_9434, 641, 641, 321, 0x400_0000_0000, 100_0000, 1_3150_3397_5387_0934, false)
    case 1722 => Power(578_3580_5874_3442_9434, 641, 641, 321, 0x200_0000_0000, 1000_0000, 2630_0679_5077_4187, false)
    case 1723 => Power(578_3580_5874_3442_9434, 641, 641, 321, 0x100_0000_0000, 1000_0000, 5260_1359_0154_8374, false)
    case 1724 => Power(578_3580_5874_3442_9434, 641, 641, 321, 0x80_0000_0000, 1000_0000, 1_0520_2718_0309_6747, false)
    case 1725 => Power(578_3580_5874_3442_9434, 641, 641, 321, 0x40_0000_0000, 1000_0000, 2_1040_5436_0619_3494, false)
    case 1726 => Power(578_3580_5874_3442_9434, 641, 641, 321, 0x20_0000_0000, 1_0000_0000, 4208_1087_2123_8699, false)
    case 1727 => Power(578_3580_5874_3442_9434, 641, 641, 321, 0x10_0000_0000, 1_0000_0000, 8416_2174_4247_7398, false)
    case 1728 => Power(578_3580_5874_3442_9434, 641, 641, 321, 0x8_0000_0000, 1_0000_0000, 1_6832_4348_8495_4795, false)
    case _ => Power(578_3580_5874_3442_9434, 641, 641, 321, 0x4_0000_0000, 10_0000_0000, 3366_4869_7699_0959, false)
  }

  lemma Settled18(be: nat)
    requires 1703 <= be < 1730
    ensures Settled(be, Misread(be))
  {
    hide HalfUlp, Serves, Normalized, Pow, PowerOfTen, Refuted, Candidate, Row, Settled;
    assert Entry(18) == DiyFp(0xa086_cfcd_97bf_97f4, -741)
        && !OtherBounds(0xa086_cfcd_97bf_97f4, 578_3580_5874_3442_9434, 641, 641, 321);
    hide OtherBounds, Entry;
    PowersOfTwoThatOccur();
    PowersOfTenThatOccur();
    RowsHold();
    var row := if be < 1712 then Rows1703(be) else if be < 1721 then Rows1712(be) else Rows1721(be);
    assert Row(578_3580_5874_3442_9434, 641, 641, 321, Pow(2, 1763 - be), Misread(be));
    hide Misread;
    Settle(be, 18, 1703, 1730, 578_3580_5874_3442_9434, 641, 641, 321, Misread(be));
  }

  function Rows1730(be: int): bool {
    match be
    case 1730 => Power(776_2590_4615_0354_4676, 861, 860, 431, 0x1000_0000_0000_0000, 10, 6732_9739_5398_1918, false)
    case 1731 => Power(776_2590_4615_0354_4676, 861, 860, 431, 0x800_0000_0000_0000, 10, 1_3465_9479_0796_3836, false)
    case 1732 => Power(776_2590_4615_0354_4676, 861, 860, 431, 0x400_0000_0000_0000, 100, 2693_1895_8159_2767, true)
    case 1733 => Power(776_2590_4615_0354_4676, 861, 860, 431, 0x200_0000_0000_0000, 100, 5386_3791_6318_5534, true)
    case 1734 => Power(776_2590_4615_0354_4676, 861, 860, 431, 0x100_0000_0000_0000, 1000, 1077_2758_3263_7107, false)
    case 1735 => Power(776_2590_4615_0354_4676, 861, 860, 431, 0x80_0000_0000_0000, 1000, 2154_5516_6527_4214, false)
    case 1736 => Power(776_2590_4615_0354_4676, 861, 860, 431, 0x40_0000_0000_0000, 1000, 4309_1033_3054_8428, false)
    case 1737 => Power(776_2590_4615_0354_4676, 861, 860, 431, 0x20_0000_0000_0000, 1000, 8618_2066_6109_6855, false)
    case _ => Power(776_2590_4615_0354_4676, 861, 860, 431, 0x10_0000_0000_0000, 1_0000, 1723_6413_3221_9371, false)
  }

  function Rows1739(be: int): bool {
    match be
    case 1739 => Power(776_2590_4615_0354_4676, 861, 860, 431, 0x8_0000_0000_0000, 1_0000, 3447_2826_6443_8742, false)
    case 1740 => Power(776_2590_4615_0354_4676, 861, 860, 431, 0x4_0000_0000_0000, 1_0000, 6894_5653_2887_7484, false)
    case 1741 => Power(776_2590_4615_0354_4676, 861, 860, 431, 0x2_0000_0000_0000, 1_0000, 1_3789_1306_5775_4968, false)
    case 1742 => Power(776_2590_4615_0354_4676, 861, 860, 431, 0x1_0000_0000_0000, 1_0000, 2_7578_2613_1550_9936, false)
    case 1743 => Power(776_2590_4615_0354_4676, 861, 860, 431, 0x8000_0000_0000, 10_0000, 5515_6522_6310_1987, false)
    case 1744 => Power(776_2590_4615_0354_4676, 861, 860, 431, 0x4000_0000_0000, 10_0000, 1_1031_3045_2620_3975, false)
    case 1745 => Power(776_2590_4615_0354_4676, 861, 860, 431, 0x2000_0000_0000, 100_0000, 2206_2609_0524_0795, false)
    case 1746 => Power(776_2590_4615_0354_4676, 861, 860, 431, 0x1000_0000_0000, 1000_0000, 441_2521_8104_8159, false)
    case _ => Power(776_2590_4615_0354_4676, 861, 860, 431, 0x800_0000_0000, 1000_0000, 882_5043_6209_6318, false)
  }

  function Rows1748(be: int): bool {
    match be
    case 1748 => Power(776_2590_4615_0354_4676, 861, 860, 431, 0x400_0000_0000, 1000_0000, 1765_0087_2419_2636, false)
    case 1749 => Power(776_2590_4615_0354_4676, 861, 860, 431, 0x200_0000_0000, 1000_0000, 3530_0174_4838_5272, false)
    case 1750 => Power(776_2590_4615_0354_4676, 861, 860, 431, 0x100_0000_0000, 1000_0000, 7060_0348_9677_0544, false)
    case 1751 => Power(776_2590_4615_0354_4676, 861, 860, 431, 0x80_0000_0000, 1000_0000, 1_4120_0697_9354_1087, false)
    case 1752 => Power(776_2590_4615_0354_4676, 861, 860, 431, 0x40_0000_0000, 1000_0000, 2_8240_1395_8708_2175, false)
    case 1753 => Power(776_2590_4615_0354_4676, 861, 860, 431, 0x20_0000_0000, 1_0000_0000, 5648_0279_1741_6435, false)
    case 1754 => Power(776_2590_4615_0354_4676, 861, 860, 431, 0x10_0000_0000, 10_0000_0000, 1129_6055_8348_3287, false)
    case _ => Power(776_2590_4615_0354_4676, 861, 860, 431, 0x8_0000_0000, 10_0000_0000, 2259_2111_6696_6574, false)
  }

  lemma Settled17(be: nat)
    requires 1730 <= be < 1756
    ensures Settled(be, Misread(be))
  {
    hide HalfUlp, Serves, Normalized, Pow, PowerOfTen, Refuted, Candidate, Row, Settled;
    assert Entry(17) == DiyFp(0xd774_85cb_2582_3ac7, -768)
        && !OtherBounds(0xd774_85cb_2582_3ac7, 776_2590_4615_0354_4676, 861, 860, 431);
    hide OtherBounds, Entry;
    PowersOfTwoThatOccur();
    PowersOfTenThatOccur();
    RowsHold();
    var row := if be < 1739 then Rows1730(be) else if be < 1748 then Rows1739(be) else Rows1748(be);
    assert Row(776_2590_4615_0354_4676, 861, 860, 431, Pow(2, 1790 - be), Misread(be));
    hide Misread;
    Settle(be, 17, 1730, 1756, 776_2590_4615_0354_4676, 861, 860, 431, Misread(be));
  }

  function Rows1756(be: int): bool {
    match be
    case 1756 => Power(520_9386_2756_8738_6152, 578, 577, 290, 0x1000_0000_0000_0000, 10, 4518_4223_3393_3148, false)
    case 1757 => Power(520_9386_2756_8738_6152, 578, 577, 290, 0x800_0000_0000_0000, 10, 9036_8446_6786_6296, false)
    case 1758 => Power(520_9386_2756_8738_6152, 578, 577, 290, 0x400_0000_0000_0000, 100, 1807_3689_3357_3259, true)
    case 1759 => Power(520_9386_2756_8738_6152, 578, 577, 290, 0x200_0000_0000_0000, 100, 3614_7378_6714_6518, true)
    case 1760 => Power(520_9386_2756_8738_6152, 578, 577, 290, 0x100_0000_0000_0000, 100, 7229_4757_3429_3037, false)
    case 1761 => Power(520_9386_2756_8738_6152, 578, 577, 290, 0x80_0000_0000_0000, 100, 1_4458_9514_6858_6074, false)
    case 1762 => Power(520_9386_2756_8738_6152, 578, 577, 290, 0x40_0000_0000_0000, 1000, 2891_7902_9371_7215, false)
    case 1763 => Power(520_9386_2756_8738_6152, 578, 577, 290, 0x20_0000_0000_0000, 1_0000, 578_3580_5874_3443, false)
    case _ => Power(520_9386_2756_8738_6152, 578, 577, 290, 0x10_0000_0000_0000, 1_0000, 1156_7161_1748_6886, false)
  }

  function Rows1765(be: int): bool {
    match be
    case 1765 => Power(520_9386_2756_8738_6152, 578, 577, 290, 0x8_0000_0000_0000, 1_0000, 2313_4322_3497_3772, false)
    case 1766 => Power(520_9386_2756_8738_6152, 578, 577, 290, 0x4_0000_0000_0000, 1_0000, 4626_8644_6994_7544, false)
    case 1767 => Power(520_9386_2756_8738_6152, 578, 577, 290, 0x2_0000_0000_0000, 1_0000, 9253_7289_3989_5087, false)
    case 1768 => Power(520_9386_2756_8738_6152, 578, 577, 290, 0x1_0000_0000_0000, 1_0000, 1_8507_4578_7979_0174, false)
    case 1769 => Power(520_9386_2756_8738_6152, 578, 577, 290, 0x8000_0000_0000, 10_0000, 3701_4915_7595_8035, false)
    case 1770 => Power(520_9386_2756_8738_6152, 578, 577, 290, 0x4000_0000_0000, 100_0000, 740_2983_1519_1607, false)
    case 1771 => Power(520_9386_2756_8738_6152, 578, 577, 290, 0x2000_0000_0000, 100_0000, 1480_5966_3038_3214, false)
    case 1772 => Power(520_9386_2756_8738_6152, 578, 577, 290, 0x1000_0000_0000, 100_0000, 2961_1932_6076_6428, false)
    case _ => Power(520_9386_2756_8738_6152, 578, 577, 290, 0x800_0000_0000, 100_0000, 5922_3865_2153_2856, false)
  }

  function Rows1774(be: int): bool {
    match be
    case 1774 => Power(520_9386_2756_8738_6152, 578, 577, 290, 0x400_0000_0000, 100_0000, 1_1844_7730_4306_5711, false)
    case 1775 => Power(520_9386_2756_8738_6152, 578, 577, 290, 0x200_0000_0000, 100_0000, 2_3689_5460_8613_1423, false)
    case 1776 => Power(520_9386_2756_8738_6152, 578, 577, 290, 0x100_0000_0000, 1000_0000, 4737_9092_1722_6285, false)
    case 1777 => Power(520_9386_2756_8738_6152, 578, 577, 290, 0x80_0000_0000, 1_0000_0000, 947_5818_4344_5257, false)
    case 1778 => Power(520_9386_2756_8738_6152, 578, 577, 290, 0x40_0000_0000, 1_0000_0000, 1895_1636_8689_0514, false)
    case 1779 => Power(520_9386_2756_8738_6152, 578, 577, 290, 0x20_0000_0000, 1_0000_0000, 3790_3273_7378_1028, false)
    case 1780 => Power(520_9386_2756_8738_6152, 578, 577, 290, 0x10_0000_0000, 1_0000_0000, 7580_6547_4756_2055, false)
    case 1781 => Power(520_9386_2756_8738_6152, 578, 577, 290, 0x8_0000_0000, 10_0000_0000, 1516_1309_4951_2411, false)
    case _ => Power(520_9386_2756_8738_6152, 578, 577, 290, 0x4_0000_0000, 10_0000_0000, 3032_2618_9902_4822, false)
  }

  lemma Settled16(be: nat)
    requires 1756 <= be < 1783
    ensures Settled(be, Misread(be))
  {
    hide HalfUlp, Serves, Normalized, Pow, PowerOfTen, Refuted, Candidate, Row, Settled;
    assert Entry(16) == DiyFp(0x9096_ea6f_3848_984f, -794)
        && !OtherBounds(0x9096_ea6f_3848_984f, 520_9386_2756_8738_6152, 578, 577, 290);
    hide OtherBounds, Entry;
    PowersOfTwoThatOccur();
    PowersOfTenThatOccur();
    RowsHold();
    var row := if be < 1765 then Rows1756(be) else if be < 1774 then Rows1765(be) else Rows1774(be);
    assert Row(520_9386_2756_8738_6152, 578, 577, 290, Pow(2, 1816 - be), Misread(be));
    hide Misread;
    Settle(be, 16, 1756, 1783, 520_9386_2756_8738_6152, 578, 577, 290, Misread(be));
  }

  function Rows1783(be: int): bool {
    match be
    case 1783 => Power(699_1919_9019_7142_6076, 776, 775, 389, 0x1000_0000_0000_0000, 10, 6064_5237_9804_9644, false)
    case 1784 => Power(699_1919_9019_7142_6076, 776, 775, 389, 0x800_0000_0000_0000, 10, 1_2129_0475_9609_9289, false)
    case 1785 => Power(699_1919_9019_7142_6076, 776, 775, 389, 0x400_0000_0000_0000, 10, 2_4258_0951_9219_8577, false)
    case 1786 => Power(699_1919_9019_7142_6076, 776, 775, 389, 0x200_0000_0000_0000, 100, 4851_6190_3843_9715, true)
    case 1787 => Power(699_1919_9019_7142_6076, 776, 775, 389, 0x100_0000_0000_0000, 1000, 970_3238_0768_7943, true)
    case 1788 => Power(699_1919_9019_7142_6076, 776, 775, 389, 0x80_0000_0000_0000, 1000, 1940_6476_1537_5886, true)
    case 1789 => Power(699_1919_9019_7142_6076, 776, 775, 389, 0x40_0000_0000_0000, 1000, 3881_2952_3075_1772, true)
    case 1790 => Power(699_1919_9019_7142_6076, 776, 775, 389, 0x20_0000_0000_0000, 1000, 7762_5904_6150_3545, false)
    case _ => Power(699_1919_9019_7142_6076, 776, 775, 389, 0x10_0000_0000_0000, 1_0000, 1552_5180_9230_0709, false)
  }

  function Rows1792(be: int): bool {
    match be
    case 1792 => Power(699_1919_9019_7142_6076, 776, 775, 389, 0x8_0000_0000_0000, 1_0000, 3105_0361_8460_1418, false)
    case 1793 => Power(699_1919_9019_7142_6076, 776, 775, 389, 0x4_0000_0000_0000, 1_0000, 6210_0723_6920_2836, false)
    case 1794 => Power(699_1919_9019_7142_6076, 776, 775, 389, 0x2_0000_0000_0000, 1_0000, 1_2420_1447_3840_5671, false)
    case 1795 => Power(699_1919_9019_7142_6076, 776, 775, 389, 0x1_0000_0000_0000, 1_0000, 2_4840_2894_7681_1343, false)
    case 1796 => Power(699_1919_9019_7142_6076, 776, 775, 389, 0x8000_0000_0000, 10_0000, 4968_0578_9536_2269, false)
    case 1797 => Power(699_1919_9019_7142_6076, 776, 775, 389, 0x4000_0000_0000, 10_0000, 9936_1157_9072_4537, false)
    case 1798 => Power(699_1919_9019_7142_6076, 776, 775, 389, 0x2000_0000_0000, 10_0000, 1_9872_2315_8144_9074, false)
    case 1799 => Power(699_1919_9019_7142_6076, 776, 775, 389, 0x1000_0000_0000, 100_0000, 3974_4463_1628_9815, false)
    case _ => Power(699_1919_9019_7142_6076, 776, 775, 389, 0x800_0000_0000, 1000_0000, 794_8892_6325_7963, false)
  }

  function Rows1801(be: int): bool {
    match be
    case 1801 => Power(699_1919_9019_7142_6076, 776, 775, 389, 0x400_0000_0000, 1000_0000, 1589_7785_2651_5926, false)
    case 1802 => Power(699_1919_9019_7142_6076, 776, 775, 389, 0x200_0000_0000, 1000_0000, 3179_5570_5303_1852, false)
    case 1803 => Power(699_1919_9019_7142_6076, 776, 775, 389, 0x100_0000_0000, 1000_0000, 6359_1141_0606_3704, false)
    case 1804 => Power(699_1919_9019_7142_6076, 776, 775, 389, 0x80_0000_0000, 1000_0000, 1_2718_2282_1212_7408, false)
    case 1805 => Power(699_1919_9019_7142_6076, 776, 775, 389, 0x40_0000_0000, 1000_0000, 2_5436_4564_2425_4815, false)
    case 1806 => Power(699_1919_9019_7142_6076, 776, 775, 389, 0x20_0000_0000, 1_0000_0000, 5087_2912_8485_0963, false)
    case 1807 =>
      Power(699_1919_9019_7142_6076, 776, 775, 389, 0x10_0000_0000, 1_0000_0000, 1_0174_5825_6970_1926, false)
    case _ => Power(699_1919_9019_7142_6076, 776, 775, 389, 0x8_0000_0000, 10_0000_0000, 2034_9165_1394_0385, true)
  }

  lemma Settled15(be: nat)
    requires 1783 <= be < 1809
    ensures Settled(be, Misread(be))
  {
    hide HalfUlp, Serves, Normalized, Pow, PowerOfTen, Refuted, Candidate, Row, Settled;
    assert Entry(15) == DiyFp(0xc210_9436_4dfb_5637, -821)
        && !OtherBounds(0xc210_9436_4dfb_5637, 699_1919_9019_7142_6076, 776, 775, 389);
    hide OtherBounds, Entry;
    PowersOfTwoThatOccur();
    PowersOfTenThatOccur();
    RowsHold();
    var row := if be < 1792 then Rows1783(be) else if be < 1801 then Rows1792(be) else Rows1801(be);
    assert Row(699_1919_9019_7142_6076, 776, 775, 389, Pow(2, 1843 - be), Misread(be));
    hide Misread;
    Settle(be, 15, 1783, 1809, 699_1919_9019_7142_6076, 776, 775, 389, Misread(be));
  }

  function Rows1809(be: int): bool {
    match be
    case 1809 => Power(469_2198_0180_0293_7644, 520, 519, 261, 0x1000_0000_0000_0000, 100, 406_9833_0278_8077, true)
    case 1810 => Power(469_2198_0180_0293_7644, 520, 519, 261, 0x800_0000_0000_0000, 100, 813_9666_0557_6154, true)
    case 1811 => Power(469_2198_0180_0293_7644, 520, 519, 261, 0x400_0000_0000_0000, 100, 1627_9332_1115_2308, true)
    case 1812 => Power(469_2198_0180_0293_7644, 520, 519, 261, 0x200_0000_0000_0000, 100, 3255_8664_2230_4616, true)
    case 1813 => Power(469_2198_0180_0293_7644, 520, 519, 261, 0x100_0000_0000_0000, 100, 6511_7328_4460_9233, false)
    case 1814 => Power(469_2198_0180_0293_7644, 520, 519, 261, 0x80_0000_0000_0000, 100, 1_3023_4656_8921_8465, false)
    case 1815 => Power(469_2198_0180_0293_7644, 520, 519, 261, 0x40_0000_0000_0000, 1000, 2604_6931_3784_3693, false)
    case 1816 => Power(469_2198_0180_0293_7644, 520, 519, 261, 0x20_0000_0000_0000, 1000, 5209_3862_7568_7386, false)
    case _ => Power(469_2198_0180_0293_7644, 520, 519, 261, 0x10_0000_0000_0000, 1000, 1_0418_7725_5137_4772, false)
  }

  function Rows1818(be: int): bool {
    match be
    case 1818 => Power(469_2198_0180_0293_7644, 520, 519, 261, 0x8_0000_0000_0000, 1000, 2_0837_5451_0274_9545, false)
    case 1819 => Power(469_2198_0180_0293_7644, 520, 519, 261, 0x4_0000_0000_0000, 1_0000, 4167_5090_2054_9909, false)
    case 1820 => Power(469_2198_0180_0293_7644, 520, 519, 261, 0x2_0000_0000_0000, 1_0000, 8335_0180_4109_9818, false)
    case 1821 => Power(469_2198_0180_0293_7644, 520, 519, 261, 0x1_0000_0000_0000, 1_0000, 1_6670_0360_8219_9636, false)
    case 1822 => Power(469_2198_0180_0293_7644, 520, 519, 261, 0x8000_0000_0000, 10_0000, 3334_0072_1643_9927, false)
    case 1823 => Power(469_2198_0180_0293_7644, 520, 519, 261, 0x4000_0000_0000, 10_0000, 6668_0144_3287_9854, false)
    case 1824 => Power(469_2198_0180_0293_7644, 520, 519, 261, 0x2000_0000_0000, 100_0000, 1333_6028_8657_5971, false)
    case 1825 => Power(469_2198_0180_0293_7644, 520, 519, 261, 0x1000_0000_0000, 100_0000, 2667_2057_7315_1942, false)
    case _ => Power(469_2198_0180_0293_7644, 520, 519, 261, 0x800_0000_0000, 100_0000, 5334_4115_4630_3883, true)
  }

  function Rows1827(be: int): bool {
    match be
    case 1827 => Power(469_2198_0180_0293_7644, 520, 519, 261, 0x400_0000_0000, 100_0000, 1_0668_8230_9260_7767, false)
    case 1828 => Power(469_2198_0180_0293_7644, 520, 519, 261, 0x200_0000_0000, 100_0000, 2_1337_6461_8521_5534, false)
    case 1829 => Power(469_2198_0180_0293_7644, 520, 519, 261, 0x100_0000_0000, 1000_0000, 4267_5292_3704_3107, false)
    case 1830 => Power(469_2198_0180_0293_7644, 520, 519, 261, 0x80_0000_0000, 1000_0000, 8535_0584_7408_6213, false)
    case 1831 => Power(469_2198_0180_0293_7644, 520, 519, 261, 0x40_0000_0000, 1000_0000, 1_7070_1169_4817_2427, false)
    case 1832 => Power(469_2198_0180_0293_7644, 520, 519, 261, 0x20_0000_0000, 1000_0000, 3_4140_2338_9634_4854, false)
    case 1833 => Power(469_2198_0180_0293_7644, 520, 519, 261, 0x10_0000_0000, 1_0000_0000, 6828_0467_7926_8971, false)
    case 1834 => Power(469_2198_0180_0293_7644, 520, 519, 261, 0x8_0000_0000, 1_0000_0000, 1_3656_0935_5853_7942, false)
    case _ => Power(469_2198_0180_0293_7644, 520, 519, 261, 0x4_0000_0000, 1_0000_0000, 2_7312_1871_1707_5883, false)
  }

  lemma Settled14(be: nat)
    requires 1809 <= be < 1836
    ensures Settled(be, Misread(be))
  {
    hide HalfUlp, Serves, Normalized, Pow, PowerOfTen, Refuted, Candidate, Row, Settled;
    assert Entry(14) == DiyFp(0x823c_1279_5db6_ce57, -847)
        && !OtherBounds(0x823c_1279_5db6_ce57, 469_2198_0180_0293_7644, 520, 519, 261);
    hide OtherBounds, Entry;
    PowersOfTwoThatOccur();
    PowersOfTenThatOccur();
    RowsHold();
    var row := if be < 1818 then Rows1809(be) else if be < 1827 then Rows1818(be) else Rows1827(be);
    assert Row(469_2198_0180_0293_7644, 520, 519, 261, Pow(2, 1869 - be), Misread(be));
    hide Misread;
    Settle(be, 14, 1809, 1836, 469_2198_0180_0293_7644, 520, 519, 261, Misread(be));
  }

  function Rows1836(be: int): bool {
    match be
    case 1836 => Power(629_7761_5730_2457_3879, 699, 698, 350, 0x1000_0000_0000_0000, 10, 5462_4374_2341_5177, false)
    case 1837 => Power(629_7761_5730_2457_3879, 699, 698, 350, 0x800_0000_0000_0000, 10, 1_0924_8748_4683_0353, false)
    case 1838 => Power(629_7761_5730_2457_3879, 699, 698, 350, 0x400_0000_0000_0000, 10, 2_1849_7496_9366_0706, false)
    case 1839 => Power(629_7761_5730_2457_3879, 699, 698, 350, 0x200_0000_0000_0000, 100, 4369_9499_3873_2141, true)
    case 1840 => Power(629_7761_5730_2457_3879, 699, 698, 350, 0x100_0000_0000_0000, 100, 8739_8998_7746_4283, false)
    case 1841 => Power(629_7761_5730_2457_3879, 699, 698, 350, 0x80_0000_0000_0000, 100, 1_7479_7997_5492_8565, false)
    case 1842 => Power(629_7761_5730_2457_3879, 699, 698, 350, 0x40_0000_0000_0000, 1000, 3495_9599_5098_5713, false)
    case 1843 => Power(629_7761_5730_2457_3879, 699, 698, 350, 0x20_0000_0000_0000, 1000, 6991_9199_0197_1426, false)
    case _ => Power(629_7761_5730_2457_3879, 699, 698, 350, 0x10_0000_0000_0000, 1000, 1_3983_8398_0394_2852, false)
  }

  function Rows1845(be: int): bool {
    match be
    case 1845 => Power(629_7761_5730_2457_3879, 699, 698, 350, 0x8_0000_0000_0000, 1000, 2_7967_6796_0788_5704, false)
    case 1846 => Power(629_7761_5730_2457_3879, 699, 698, 350, 0x4_0000_0000_0000, 1_0000, 5593_5359_2157_7141, false)
    case 1847 => Power(629_7761_5730_2457_3879, 699, 698, 350, 0x2_0000_0000_0000, 1_0000, 1_1187_0718_4315_4282, false)
    case 1848 => Power(629_7761_5730_2457_3879, 699, 698, 350, 0x1_0000_0000_0000, 1_0000, 2_2374_1436_8630_8563, false)
    case 1849 => Power(629_7761_5730_2457_3879, 699, 698, 350, 0x8000_0000_0000, 10_0000, 4474_8287_3726_1713, false)
    case 1850 => Power(629_7761_5730_2457_3879, 699, 698, 350, 0x4000_0000_0000, 10_0000, 8949_6574_7452_3425, false)
    case 1851 => Power(629_7761_5730_2457_3879, 699, 698, 350, 0x2000_0000_0000, 100_0000, 1789_9314_9490_4685, false)
    case 1852 => Power(629_7761_5730_2457_3879, 699, 698, 350, 0x1000_0000_0000, 1000_0000, 357_9862_9898_0937, false)
    case _ => Power(629_7761_5730_2457_3879, 699, 698, 350, 0x800_0000_0000, 1000_0000, 715_9725_9796_1874, false)
  }

  function Rows1854(be: int): bool {
    match be
    case 1854 => Power(629_7761_5730_2457_3879, 699, 698, 350, 0x400_0000_0000, 1000_0000, 1431_9451_9592_3748, false)
    case 1855 => Power(629_7761_5730_2457_3879, 699, 698, 350, 0x200_0000_0000, 1000_0000, 2863_8903_9184_7496, false)
    case 1856 => Power(629_7761_5730_2457_3879, 699, 698, 350, 0x100_0000_0000, 1000_0000, 5727_7807_8369_4992, false)
    case 1857 => Power(629_7761_5730_2457_3879, 699, 698, 350, 0x80_0000_0000, 1000_0000, 1_1455_5615_6738_9984, false)
    case 1858 => Power(629_7761_5730_2457_3879, 699, 698, 350, 0x40_0000_0000, 1_0000_0000, 2291_1123_1347_7997, false)
    case 1859 => Power(629_7761_5730_2457_3879, 699, 698, 350, 0x20_0000_0000, 1_0000_0000, 4582_2246_2695_5994, false)
    case 1860 => Power(629_7761_5730_2457_3879, 699, 698, 350, 0x10_0000_0000, 1_0000_0000, 9164_4492_5391_1988, false)
    case 1861 => Power(629_7761_5730_2457_3879, 699, 698, 350, 0x8_0000_0000, 1_0000_0000, 1_8328_8985_0782_3975, false)
    case _ => Power(629_7761_5730_2457_3879, 699, 698, 350, 0x4_0000_0000, 10_0000_0000, 3665_7797_0156_4795, false)
  }

  lemma Settled13(be: nat)
    requires 1836 <= be < 1863
    ensures Settled(be, Misread(be))
  {
    hide HalfUlp, Serves, Normalized, Pow, PowerOfTen, Refuted, Candidate, Row, Settled;
    assert Entry(13) == DiyFp(0xaecc_4991_4078_536d, -874)
        && !OtherBounds(0xaecc_4991_4078_536d, 629_7761_5730_2457_3879, 699, 698, 350);
    hide OtherBounds, Entry;
    PowersOfTwoThatOccur();
    PowersOfTenThatOccur();
    RowsHold();
    var row := if be < 1845 then Rows1836(be) else if be < 1854 then Rows1845(be) else Rows1854(be);
    assert Row(629_7761_5730_2457_3879, 699, 698, 350, Pow(2, 1896 - be), Misread(be));
    hide Misread;
    Settle(be, 13, 1836, 1863, 629_7761_5730_2457_3879, 699, 698, 350, Misread(be));
  }

  function Rows1863(be: int): bool {
    match be
    case 1863 => Power(845_2712_4981_7064_3942, 938, 937, 470, 0x1000_0000_0000_0000, 100, 733_1559_4031_2959, false)
    case 1864 => Power(845_2712_4981_7064_3942, 938, 937, 470, 0x800_0000_0000_0000, 100, 1466_3118_8062_5918, false)
    case 1865 => Power(845_2712_4981_7064_3942, 938, 937, 470, 0x400_0000_0000_0000, 100, 2932_6237_6125_1836, false)
    case 1866 => Power(845_2712_4981_7064_3942, 938, 937, 470, 0x200_0000_0000_0000, 100, 5865_2475_2250_3672, false)
    case 1867 => Power(845_2712_4981_7064_3942, 938, 937, 470, 0x100_0000_0000_0000, 100, 1_1730_4950_4500_7344, false)
    case 1868 => Power(845_2712_4981_7064_3942, 938, 937, 470, 0x80_0000_0000_0000, 1000, 2346_0990_0900_1469, false)
    case 1869 => Power(845_2712_4981_7064_3942, 938, 937, 470, 0x40_0000_0000_0000, 1000, 4692_1980_1800_2938, false)
    case 1870 => Power(845_2712_4981_7064_3942, 938, 937, 470, 0x20_0000_0000_0000, 1000, 9384_3960_3600_5875, false)
    case _ => Power(845_2712_4981_7064_3942, 938, 937, 470, 0x10_0000_0000_0000, 1_0000, 1876_8792_0720_1175, false)
  }

  function Rows1872(be: int): bool {
    match be
    case 1872 => Power(845_2712_4981_7064_3942, 938, 937, 470, 0x8_0000_0000_0000, 10_0000, 375_3758_4144_0235, false)
    case 1873 => Power(845_2712_4981_7064_3942, 938, 937, 470, 0x4_0000_0000_0000, 100_0000, 75_0751_6828_8047, false)
    case 1874 => Power(845_2712_4981_7064_3942, 938, 937, 470, 0x2_0000_0000_0000, 100_0000, 150_1503_3657_6094, false)
    case 1875 => Power(845_2712_4981_7064_3942, 938, 937, 470, 0x1_0000_0000_0000, 100_0000, 300_3006_7315_2188, false)
    case 1876 => Power(845_2712_4981_7064_3942, 938, 937, 470, 0x8000_0000_0000, 100_0000, 600_6013_4630_4376, false)
    case 1877 => Power(845_2712_4981_7064_3942, 938, 937, 470, 0x4000_0000_0000, 100_0000, 1201_2026_9260_8752, false)
    case 1878 => Power(845_2712_4981_7064_3942, 938, 937, 470, 0x2000_0000_0000, 100_0000, 2402_4053_8521_7504, false)
    case 1879 => Power(845_2712_4981_7064_3942, 938, 937, 470, 0x1000_0000_0000, 100_0000, 4804_8107_7043_5008, false)
    case _ => Power(845_2712_4981_7064_3942, 938, 937, 470, 0x800_0000_0000, 100_0000, 9609_6215_4087_0016, false)
  }

  function Rows1881(be: int): bool {
    match be
    case 1881 => Power(845_2712_4981_7064_3942, 938, 937, 470, 0x400_0000_0000, 100_0000, 1_9219_2430_8174_0033, false)
    case 1882 => Power(845_2712_4981_7064_3942, 938, 937, 470, 0x200_0000_0000, 100_0000, 3_8438_4861_6348_0065, false)
    case 1883 => Power(845_2712_4981_7064_3942, 938, 937, 470, 0x100_0000_0000, 1000_0000, 7687_6972_3269_6013, false)
    case 1884 => Power(845_2712_4981_7064_3942, 938, 937, 470, 0x80_0000_0000, 1000_0000, 1_5375_3944_6539_2026, false)
    case 1885 => Power(845_2712_4981_7064_3942, 938, 937, 470, 0x40_0000_0000, 1_0000_0000, 3075_0788_9307_8405, true)
    case 1886 => Power(845_2712_4981_7064_3942, 938, 937, 470, 0x20_0000_0000, 10_0000_0000, 615_0157_7861_5681, true)
    case 1887 => Power(845_2712_4981_7064_3942, 938, 937, 470, 0x10_0000_0000, 10_0000_0000, 1230_0315_5723_1362, true)
    case _ => Power(845_2712_4981_7064_3942, 938, 937, 470, 0x8_0000_0000, 10_0000_0000, 2460_0631_1446_2724, true)
  }

  lemma Settled12(be: nat)
    requires 1863 <= be < 1889
    ensures Settled(be, Misread(be))
  {
    hide HalfUlp, Serves, Normalized, Pow, PowerOfTen, Refuted, Candidate, Row, Settled;
    assert Entry(12) == DiyFp(0xea9c_2277_23ee_8bcb, -901)
        && !OtherBounds(0xea9c_2277_23ee_8bcb, 845_2712_4981_7064_3942, 938, 937, 470);
    hide OtherBounds, Entry;
    PowersOfTwoThatOccur();
    PowersOfTenThatOccur();
    RowsHold();
    var row := if be < 1872 then Rows1863(be) else if be < 1881 then Rows1872(be) else Rows1881(be);
    assert Row(845_2712_4981_7064_3942, 938, 937, 470, Pow(2, 1923 - be), Misread(be));
    hide Misread;
    Settle(be, 12, 1863, 1889, 845_2712_4981_7064_3942, 938, 937, 470, Misread(be));
  }

  function Rows1889(be: int): bool {
    match be
    case 1889 => Power(567_2519_3347_0833_9931, 629, 628, 315, 0x1000_0000_0000_0000, 10, 4920_1262_2892_5448, true)
    case 1890 => Power(567_2519_3347_0833_9931, 629, 628, 315, 0x800_0000_0000_0000, 10, 9840_2524_5785_0897, false)
    case 1891 => Power(567_2519_3347_0833_9931, 629, 628, 315, 0x400_0000_0000_0000, 10, 1_9680_5049_1570_1793, false)
    case 1892 => Power(567_2519_3347_0833_9931, 629, 628, 315, 0x200_0000_0000_0000, 100, 3936_1009_8314_0359, false)
    case 1893 => Power(567_2519_3347_0833_9931, 629, 628, 315, 0x100_0000_0000_0000, 100, 7872_2019_6628_0717, false)
    case 1894 => Power(567_2519_3347_0833_9931, 629, 628, 315, 0x80_0000_0000_0000, 100, 1_5744_4039_3256_1435, false)
    case 1895 => Power(567_2519_3347_0833_9931, 629, 628, 315, 0x40_0000_0000_0000, 1000, 3148_8807_8651_2287, false)
    case 1896 => Power(567_2519_3347_0833_9931, 629, 628, 315, 0x20_0000_0000_0000, 1000, 6297_7615_7302_4574, false)
    case _ => Power(567_2519_3347_0833_9931, 629, 628, 315, 0x10_0000_0000_0000, 1000, 1_2595_5231_4604_9148, false)
  }

  function Rows1898(be: int): bool {
    match be
    case 1898 => Power(567_2519_3347_0833_9931, 629, 628, 315, 0x8_0000_0000_0000, 1000, 2_5191_0462_9209_8296, false)
    case 1899 => Power(567_2519_3347_0833_9931, 629, 628, 315, 0x4_0000_0000_0000, 1_0000, 5038_2092_5841_9659, false)
    case 1900 => Power(567_2519_3347_0833_9931, 629, 628, 315, 0x2_0000_0000_0000, 1_0000, 1_0076_4185_1683_9318, false)
    case 1901 => Power(567_2519_3347_0833_9931, 629, 628, 315, 0x1_0000_0000_0000, 1_0000, 2_0152_8370_3367_8636, false)
    case 1902 => Power(567_2519_3347_0833_9931, 629, 628, 315, 0x8000_0000_0000, 10_0000, 4030_5674_0673_5727, true)
    case 1903 => Power(567_2519_3347_0833_9931, 629, 628, 315, 0x4000_0000_0000, 10_0000, 8061_1348_1347_1455, false)
    case 1904 => Power(567_2519_3347_0833_9931, 629, 628, 315, 0x2000_0000_0000, 100_0000, 1612_2269_6269_4291, false)
    case 1905 => Power(567_2519_3347_0833_9931, 629, 628, 315, 0x1000_0000_0000, 100_0000, 3224_4539_2538_8582, false)
    case _ => Power(567_2519_3347_0833_9931, 629, 628, 315, 0x800_0000_0000, 100_0000, 6448_9078_5077_7164, false)
  }

  function Rows1907(be: int): bool {
    match be
    case 1907 => Power(567_2519_3347_0833_9931, 629, 628, 315, 0x400_0000_0000, 100_0000, 1_2897_8157_0155_4327, false)
    case 1908 => Power(567_2519_3347_0833_9931, 629, 628, 315, 0x200_0000_0000, 100_0000, 2_5795_6314_0310_8655, false)
    case 1909 => Power(567_2519_3347_0833_9931, 629, 628, 315, 0x100_0000_0000, 1000_0000, 5159_1262_8062_1731, false)
    case 1910 => Power(567_2519_3347_0833_9931, 629, 628, 315, 0x80_0000_0000, 1000_0000, 1_0318_2525_6124_3462, false)
    case 1911 => Power(567_2519_3347_0833_9931, 629, 628, 315, 0x40_0000_0000, 1000_0000, 2_0636_5051_2248_6924, false)
    case 1912 => Power(567_2519_3347_0833_9931, 629, 628, 315, 0x20_0000_0000, 1_0000_0000, 4127_3010_2449_7385, false)
    case 1913 => Power(567_2519_3347_0833_9931, 629, 628, 315, 0x10_0000_0000, 10_0000_0000, 825_4602_0489_9477, false)
    case 1914 => Power(567_2519_3347_0833_9931, 629, 628, 315, 0x8_0000_0000, 10_0000_0000, 1650_9204_0979_8954, false)
    case _ => Power(567_2519_3347_0833_9931, 629, 628, 315, 0x4_0000_0000, 10_0000_0000, 3301_8408_1959_7908, false)
  }

  lemma Settled11(be: nat)
    requires 1889 <= be < 1916
    ensures Settled(be, Misread(be))
  {
    hide HalfUlp, Serves, Normalized, Pow, PowerOfTen, Refuted, Candidate, Row, Settled;
    assert Entry(11) == DiyFp(0x9d71_ac8f_ada6_c9b5, -927)
        && !OtherBounds(0x9d71_ac8f_ada6_c9b5, 567_2519_3347_0833_9931, 629, 628, 315);
    hide OtherBounds, Entry;
    PowersOfTwoThatOccur();
    PowersOfTenThatOccur();
    RowsHold();
    var row := if be < 1898 then Rows1889(be) else if be < 1907 then Rows1898(be) else Rows1907(be);
    assert Row(567_2519_3347_0833_9931, 629, 628, 315, Pow(2, 1949 - be), Misread(be));
    hide Misread;
    Settle(be, 11, 1889, 1916, 567_2519_3347_0833_9931, 629, 628, 315, Misread(be));
  }

  function Rows1916(be: int): bool {
    match be
    case 1916 => Power(761_3526_5714_0624_9282, 845, 844, 423, 0x1000_0000_0000_0000, 10, 6603_6816_3919_5816, false)
    case 1917 => Power(761_3526_5714_0624_9282, 845, 844, 423, 0x800_0000_0000_0000, 100, 1320_7363_2783_9163, true)
    case 1918 => Power(761_3526_5714_0624_9282, 845, 844, 423, 0x400_0000_0000_0000, 100, 2641_4726_5567_8326, true)
    case 1919 => Power(761_3526_5714_0624_9282, 845, 844, 423, 0x200_0000_0000_0000, 100, 5282_9453_1135_6652, true)
    case 1920 => Power(761_3526_5714_0624_9282, 845, 844, 423, 0x100_0000_0000_0000, 100, 1_0565_8906_2271_3305, false)
    case 1921 => Power(761_3526_5714_0624_9282, 845, 844, 423, 0x80_0000_0000_0000, 1000, 2113_1781_2454_2661, false)
    case 1922 => Power(761_3526_5714_0624_9282, 845, 844, 423, 0x40_0000_0000_0000, 1000, 4226_3562_4908_5322, false)
    case 1923 => Power(761_3526_5714_0624_9282, 845, 844, 423, 0x20_0000_0000_0000, 1000, 8452_7124_9817_0644, false)
    case _ => Power(761_3526_5714_0624_9282, 845, 844, 423, 0x10_0000_0000_0000, 1000, 1_6905_4249_9634_1288, false)
  }

  function Rows1925(be: int): bool {
    match be
    case 1925 => Power(761_3526_5714_0624_9282, 845, 844, 423, 0x8_0000_0000_0000, 1000, 3_3810_8499_9268_2576, false)
    case 1926 => Power(761_3526_5714_0624_9282, 845, 844, 423, 0x4_0000_0000_0000, 1_0000, 6762_1699_9853_6515, false)
    case 1927 => Power(761_3526_5714_0624_9282, 845, 844, 423, 0x2_0000_0000_0000, 10_0000, 1352_4339_9970_7303, false)
    case 1928 => Power(761_3526_5714_0624_9282, 845, 844, 423, 0x1_0000_0000_0000, 10_0000, 2704_8679_9941_4606, false)
    case 1929 => Power(761_3526_5714_0624_9282, 845, 844, 423, 0x8000_0000_0000, 10_0000, 5409_7359_9882_9212, false)
    case 1930 => Power(761_3526_5714_0624_9282, 845, 844, 423, 0x4000_0000_0000, 10_0000, 1_0819_4719_9765_8424, false)
    case 1931 => Power(761_3526_5714_0624_9282, 845, 844, 423, 0x2000_0000_0000, 100_0000, 2163_8943_9953_1685, false)
    case 1932 => Power(761_3526_5714_0624_9282, 845, 844, 423, 0x1000_0000_0000, 1000_0000, 432_7788_7990_6337, false)
    case _ => Power(761_3526_5714_0624_9282, 845, 844, 423, 0x800_0000_0000, 1000_0000, 865_5577_5981_2674, false)
  }

  function Rows1934(be: int): bool {
    match be
    case 1934 => Power(761_3526_5714_0624_9282, 845, 844, 423, 0x400_0000_0000, 1000_0000, 1731_1155_1962_5348, false)
    case 1935 => Power(761_3526_5714_0624_9282, 845, 844, 423, 0x200_0000_0000, 1000_0000, 3462_2310_3925_0696, false)
    case 1936 => Power(761_3526_5714_0624_9282, 845, 844, 423, 0x100_0000_0000, 1000_0000, 6924_4620_7850_1392, false)
    case 1937 => Power(761_3526_5714_0624_9282, 845, 844, 423, 0x80_0000_0000, 1000_0000, 1_3848_9241_5700_2783, false)
    case 1938 => Power(761_3526_5714_0624_9282, 845, 844, 423, 0x40_0000_0000, 1000_0000, 2_7697_8483_1400_5566, false)
    case 1939 => Power(761_3526_5714_0624_9282, 845, 844, 423, 0x20_0000_0000, 1_0000_0000, 5539_5696_6280_1113, false)
    case 1940 =>
      Power(761_3526_5714_0624_9282, 845, 844, 423, 0x10_0000_0000, 1_0000_0000, 1_1079_1393_2560_2226, false)
    case _ => Power(761_3526_5714_0624_9282, 845, 844, 423, 0x8_0000_0000, 1_0000_0000, 2_2158_2786_5120_4453, false)
  }

  lemma Settled10(be: nat)
    requires 1916 <= be < 1942
    ensures Settled(be, Misread(be))
  {
    hide HalfUlp, Serves, Normalized, Pow, PowerOfTen, Refuted, Candidate, Row, Settled;
    assert Entry(10) == DiyFp(0xd351_5c28_3155_9a83, -954)
        && !OtherBounds(0xd351_5c28_3155_9a83, 761_3526_5714_0624_9282, 845, 844, 423);
    hide OtherBounds, Entry;
    PowersOfTwoThatOccur();
    PowersOfTenThatOccur();
    RowsHold();
    var row := if be < 1925 then Rows1916(be) else if be < 1934 then Rows1925(be) else Rows1934(be);
    assert Row(761_3526_5714_0624_9282, 845, 844, 423, Pow(2, 1976 - be), Misread(be));
    hide Misread;
    Settle(be, 10, 1916, 1942, 761_3526_5714_0624_9282, 845, 844, 423, Misread(be));
  }

  function Rows1942(be: int): bool {
    match be
    case 1942 => Power(510_9351_1924_0888_2718, 566, 566, 284, 0x1000_0000_0000_0000, 10, 4431_6557_3024_0891, false)
    case 1943 => Power(510_9351_1924_0888_2718, 566, 566, 284, 0x800_0000_0000_0000, 10, 8863_3114_6048_1781, false)
    case 1944 => Power(510_9351_1924_0888_2718, 566, 566, 284, 0x400_0000_0000_0000, 10, 1_7726_6229_2096_3562, false)
    case 1945 => Power(510_9351_1924_0888_2718, 566, 566, 284, 0x200_0000_0000_0000, 10, 3_5453_2458_4192_7125, false)
    case 1946 => Power(510_9351_1924_0888_2718, 566, 566, 284, 0x100_0000_0000_0000, 100, 7090_6491_6838_5425, false)
    case 1947 => Power(510_9351_1924_0888_2718, 566, 566, 284, 0x80_0000_0000_0000, 1000, 1418_1298_3367_7085, false)
    case 1948 => Power(510_9351_1924_0888_2718, 566, 566, 284, 0x40_0000_0000_0000, 1_0000, 283_6259_6673_5417, false)
    case 1949 => Power(510_9351_1924_0888_2718, 566, 566, 284, 0x20_0000_0000_0000, 1_0000, 567_2519_3347_0834, false)
    case _ => Power(510_9351_1924_0888_2718, 566, 566, 284, 0x10_0000_0000_0000, 1_0000, 1134_5038_6694_1668, false)
  }

  function Rows1951(be: int): bool {
    match be
    case 1951 => Power(510_9351_1924_0888_2718, 566, 566, 284, 0x8_0000_0000_0000, 1_0000, 2269_0077_3388_3336, false)
    case 1952 => Power(510_9351_1924_0888_2718, 566, 566, 284, 0x4_0000_0000_0000, 1_0000, 4538_0154_6776_6672, false)
    case 1953 => Power(510_9351_1924_0888_2718, 566, 566, 284, 0x2_0000_0000_0000, 1_0000, 9076_0309_3553_3344, false)
    case 1954 => Power(510_9351_1924_0888_2718, 566, 566, 284, 0x1_0000_0000_0000, 1_0000, 1_8152_0618_7106_6688, false)
    case 1955 => Power(510_9351_1924_0888_2718, 566, 566, 284, 0x8000_0000_0000, 1_0000, 3_6304_1237_4213_3376, false)
    case 1956 => Power(510_9351_1924_0888_2718, 566, 566, 284, 0x4000_0000_0000, 10_0000, 7260_8247_4842_6675, false)
    case 1957 => Power(510_9351_1924_0888_2718, 566, 566, 284, 0x2000_0000_0000, 100_0000, 1452_1649_4968_5335, false)
    case 1958 => Power(510_9351_1924_0888_2718, 566, 566, 284, 0x1000_0000_0000, 1000_0000, 290_4329_8993_7067, false)
    case _ => Power(510_9351_1924_0888_2718, 566, 566, 284, 0x800_0000_0000, 1000_0000, 580_8659_7987_4134, false)
  }

  function Rows1960(be: int): bool {
    match be
    case 1960 => Power(510_9351_1924_0888_2718, 566, 566, 284, 0x400_0000_0000, 1000_0000, 1161_7319_5974_8268, false)
    case 1961 => Power(510_9351_1924_0888_2718, 566, 566, 284, 0x200_0000_0000, 1000_0000, 2323_4639_1949_6536, false)
    case 1962 => Power(510_9351_1924_0888_2718, 566, 566, 284, 0x100_0000_0000, 1000_0000, 4646_9278_3899_3072, false)
    case 1963 => Power(510_9351_1924_0888_2718, 566, 566, 284, 0x80_0000_0000, 1000_0000, 9293_8556_7798_6144, false)
    case 1964 => Power(510_9351_1924_0888_2718, 566, 566, 284, 0x40_0000_0000, 1_0000_0000, 1858_7711_3559_7229, false)
    case 1965 => Power(510_9351_1924_0888_2718, 566, 566, 284, 0x20_0000_0000, 1_0000_0000, 3717_5422_7119_4458, false)
    case 1966 => Power(510_9351_1924_0888_2718, 566, 566, 284, 0x10_0000_0000, 1_0000_0000, 7435_0845_4238_8915, false)
    case 1967 => Power(510_9351_1924_0888_2718, 566, 566, 284, 0x8_0000_0000, 10_0000_0000, 1487_0169_0847_7783, false)
    case _ => Power(510_9351_1924_0888_2718, 566, 566, 284, 0x4_0000_0000, 10_0000_0000, 2974_0338_1695_5566, false)
  }

  lemma Settled9(be: nat)
    requires 1942 <= be < 1969
    ensures Settled(be, Misread(be))
  {
    hide HalfUlp, Serves, Normalized, Pow, PowerOfTen, Refuted, Candidate, Row, Settled;
    assert Entry(9) == DiyFp(0x8dd0_1fad_907f_fc3c, -980)
        && !OtherBounds(0x8dd0_1fad_907f_fc3c, 510_9351_1924_0888_2718, 566, 566, 284);
    hide OtherBounds, Entry;
    PowersOfTwoThatOccur();
    PowersOfTenThatOccur();
    RowsHold();
    var row := if be < 1951 then Rows1942(be) else if be < 1960 then Rows1951(be) else Rows1960(be);
    assert Row(510_9351_1924_0888_2718, 566, 566, 284, Pow(2, 2002 - be), Misread(be));
    hide Misread;
    Settle(be, 9, 1942, 1969, 510_9351_1924_0888_2718, 566, 566, 284, Misread(be));
  }

  function Rows1969(be: int): bool {
    match be
    case 1969 => Power(685_7655_0859_9211_0854, 760, 760, 381, 0x1000_0000_0000_0000, 10, 5948_0676_3391_1132, false)
    case 1970 => Power(685_7655_0859_9211_0854, 760, 760, 381, 0x800_0000_0000_0000, 10, 1_1896_1352_6782_2265, false)
    case 1971 => Power(685_7655_0859_9211_0854, 760, 760, 381, 0x400_0000_0000_0000, 100, 2379_2270_5356_4453, false)
    case 1972 => Power(685_7655_0859_9211_0854, 760, 760, 381, 0x200_0000_0000_0000, 100, 4758_4541_0712_8906, false)
    case 1973 => Power(685_7655_0859_9211_0854, 760, 760, 381, 0x100_0000_0000_0000, 100, 9516_9082_1425_7812, false)
    case 1974 => Power(685_7655_0859_9211_0854, 760, 760, 381, 0x80_0000_0000_0000, 100, 1_9033_8164_2851_5623, false)
    case 1975 => Power(685_7655_0859_9211_0854, 760, 760, 381, 0x40_0000_0000_0000, 1000, 3806_7632_8570_3125, false)
    case 1976 => Power(685_7655_0859_9211_0854, 760, 760, 381, 0x20_0000_0000_0000, 1_0000, 761_3526_5714_0625, false)
    case _ => Power(685_7655_0859_9211_0854, 760, 760, 381, 0x10_0000_0000_0000, 10_0000, 152_2705_3142_8125, false)
  }

  function Rows1978(be: int): bool {
    match be
    case 1978 => Power(685_7655_0859_9211_0854, 760, 760, 381, 0x8_0000_0000_0000, 100_0000, 30_4541_0628_5625, false)
    case 1979 => Power(685_7655_0859_9211_0854, 760, 760, 381, 0x4_0000_0000_0000, 1000_0000, 6_0908_2125_7125, false)
    case 1980 => Power(685_7655_0859_9211_0854, 760, 760, 381, 0x2_0000_0000_0000, 1_0000_0000, 1_2181_6425_1425, false)
    case 1981 => Power(685_7655_0859_9211_0854, 760, 760, 381, 0x1_0000_0000_0000, 10_0000_0000, 2436_3285_0285, false)
    case 1982 => Power(685_7655_0859_9211_0854, 760, 760, 381, 0x8000_0000_0000, 100_0000_0000, 487_2657_0057, false)
    case 1983 => Power(685_7655_0859_9211_0854, 760, 760, 381, 0x4000_0000_0000, 100_0000_0000, 974_5314_0114, false)
    case 1984 => Power(685_7655_0859_9211_0854, 760, 760, 381, 0x2000_0000_0000, 100_0000_0000, 1949_0628_0228, false)
    case 1985 => Power(685_7655_0859_9211_0854, 760, 760, 381, 0x1000_0000_0000, 100_0000_0000, 3898_1256_0456, false)
    case _ => Power(685_7655_0859_9211_0854, 760, 760, 381, 0x800_0000_0000, 100_0000_0000, 7796_2512_0912, false)
  }

  function Rows1987(be: int): bool {
    match be
    case 1987 => Power(685_7655_0859_9211_0854, 760, 760, 381, 0x400_0000_0000, 100_0000_0000, 1_5592_5024_1824, false)
    case 1988 => Power(685_7655_0859_9211_0854, 760, 760, 381, 0x200_0000_0000, 100_0000_0000, 3_1185_0048_3648, false)
    case 1989 => Power(685_7655_0859_9211_0854, 760, 760, 381, 0x100_0000_0000, 100_0000_0000, 6_2370_0096_7296, false)
    case 1990 => Power(685_7655_0859_9211_0854, 760, 760, 381, 0x80_0000_0000, 100_0000_0000, 12_4740_0193_4592, false)
    case 1991 => Power(685_7655_0859_9211_0854, 760, 760, 381, 0x40_0000_0000, 100_0000_0000, 24_9480_0386_9184, false)
    case 1992 => Power(685_7655_0859_9211_0854, 760, 760, 381, 0x20_0000_0000, 100_0000_0000, 49_8960_0773_8368, false)
    case 1993 => Power(685_7655_0859_9211_0854, 760, 760, 381, 0x10_0000_0000, 100_0000_0000, 99_7920_1547_6736, false)
    case 1994 => Power(685_7655_0859_9211_0854, 760, 760, 381, 0x8_0000_0000, 100_0000_0000, 199_5840_3095_3472, false)
    case _ => Power(685_7655_0859_9211_0854, 760, 760, 381, 0x4_0000_0000, 100_0000_0000, 399_1680_6190_6944, false)
  }

  lemma Settled8(be: nat)
    requires 1969 <= be < 1996
    ensures Settled(be, Misread(be))
  {
    hide HalfUlp, Serves, Normalized, Pow, PowerOfTen, Refuted, Candidate, Row, Settled;
    assert Entry(8) == DiyFp(0xbe56_91ef_416b_d60c, -1007)
        && !OtherBounds(0xbe56_91ef_416b_d60c, 685_7655_0859_9211_0854, 760, 760, 381);
    hide OtherBounds, Entry;
    PowersOfTwoThatOccur();
    PowersOfTenThatOccur();
    RowsHold();
    var row := if be < 1978 then Rows1969(be) else if be < 1987 then Rows1978(be) else Rows1987(be);
    assert Row(685_7655_0859_9211_0854, 760, 760, 381, Pow(2, 2029 - be), Misread(be));
    hide Misread;
    Settle(be, 8, 1969, 1996, 685_7655_0859_9211_0854, 760, 760, 381, Misread(be));
  }

  function Rows1996(be: int): bool {
    match be
    case 1996 => Power(920_4188_8504_9505_7448, 1021, 1020, 511, 0x1000_0000_0000_0000, 100, 798_3361_2381_3888, false)
    case 1997 => Power(920_4188_8504_9505_7448, 1021, 1020, 511, 0x800_0000_0000_0000, 100, 1596_6722_4762_7776, false)
    case 1998 => Power(920_4188_8504_9505_7448, 1021, 1020, 511, 0x400_0000_0000_0000, 100, 3193_3444_9525_5552, false)
    case 1999 => Power(920_4188_8504_9505_7448, 1021, 1020, 511, 0x200_0000_0000_0000, 100, 6386_6889_9051_1103, true)
    case 2000 =>
      Power(920_4188_8504_9505_7448, 1021, 1020, 511, 0x100_0000_0000_0000, 100, 1_2773_3779_8102_2207, false)
    case 2001 => Power(920_4188_8504_9505_7448, 1021, 1020, 511, 0x80_0000_0000_0000, 100, 2_5546_7559_6204_4414, false)
    case 2002 => Power(920_4188_8504_9505_7448, 1021, 1020, 511, 0x40_0000_0000_0000, 1000, 5109_3511_9240_8883, false)
    case 2003 =>
      Power(920_4188_8504_9505_7448, 1021, 1020, 511, 0x20_0000_0000_0000, 1000, 1_0218_7023_8481_7765, false)
    case _ => Power(920_4188_8504_9505_7448, 1021, 1020, 511, 0x10_0000_0000_0000, 1_0000, 2043_7404_7696_3553, false)
  }

  function Rows2005(be: int): bool {
    match be
    case 2005 => Power(920_4188_8504_9505_7448, 1021, 1020, 511, 0x8_0000_0000_0000, 1_0000, 4087_4809_5392_7106, false)
    case 2006 => Power(920_4188_8504_9505_7448, 1021, 1020, 511, 0x4_0000_0000_0000, 1_0000, 8174_9619_0785_4212, false)
    case 2007 =>
      Power(920_4188_8504_9505_7448, 1021, 1020, 511, 0x2_0000_0000_0000, 1_0000, 1_6349_9238_1570_8425, false)
    case 2008 =>
      Power(920_4188_8504_9505_7448, 1021, 1020, 511, 0x1_0000_0000_0000, 10_0000, 3269_9847_6314_1685, false)
    case 2009 => Power(920_4188_8504_9505_7448, 1021, 1020, 511, 0x8000_0000_0000, 100_0000, 653_9969_5262_8337, false)
    case 2010 => Power(920_4188_8504_9505_7448, 1021, 1020, 511, 0x4000_0000_0000, 100_0000, 1307_9939_0525_6674, false)
    case 2011 => Power(920_4188_8504_9505_7448, 1021, 1020, 511, 0x2000_0000_0000, 100_0000, 2615_9878_1051_3348, false)
    case 2012 => Power(920_4188_8504_9505_7448, 1021, 1020, 511, 0x1000_0000_0000, 100_0000, 5231_9756_2102_6696, false)
    case _ => Power(920_4188_8504_9505_7448, 1021, 1020, 511, 0x800_0000_0000, 100_0000, 1_0463_9512_4205_3392, false)
  }

  function Rows2014(be: int): bool {
    match be
    case 2014 =>
      Power(920_4188_8504_9505_7448, 1021, 1020, 511, 0x400_0000_0000, 100_0000, 2_0927_9024_8410_6784, false)
    case 2015 => Power(920_4188_8504_9505_7448, 1021, 1020, 511, 0x200_0000_0000, 1000_0000, 4185_5804_9682_1357, false)
    case 2016 => Power(920_4188_8504_9505_7448, 1021, 1020, 511, 0x100_0000_0000, 1000_0000, 8371_1609_9364_2713, false)
    case 2017 =>
      Power(920_4188_8504_9505_7448, 1021, 1020, 511, 0x80_0000_0000, 1000_0000, 1_6742_3219_8728_5427, false)
    case 2018 =>
      Power(920_4188_8504_9505_7448, 1021, 1020, 511, 0x40_0000_0000, 1000_0000, 3_3484_6439_7457_0854, false)
    case 2019 =>
      Power(920_4188_8504_9505_7448, 1021, 1020, 511, 0x20_0000_0000, 1_0000_0000, 6696_9287_9491_4171, false)
    case 2020 =>
      Power(920_4188_8504_9505_7448, 1021, 1020, 511, 0x10_0000_0000, 1_0000_0000, 1_3393_8575_8982_8342, false)
    case _ => Power(920_4188_8504_9505_7448, 1021, 1020, 511, 0x8_0000_0000, 1_0000_0000, 2_6787_7151_7965_6683, false)
  }

  lemma Settled7(be: nat)
    requires 1996 <= be < 2022
    ensures Settled(be, Misread(be))
  {
    hide HalfUlp, Serves, Normalized, Pow, PowerOfTen, Refuted, Candidate, Row, Settled;
    assert Entry(7) == DiyFp(0xff77_b1fc_bebc_dc4f, -1034)
        && !OtherBounds(0xff77_b1fc_bebc_dc4f, 920_4188_8504_9505_7448, 1021, 1020, 511);
    hide OtherBounds, Entry;
    PowersOfTwoThatOccur();
    PowersOfTenThatOccur();
    RowsHold();
    var row := if be < 2005 then Rows1996(be) else if be < 2014 then Rows2005(be) else Rows2014(be);
    assert Row(920_4188_8504_9505_7448, 1021, 1020, 511, Pow(2, 2056 - be), Misread(be));
    hide Misread;
    Settle(be, 7, 1996, 2022, 920_4188_8504_9505_7448, 1021, 1020, 511, Misread(be));
  }

  function Rows2022(be: int): bool {
    match be
    case 2022 => Power(617_6826_5779_8189_1429, 685, 685, 343, 0x1000_0000_0000_0000, 10, 5357_5430_3593_1337, false)
    case 2023 => Power(617_6826_5779_8189_1429, 685, 685, 343, 0x800_0000_0000_0000, 10, 1_0715_0860_7186_2673, false)
    case 2024 => Power(617_6826_5779_8189_1429, 685, 685, 343, 0x400_0000_0000_0000, 10, 2_1430_1721_4372_5346, false)
    case 2025 => Power(617_6826_5779_8189_1429, 685, 685, 343, 0x200_0000_0000_0000, 100, 4286_0344_2874_5069, true)
    case 2026 => Power(617_6826_5779_8189_1429, 685, 685, 343, 0x100_0000_0000_0000, 100, 8572_0688_5749_0139, false)
    case 2027 => Power(617_6826_5779_8189_1429, 685, 685, 343, 0x80_0000_0000_0000, 100, 1_7144_1377_1498_0277, false)
    case 2028 => Power(617_6826_5779_8189_1429, 685, 685, 343, 0x40_0000_0000_0000, 100, 3_4288_2754_2996_0554, false)
    case 2029 => Power(617_6826_5779_8189_1429, 685, 685, 343, 0x20_0000_0000_0000, 1000, 6857_6550_8599_2111, false)
    case _ => Power(617_6826_5779_8189_1429, 685, 685, 343, 0x10_0000_0000_0000, 1000, 1_3715_3101_7198_4222, false)
  }

  function Rows2031(be: int): bool {
    match be
    case 2031 => Power(617_6826_5779_8189_1429, 685, 685, 343, 0x8_0000_0000_0000, 1000, 2_7430_6203_4396_8443, false)
    case 2032 => Power(617_6826_5779_8189_1429, 685, 685, 343, 0x4_0000_0000_0000, 1_0000, 5486_1240_6879_3689, false)
    case 2033 => Power(617_6826_5779_8189_1429, 685, 685, 343, 0x2_0000_0000_0000, 1_0000, 1_0972_2481_3758_7377, false)
    case 2034 => Power(617_6826_5779_8189_1429, 685, 685, 343, 0x1_0000_0000_0000, 1_0000, 2_1944_4962_7517_4755, false)
    case 2035 => Power(617_6826_5779_8189_1429, 685, 685, 343, 0x8000_0000_0000, 10_0000, 4388_8992_5503_4951, false)
    case 2036 => Power(617_6826_5779_8189_1429, 685, 685, 343, 0x4000_0000_0000, 10_0000, 8777_7985_1006_9902, false)
    case 2037 => Power(617_6826_5779_8189_1429, 685, 685, 343, 0x2000_0000_0000, 10_0000, 1_7555_5970_2013_9804, false)
    case 2038 => Power(617_6826_5779_8189_1429, 685, 685, 343, 0x1000_0000_0000, 100_0000, 3511_1194_0402_7961, false)
    case _ => Power(617_6826_5779_8189_1429, 685, 685, 343, 0x800_0000_0000, 100_0000, 7022_2388_0805_5922, false)
  }

  function Rows2040(be: int): bool {
    match be
    case 2040 => Power(617_6826_5779_8189_1429, 685, 685, 343, 0x400_0000_0000, 100_0000, 1_4044_4776_1611_1843, false)
    case 2041 => Power(617_6826_5779_8189_1429, 685, 685, 343, 0x200_0000_0000, 100_0000, 2_8088_9552_3222_3686, false)
    case 2042 => Power(617_6826_5779_8189_1429, 685, 685, 343, 0x100_0000_0000, 1000_0000, 5617_7910_4644_4737, false)
    case 2043 => Power(617_6826_5779_8189_1429, 685, 685, 343, 0x80_0000_0000, 1000_0000, 1_1235_5820_9288_9474, false)
    case 2044 => Power(617_6826_5779_8189_1429, 685, 685, 343, 0x40_0000_0000, 1_0000_0000, 2247_1164_1857_7895, false)
    case 2045 => Power(617_6826_5779_8189_1429, 685, 685, 343, 0x20_0000_0000, 10_0000_0000, 449_4232_8371_5579, false)
    case _ => Power(617_6826_5779_8189_1429, 685, 685, 343, 0x10_0000_0000, 10_0000_0000, 898_8465_6743_1158, false)
  }

  lemma Settled6(be: nat)
    requires 2022 <= be < 2047
    ensures Settled(be, Misread(be))
  {
    hide HalfUlp, Serves, Normalized, Pow, PowerOfTen, Refuted, Candidate, Row, Settled;
    assert Entry(6) == DiyFp(0xab70_fe17_c79a_c6ca, -1060)
        && !OtherBounds(0xab70_fe17_c79a_c6ca, 617_6826_5779_8189_1429, 685, 685, 343);
    hide OtherBounds, Entry;
    PowersOfTwoThatOccur();
    PowersOfTenThatOccur();
    RowsHold();
    var row := if be < 2031 then Rows2022(be) else if be < 2040 then Rows2031(be) else Rows2040(be);
    assert Row(617_6826_5779_8189_1429, 685, 685, 343, Pow(2, 2082 - be), Misread(be));
    hide Misread;
    Settle(be, 6, 2022, 2047, 617_6826_5779_8189_1429, 685, 685, 343, Misread(be));
  }

  /** Every power of two is settled. */
  lemma AllSettled(be: nat)
    requires 2 <= be <= 2046
    ensures Settled(be, Misread(be))
  {
    hide *;
    if be < 29 { Settled82(be); }
    else if be < 55 { Settled81(be); }
    else if be < 82 { Settled80(be); }
    else if be < 109 { Settled79(be); }
    else if be < 135 { Settled78(be); }
    else if be < 162 { Settled77(be); }
    else if be < 188 { Settled76(be); }
    else if be < 215 { Settled75(be); }
    else if be < 242 { Settled74(be); }
    else if be < 268 { Settled73(be); }
    else if be < 295 { Settled72(be); }
    else if be < 321 { Settled71(be); }
    else if be < 348 { Settled70(be); }
    else if be < 374 { Settled69(be); }
    else if be < 401 { Settled68(be); }
    else if be < 428 { Settled67(be); }
    else if be < 454 { Settled66(be); }
    else if be < 481 { Settled65(be); }
    else if be < 507 { Settled64(be); }
    else if be < 534 { Settled63(be); }
    else if be < 560 { Settled62(be); }
    else if be < 587 { Settled61(be); }
    else if be < 614 { Settled60(be); }
    else if be < 640 { Settled59(be); }
    else if be < 667 { Settled58(be); }
    else if be < 693 { Settled57(be); }
    else if be < 720 { Settled56(be); }
    else if be < 746 { Settled55(be); }
    else if be < 773 { Settled54(be); }
    else if be < 800 { Settled53(be); }
    else if be < 826 { Settled52(be); }
    else if be < 853 { Settled51(be); }
    else if be < 879 { Settled50(be); }
    else if be < 906 { Settled49(be); }
    else if be < 932 { Settled48(be); }
    else if be < 959 { Settled47(be); }
    else if be < 986 { Settled46(be); }
    else if be < 1012 { Settled45(be); }
    else if be < 1039 { Settled44(be); }
    else if be < 1065 { Settled43(be); }
    else if be < 1092 { Settled42(be); }
    else if be < 1119 { Settled41(be); }
    else if be < 1145 { Settled40(be); }
    else if be < 1172 { Settled39(be); }
    else if be < 1198 { Settled38(be); }
    else if be < 1225 { Settled37(be); }
    else if be < 1251 { Settled36(be); }
    else if be < 1278 { Settled35(be); }
    else if be < 1305 { Settled34(be); }
    else if be < 1331 { Settled33(be); }
    else if be < 1358 { Settled32(be); }
    else if be < 1384 { Settled31(be); }
    else if be < 1411 { Settled30(be); }
    else if be < 1437 { Settled29(be); }
    else if be < 1464 { Settled28(be); }
    else if be < 1491 { Settled27(be); }
    else if be < 1517 { Settled26(be); }
    else if be < 1544 { Settled25(be); }
    else if be < 1570 { Settled24(be); }
    else if be < 1597 { Settled23(be); }
    else if be < 1623 { Settled22(be); }
    else if be < 1650 { Settled21(be); }
    else if be < 1677 { Settled20(be); }
    else if be < 1703 { Settled19(be); }
    else if be < 1730 { Settled18(be); }
    else if be < 1756 { Settled17(be); }
    else if be < 1783 { Settled16(be); }
    else if be < 1809 { Settled15(be); }
    else if be < 1836 { Settled14(be); }
    else if be < 1863 { Settled13(be); }
    else if be < 1889 { Settled12(be); }
    else if be < 1916 { Settled11(be); }
    else if be < 1942 { Settled10(be); }
    else if be < 1969 { Settled9(be); }
    else if be < 1996 { Settled8(be); }
    else if be < 2022 { Settled7(be); }
    else { Settled6(be); }
  }
}
