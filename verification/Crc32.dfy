/**
 The CRC-32 by which keys are mapped to vbuckets. The table-driven loop is proved against the
 bit-at-a-time definition of the reflected CRC-32 (section 8 of RFC 1952).
 */
module Crc32 {
  const POLYNOMIAL: bv32 := 0xedb88320

  /** One bit of the reflected CRC-32. */
  function BitStep(c: bv32): bv32 {
    if c & 1 == 1 then (c >> 1) ^ POLYNOMIAL else c >> 1
  }

  function Repeat<W>(f: W -> W, c: W, k: nat): W {
    if k == 0 then c else f(Repeat(f, c, k - 1))
  }

  /** Eight bits. */
  function ByteStep(c: bv32): bv32 {
    Repeat(BitStep, c, 8)
  }

  /** The register after the bytes of data have been shifted through it bit by bit. */
  function Register(c: bv32, data: seq<bv8>): bv32
    decreases data
  {
    if data == [] then c else Register(ByteStep(c ^ (data[0] as bv32)), data[1..])
  }

  /** The vbucket hash: bits 16 to 30 of the CRC-32 of data. */
  function Digest(data: seq<bv8>): bv32 {
    ((!Register(0xffffffff, data)) >> 16) & 0x7fff
  }

  // ---- the lookup table ----

  /** Eight steps of f lead to where repeating f does. */
  lemma RepeatEight<W>(f: W -> W, p0: W, p1: W, p2: W, p3: W, p4: W, p5: W, p6: W, p7: W, p8: W)
    requires f(p0) == p1 && f(p1) == p2 && f(p2) == p3 && f(p3) == p4
    requires f(p4) == p5 && f(p5) == p6 && f(p6) == p7 && f(p7) == p8
    ensures Repeat(f, p0, 8) == p8
  {
    assert Repeat(f, p0, 1) == p1;
    assert Repeat(f, p0, 2) == p2;
    assert Repeat(f, p0, 3) == p3;
    assert Repeat(f, p0, 4) == p4;
    assert Repeat(f, p0, 5) == p5;
    assert Repeat(f, p0, 6) == p6;
    assert Repeat(f, p0, 7) == p7;
  }

  function Unrolled(c: bv32): bv32 {
    BitStep(BitStep(BitStep(BitStep(BitStep(BitStep(BitStep(BitStep(c))))))))
  }

  lemma ByteStepUnrolls(c: bv32)
    ensures ByteStep(c) == Unrolled(c)
  {
    var c1 := BitStep(c);
    var c2 := BitStep(c1);
    var c3 := BitStep(c2);
    var c4 := BitStep(c3);
    var c5 := BitStep(c4);
    var c6 := BitStep(c5);
    var c7 := BitStep(c6);
    RepeatEight(BitStep, c, c1, c2, c3, c4, c5, c6, c7, BitStep(c7));
  }

  /** A line of the lookup table: its entries 8r to 8r + 7. */
  function Row(r: int): seq<bv32> {
    match r
    case 0 => [0x00000000, 0x77073096, 0xee0e612c, 0x990951ba, 0x076dc419, 0x706af48f, 0xe963a535, 0x9e6495a3]
    case 1 => [0x0edb8832, 0x79dcb8a4, 0xe0d5e91e, 0x97d2d988, 0x09b64c2b, 0x7eb17cbd, 0xe7b82d07, 0x90bf1d91]
    case 2 => [0x1db71064, 0x6ab020f2, 0xf3b97148, 0x84be41de, 0x1adad47d, 0x6ddde4eb, 0xf4d4b551, 0x83d385c7]
    case 3 => [0x136c9856, 0x646ba8c0, 0xfd62f97a, 0x8a65c9ec, 0x14015c4f, 0x63066cd9, 0xfa0f3d63, 0x8d080df5]
    case 4 => [0x3b6e20c8, 0x4c69105e, 0xd56041e4, 0xa2677172, 0x3c03e4d1, 0x4b04d447, 0xd20d85fd, 0xa50ab56b]
    case 5 => [0x35b5a8fa, 0x42b2986c, 0xdbbbc9d6, 0xacbcf940, 0x32d86ce3, 0x45df5c75, 0xdcd60dcf, 0xabd13d59]
    case 6 => [0x26d930ac, 0x51de003a, 0xc8d75180, 0xbfd06116, 0x21b4f4b5, 0x56b3c423, 0xcfba9599, 0xb8bda50f]
    case 7 => [0x2802b89e, 0x5f058808, 0xc60cd9b2, 0xb10be924, 0x2f6f7c87, 0x58684c11, 0xc1611dab, 0xb6662d3d]
    case 8 => [0x76dc4190, 0x01db7106, 0x98d220bc, 0xefd5102a, 0x71b18589, 0x06b6b51f, 0x9fbfe4a5, 0xe8b8d433]
    case 9 => [0x7807c9a2, 0x0f00f934, 0x9609a88e, 0xe10e9818, 0x7f6a0dbb, 0x086d3d2d, 0x91646c97, 0xe6635c01]
    case 10 => [0x6b6b51f4, 0x1c6c6162, 0x856530d8, 0xf262004e, 0x6c0695ed, 0x1b01a57b, 0x8208f4c1, 0xf50fc457]
    case 11 => [0x65b0d9c6, 0x12b7e950, 0x8bbeb8ea, 0xfcb9887c, 0x62dd1ddf, 0x15da2d49, 0x8cd37cf3, 0xfbd44c65]
    case 12 => [0x4db26158, 0x3ab551ce, 0xa3bc0074, 0xd4bb30e2, 0x4adfa541, 0x3dd895d7, 0xa4d1c46d, 0xd3d6f4fb]
    case 13 => [0x4369e96a, 0x346ed9fc, 0xad678846, 0xda60b8d0, 0x44042d73, 0x33031de5, 0xaa0a4c5f, 0xdd0d7cc9]
    case 14 => [0x5005713c, 0x270241aa, 0xbe0b1010, 0xc90c2086, 0x5768b525, 0x206f85b3, 0xb966d409, 0xce61e49f]
    case 15 => [0x5edef90e, 0x29d9c998, 0xb0d09822, 0xc7d7a8b4, 0x59b33d17, 0x2eb40d81, 0xb7bd5c3b, 0xc0ba6cad]
    case 16 => [0xedb88320, 0x9abfb3b6, 0x03b6e20c, 0x74b1d29a, 0xead54739, 0x9dd277af, 0x04db2615, 0x73dc1683]
    case 17 => [0xe3630b12, 0x94643b84, 0x0d6d6a3e, 0x7a6a5aa8, 0xe40ecf0b, 0x9309ff9d, 0x0a00ae27, 0x7d079eb1]
    case 18 => [0xf00f9344, 0x8708a3d2, 0x1e01f268, 0x6906c2fe, 0xf762575d, 0x806567cb, 0x196c3671, 0x6e6b06e7]
    case 19 => [0xfed41b76, 0x89d32be0, 0x10da7a5a, 0x67dd4acc, 0xf9b9df6f, 0x8ebeeff9, 0x17b7be43, 0x60b08ed5]
    case 20 => [0xd6d6a3e8, 0xa1d1937e, 0x38d8c2c4, 0x4fdff252, 0xd1bb67f1, 0xa6bc5767, 0x3fb506dd, 0x48b2364b]
    case 21 => [0xd80d2bda, 0xaf0a1b4c, 0x36034af6, 0x41047a60, 0xdf60efc3, 0xa867df55, 0x316e8eef, 0x4669be79]
    case 22 => [0xcb61b38c, 0xbc66831a, 0x256fd2a0, 0x5268e236, 0xcc0c7795, 0xbb0b4703, 0x220216b9, 0x5505262f]
    case 23 => [0xc5ba3bbe, 0xb2bd0b28, 0x2bb45a92, 0x5cb36a04, 0xc2d7ffa7, 0xb5d0cf31, 0x2cd99e8b, 0x5bdeae1d]
    case 24 => [0x9b64c2b0, 0xec63f226, 0x756aa39c, 0x026d930a, 0x9c0906a9, 0xeb0e363f, 0x72076785, 0x05005713]
    case 25 => [0x95bf4a82, 0xe2b87a14, 0x7bb12bae, 0x0cb61b38, 0x92d28e9b, 0xe5d5be0d, 0x7cdcefb7, 0x0bdbdf21]
    case 26 => [0x86d3d2d4, 0xf1d4e242, 0x68ddb3f8, 0x1fda836e, 0x81be16cd, 0xf6b9265b, 0x6fb077e1, 0x18b74777]
    case 27 => [0x88085ae6, 0xff0f6a70, 0x66063bca, 0x11010b5c, 0x8f659eff, 0xf862ae69, 0x616bffd3, 0x166ccf45]
    case 28 => [0xa00ae278, 0xd70dd2ee, 0x4e048354, 0x3903b3c2, 0xa7672661, 0xd06016f7, 0x4969474d, 0x3e6e77db]
    case 29 => [0xaed16a4a, 0xd9d65adc, 0x40df0b66, 0x37d83bf0, 0xa9bcae53, 0xdebb9ec5, 0x47b2cf7f, 0x30b5ffe9]
    case 30 => [0xbdbdf21c, 0xcabac28a, 0x53b39330, 0x24b4a3a6, 0xbad03605, 0xcdd70693, 0x54de5729, 0x23d967bf]
    case 31 => [0xb3667a2e, 0xc4614ab8, 0x5d681b02, 0x2a6f2b94, 0xb40bbe37, 0xc30c8ea1, 0x5a05df1b, 0x2d02ef8d]
    case _ => []
  }

  function Table(i: int): bv32
    requires 0 <= i < 256
  {
    Row(i / 8)[i % 8]
  }

  lemma Row0(x: bv32)
    requires 0 <= x < 8
    ensures 0 <= x as int < 256 && Table(x as int) == Unrolled(x)
  {
    if {
      case x == 0 => assert Unrolled(0) == Table(0);
      case x == 1 => assert Unrolled(1) == Table(1);
      case x == 2 => assert Unrolled(2) == Table(2);
      case x == 3 => assert Unrolled(3) == Table(3);
      case x == 4 => assert Unrolled(4) == Table(4);
      case x == 5 => assert Unrolled(5) == Table(5);
      case x == 6 => assert Unrolled(6) == Table(6);
      case x == 7 => assert Unrolled(7) == Table(7);
    }
  }

  lemma Row1(x: bv32)
    requires 8 <= x < 16
    ensures 0 <= x as int < 256 && Table(x as int) == Unrolled(x)
  {
    if {
      case x == 8 => assert Unrolled(8) == Table(8);
      case x == 9 => assert Unrolled(9) == Table(9);
      case x == 10 => assert Unrolled(10) == Table(10);
      case x == 11 => assert Unrolled(11) == Table(11);
      case x == 12 => assert Unrolled(12) == Table(12);
      case x == 13 => assert Unrolled(13) == Table(13);
      case x == 14 => assert Unrolled(14) == Table(14);
      case x == 15 => assert Unrolled(15) == Table(15);
    }
  }

  lemma Row2(x: bv32)
    requires 16 <= x < 24
    ensures 0 <= x as int < 256 && Table(x as int) == Unrolled(x)
  {
    if {
      case x == 16 => assert Unrolled(16) == Table(16);
      case x == 17 => assert Unrolled(17) == Table(17);
      case x == 18 => assert Unrolled(18) == Table(18);
      case x == 19 => assert Unrolled(19) == Table(19);
      case x == 20 => assert Unrolled(20) == Table(20);
      case x == 21 => assert Unrolled(21) == Table(21);
      case x == 22 => assert Unrolled(22) == Table(22);
      case x == 23 => assert Unrolled(23) == Table(23);
    }
  }

  lemma Row3(x: bv32)
    requires 24 <= x < 32
    ensures 0 <= x as int < 256 && Table(x as int) == Unrolled(x)
  {
    if {
      case x == 24 => assert Unrolled(24) == Table(24);
      case x == 25 => assert Unrolled(25) == Table(25);
      case x == 26 => assert Unrolled(26) == Table(26);
      case x == 27 => assert Unrolled(27) == Table(27);
      case x == 28 => assert Unrolled(28) == Table(28);
      case x == 29 => assert Unrolled(29) == Table(29);
      case x == 30 => assert Unrolled(30) == Table(30);
      case x == 31 => assert Unrolled(31) == Table(31);
    }
  }

  lemma Row4(x: bv32)
    requires 32 <= x < 40
    ensures 0 <= x as int < 256 && Table(x as int) == Unrolled(x)
  {
    if {
      case x == 32 => assert Unrolled(32) == Table(32);
      case x == 33 => assert Unrolled(33) == Table(33);
      case x == 34 => assert Unrolled(34) == Table(34);
      case x == 35 => assert Unrolled(35) == Table(35);
      case x == 36 => assert Unrolled(36) == Table(36);
      case x == 37 => assert Unrolled(37) == Table(37);
      case x == 38 => assert Unrolled(38) == Table(38);
      case x == 39 => assert Unrolled(39) == Table(39);
    }
  }

  lemma Row5(x: bv32)
    requires 40 <= x < 48
    ensures 0 <= x as int < 256 && Table(x as int) == Unrolled(x)
  {
    if {
      case x == 40 => assert Unrolled(40) == Table(40);
      case x == 41 => assert Unrolled(41) == Table(41);
      case x == 42 => assert Unrolled(42) == Table(42);
      case x == 43 => assert Unrolled(43) == Table(43);
      case x == 44 => assert Unrolled(44) == Table(44);
      case x == 45 => assert Unrolled(45) == Table(45);
      case x == 46 => assert Unrolled(46) == Table(46);
      case x == 47 => assert Unrolled(47) == Table(47);
    }
  }

  lemma Row6(x: bv32)
    requires 48 <= x < 56
    ensures 0 <= x as int < 256 && Table(x as int) == Unrolled(x)
  {
    if {
      case x == 48 => assert Unrolled(48) == Table(48);
      case x == 49 => assert Unrolled(49) == Table(49);
      case x == 50 => assert Unrolled(50) == Table(50);
      case x == 51 => assert Unrolled(51) == Table(51);
      case x == 52 => assert Unrolled(52) == Table(52);
      case x == 53 => assert Unrolled(53) == Table(53);
      case x == 54 => assert Unrolled(54) == Table(54);
      case x == 55 => assert Unrolled(55) == Table(55);
    }
  }

  lemma Row7(x: bv32)
    requires 56 <= x < 64
    ensures 0 <= x as int < 256 && Table(x as int) == Unrolled(x)
  {
    if {
      case x == 56 => assert Unrolled(56) == Table(56);
      case x == 57 => assert Unrolled(57) == Table(57);
      case x == 58 => assert Unrolled(58) == Table(58);
      case x == 59 => assert Unrolled(59) == Table(59);
      case x == 60 => assert Unrolled(60) == Table(60);
      case x == 61 => assert Unrolled(61) == Table(61);
      case x == 62 => assert Unrolled(62) == Table(62);
      case x == 63 => assert Unrolled(63) == Table(63);
    }
  }

  lemma Row8(x: bv32)
    requires 64 <= x < 72
    ensures 0 <= x as int < 256 && Table(x as int) == Unrolled(x)
  {
    if {
      case x == 64 => assert Unrolled(64) == Table(64);
      case x == 65 => assert Unrolled(65) == Table(65);
      case x == 66 => assert Unrolled(66) == Table(66);
      case x == 67 => assert Unrolled(67) == Table(67);
      case x == 68 => assert Unrolled(68) == Table(68);
      case x == 69 => assert Unrolled(69) == Table(69);
      case x == 70 => assert Unrolled(70) == Table(70);
      case x == 71 => assert Unrolled(71) == Table(71);
    }
  }

  lemma Row9(x: bv32)
    requires 72 <= x < 80
    ensures 0 <= x as int < 256 && Table(x as int) == Unrolled(x)
  {
    if {
      case x == 72 => assert Unrolled(72) == Table(72);
      case x == 73 => assert Unrolled(73) == Table(73);
      case x == 74 => assert Unrolled(74) == Table(74);
      case x == 75 => assert Unrolled(75) == Table(75);
      case x == 76 => assert Unrolled(76) == Table(76);
      case x == 77 => assert Unrolled(77) == Table(77);
      case x == 78 => assert Unrolled(78) == Table(78);
      case x == 79 => assert Unrolled(79) == Table(79);
    }
  }

  lemma Row10(x: bv32)
    requires 80 <= x < 88
    ensures 0 <= x as int < 256 && Table(x as int) == Unrolled(x)
  {
    if {
      case x == 80 => assert Unrolled(80) == Table(80);
      case x == 81 => assert Unrolled(81) == Table(81);
      case x == 82 => assert Unrolled(82) == Table(82);
      case x == 83 => assert Unrolled(83) == Table(83);
      case x == 84 => assert Unrolled(84) == Table(84);
      case x == 85 => assert Unrolled(85) == Table(85);
      case x == 86 => assert Unrolled(86) == Table(86);
      case x == 87 => assert Unrolled(87) == Table(87);
    }
  }

  lemma Row11(x: bv32)
    requires 88 <= x < 96
    ensures 0 <= x as int < 256 && Table(x as int) == Unrolled(x)
  {
    if {
      case x == 88 => assert Unrolled(88) == Table(88);
      case x == 89 => assert Unrolled(89) == Table(89);
      case x == 90 => assert Unrolled(90) == Table(90);
      case x == 91 => assert Unrolled(91) == Table(91);
      case x == 92 => assert Unrolled(92) == Table(92);
      case x == 93 => assert Unrolled(93) == Table(93);
      case x == 94 => assert Unrolled(94) == Table(94);
      case x == 95 => assert Unrolled(95) == Table(95);
    }
  }

  lemma Row12(x: bv32)
    requires 96 <= x < 104
    ensures 0 <= x as int < 256 && Table(x as int) == Unrolled(x)
  {
    if {
      case x == 96 => assert Unrolled(96) == Table(96);
      case x == 97 => assert Unrolled(97) == Table(97);
      case x == 98 => assert Unrolled(98) == Table(98);
      case x == 99 => assert Unrolled(99) == Table(99);
      case x == 100 => assert Unrolled(100) == Table(100);
      case x == 101 => assert Unrolled(101) == Table(101);
      case x == 102 => assert Unrolled(102) == Table(102);
      case x == 103 => assert Unrolled(103) == Table(103);
    }
  }

  lemma Row13(x: bv32)
    requires 104 <= x < 112
    ensures 0 <= x as int < 256 && Table(x as int) == Unrolled(x)
  {
    if {
      case x == 104 => assert Unrolled(104) == Table(104);
      case x == 105 => assert Unrolled(105) == Table(105);
      case x == 106 => assert Unrolled(106) == Table(106);
      case x == 107 => assert Unrolled(107) == Table(107);
      case x == 108 => assert Unrolled(108) == Table(108);
      case x == 109 => assert Unrolled(109) == Table(109);
      case x == 110 => assert Unrolled(110) == Table(110);
      case x == 111 => assert Unrolled(111) == Table(111);
    }
  }

  lemma Row14(x: bv32)
    requires 112 <= x < 120
    ensures 0 <= x as int < 256 && Table(x as int) == Unrolled(x)
  {
    if {
      case x == 112 => assert Unrolled(112) == Table(112);
      case x == 113 => assert Unrolled(113) == Table(113);
      case x == 114 => assert Unrolled(114) == Table(114);
      case x == 115 => assert Unrolled(115) == Table(115);
      case x == 116 => assert Unrolled(116) == Table(116);
      case x == 117 => assert Unrolled(117) == Table(117);
      case x == 118 => assert Unrolled(118) == Table(118);
      case x == 119 => assert Unrolled(119) == Table(119);
    }
  }

  lemma Row15(x: bv32)
    requires 120 <= x < 128
    ensures 0 <= x as int < 256 && Table(x as int) == Unrolled(x)
  {
    if {
      case x == 120 => assert Unrolled(120) == Table(120);
      case x == 121 => assert Unrolled(121) == Table(121);
      case x == 122 => assert Unrolled(122) == Table(122);
      case x == 123 => assert Unrolled(123) == Table(123);
      case x == 124 => assert Unrolled(124) == Table(124);
      case x == 125 => assert Unrolled(125) == Table(125);
      case x == 126 => assert Unrolled(126) == Table(126);
      case x == 127 => assert Unrolled(127) == Table(127);
    }
  }

  lemma Row16(x: bv32)
    requires 128 <= x < 136
    ensures 0 <= x as int < 256 && Table(x as int) == Unrolled(x)
  {
    if {
      case x == 128 => assert Unrolled(128) == Table(128);
      case x == 129 => assert Unrolled(129) == Table(129);
      case x == 130 => assert Unrolled(130) == Table(130);
      case x == 131 => assert Unrolled(131) == Table(131);
      case x == 132 => assert Unrolled(132) == Table(132);
      case x == 133 => assert Unrolled(133) == Table(133);
      case x == 134 => assert Unrolled(134) == Table(134);
      case x == 135 => assert Unrolled(135) == Table(135);
    }
  }

  lemma Row17(x: bv32)
    requires 136 <= x < 144
    ensures 0 <= x as int < 256 && Table(x as int) == Unrolled(x)
  {
    if {
      case x == 136 => assert Unrolled(136) == Table(136);
      case x == 137 => assert Unrolled(137) == Table(137);
      case x == 138 => assert Unrolled(138) == Table(138);
      case x == 139 => assert Unrolled(139) == Table(139);
      case x == 140 => assert Unrolled(140) == Table(140);
      case x == 141 => assert Unrolled(141) == Table(141);
      case x == 142 => assert Unrolled(142) == Table(142);
      case x == 143 => assert Unrolled(143) == Table(143);
    }
  }

  lemma Row18(x: bv32)
    requires 144 <= x < 152
    ensures 0 <= x as int < 256 && Table(x as int) == Unrolled(x)
  {
    if {
      case x == 144 => assert Unrolled(144) == Table(144);
      case x == 145 => assert Unrolled(145) == Table(145);
      case x == 146 => assert Unrolled(146) == Table(146);
      case x == 147 => assert Unrolled(147) == Table(147);
      case x == 148 => assert Unrolled(148) == Table(148);
      case x == 149 => assert Unrolled(149) == Table(149);
      case x == 150 => assert Unrolled(150) == Table(150);
      case x == 151 => assert Unrolled(151) == Table(151);
    }
  }

  lemma Row19(x: bv32)
    requires 152 <= x < 160
    ensures 0 <= x as int < 256 && Table(x as int) == Unrolled(x)
  {
    if {
      case x == 152 => assert Unrolled(152) == Table(152);
      case x == 153 => assert Unrolled(153) == Table(153);
      case x == 154 => assert Unrolled(154) == Table(154);
      case x == 155 => assert Unrolled(155) == Table(155);
      case x == 156 => assert Unrolled(156) == Table(156);
      case x == 157 => assert Unrolled(157) == Table(157);
      case x == 158 => assert Unrolled(158) == Table(158);
      case x == 159 => assert Unrolled(159) == Table(159);
    }
  }

  lemma Row20(x: bv32)
    requires 160 <= x < 168
    ensures 0 <= x as int < 256 && Table(x as int) == Unrolled(x)
  {
    if {
      case x == 160 => assert Unrolled(160) == Table(160);
      case x == 161 => assert Unrolled(161) == Table(161);
      case x == 162 => assert Unrolled(162) == Table(162);
      case x == 163 => assert Unrolled(163) == Table(163);
      case x == 164 => assert Unrolled(164) == Table(164);
      case x == 165 => assert Unrolled(165) == Table(165);
      case x == 166 => assert Unrolled(166) == Table(166);
      case x == 167 => assert Unrolled(167) == Table(167);
    }
  }

  lemma Row21(x: bv32)
    requires 168 <= x < 176
    ensures 0 <= x as int < 256 && Table(x as int) == Unrolled(x)
  {
    if {
      case x == 168 => assert Unrolled(168) == Table(168);
      case x == 169 => assert Unrolled(169) == Table(169);
      case x == 170 => assert Unrolled(170) == Table(170);
      case x == 171 => assert Unrolled(171) == Table(171);
      case x == 172 => assert Unrolled(172) == Table(172);
      case x == 173 => assert Unrolled(173) == Table(173);
      case x == 174 => assert Unrolled(174) == Table(174);
      case x == 175 => assert Unrolled(175) == Table(175);
    }
  }

  lemma Row22(x: bv32)
    requires 176 <= x < 184
    ensures 0 <= x as int < 256 && Table(x as int) == Unrolled(x)
  {
    if {
      case x == 176 => assert Unrolled(176) == Table(176);
      case x == 177 => assert Unrolled(177) == Table(177);
      case x == 178 => assert Unrolled(178) == Table(178);
      case x == 179 => assert Unrolled(179) == Table(179);
      case x == 180 => assert Unrolled(180) == Table(180);
      case x == 181 => assert Unrolled(181) == Table(181);
      case x == 182 => assert Unrolled(182) == Table(182);
      case x == 183 => assert Unrolled(183) == Table(183);
    }
  }

  lemma Row23(x: bv32)
    requires 184 <= x < 192
    ensures 0 <= x as int < 256 && Table(x as int) == Unrolled(x)
  {
    if {
      case x == 184 => assert Unrolled(184) == Table(184);
      case x == 185 => assert Unrolled(185) == Table(185);
      case x == 186 => assert Unrolled(186) == Table(186);
      case x == 187 => assert Unrolled(187) == Table(187);
      case x == 188 => assert Unrolled(188) == Table(188);
      case x == 189 => assert Unrolled(189) == Table(189);
      case x == 190 => assert Unrolled(190) == Table(190);
      case x == 191 => assert Unrolled(191) == Table(191);
    }
  }

  lemma Row24(x: bv32)
    requires 192 <= x < 200
    ensures 0 <= x as int < 256 && Table(x as int) == Unrolled(x)
  {
    if {
      case x == 192 => assert Unrolled(192) == Table(192);
      case x == 193 => assert Unrolled(193) == Table(193);
      case x == 194 => assert Unrolled(194) == Table(194);
      case x == 195 => assert Unrolled(195) == Table(195);
      case x == 196 => assert Unrolled(196) == Table(196);
      case x == 197 => assert Unrolled(197) == Table(197);
      case x == 198 => assert Unrolled(198) == Table(198);
      case x == 199 => assert Unrolled(199) == Table(199);
    }
  }

  lemma Row25(x: bv32)
    requires 200 <= x < 208
    ensures 0 <= x as int < 256 && Table(x as int) == Unrolled(x)
  {
    if {
      case x == 200 => assert Unrolled(200) == Table(200);
      case x == 201 => assert Unrolled(201) == Table(201);
      case x == 202 => assert Unrolled(202) == Table(202);
      case x == 203 => assert Unrolled(203) == Table(203);
      case x == 204 => assert Unrolled(204) == Table(204);
      case x == 205 => assert Unrolled(205) == Table(205);
      case x == 206 => assert Unrolled(206) == Table(206);
      case x == 207 => assert Unrolled(207) == Table(207);
    }
  }

  lemma Row26(x: bv32)
    requires 208 <= x < 216
    ensures 0 <= x as int < 256 && Table(x as int) == Unrolled(x)
  {
    if {
      case x == 208 => assert Unrolled(208) == Table(208);
      case x == 209 => assert Unrolled(209) == Table(209);
      case x == 210 => assert Unrolled(210) == Table(210);
      case x == 211 => assert Unrolled(211) == Table(211);
      case x == 212 => assert Unrolled(212) == Table(212);
      case x == 213 => assert Unrolled(213) == Table(213);
      case x == 214 => assert Unrolled(214) == Table(214);
      case x == 215 => assert Unrolled(215) == Table(215);
    }
  }

  lemma Row27(x: bv32)
    requires 216 <= x < 224
    ensures 0 <= x as int < 256 && Table(x as int) == Unrolled(x)
  {
    if {
      case x == 216 => assert Unrolled(216) == Table(216);
      case x == 217 => assert Unrolled(217) == Table(217);
      case x == 218 => assert Unrolled(218) == Table(218);
      case x == 219 => assert Unrolled(219) == Table(219);
      case x == 220 => assert Unrolled(220) == Table(220);
      case x == 221 => assert Unrolled(221) == Table(221);
      case x == 222 => assert Unrolled(222) == Table(222);
      case x == 223 => assert Unrolled(223) == Table(223);
    }
  }

  lemma Row28(x: bv32)
    requires 224 <= x < 232
    ensures 0 <= x as int < 256 && Table(x as int) == Unrolled(x)
  {
    if {
      case x == 224 => assert Unrolled(224) == Table(224);
      case x == 225 => assert Unrolled(225) == Table(225);
      case x == 226 => assert Unrolled(226) == Table(226);
      case x == 227 => assert Unrolled(227) == Table(227);
      case x == 228 => assert Unrolled(228) == Table(228);
      case x == 229 => assert Unrolled(229) == Table(229);
      case x == 230 => assert Unrolled(230) == Table(230);
      case x == 231 => assert Unrolled(231) == Table(231);
    }
  }

  lemma Row29(x: bv32)
    requires 232 <= x < 240
    ensures 0 <= x as int < 256 && Table(x as int) == Unrolled(x)
  {
    if {
      case x == 232 => assert Unrolled(232) == Table(232);
      case x == 233 => assert Unrolled(233) == Table(233);
      case x == 234 => assert Unrolled(234) == Table(234);
      case x == 235 => assert Unrolled(235) == Table(235);
      case x == 236 => assert Unrolled(236) == Table(236);
      case x == 237 => assert Unrolled(237) == Table(237);
      case x == 238 => assert Unrolled(238) == Table(238);
      case x == 239 => assert Unrolled(239) == Table(239);
    }
  }

  lemma Row30(x: bv32)
    requires 240 <= x < 248
    ensures 0 <= x as int < 256 && Table(x as int) == Unrolled(x)
  {
    if {
      case x == 240 => assert Unrolled(240) == Table(240);
      case x == 241 => assert Unrolled(241) == Table(241);
      case x == 242 => assert Unrolled(242) == Table(242);
      case x == 243 => assert Unrolled(243) == Table(243);
      case x == 244 => assert Unrolled(244) == Table(244);
      case x == 245 => assert Unrolled(245) == Table(245);
      case x == 246 => assert Unrolled(246) == Table(246);
      case x == 247 => assert Unrolled(247) == Table(247);
    }
  }

  lemma Row31(x: bv32)
    requires 248 <= x < 256
    ensures 0 <= x as int < 256 && Table(x as int) == Unrolled(x)
  {
    if {
      case x == 248 => assert Unrolled(248) == Table(248);
      case x == 249 => assert Unrolled(249) == Table(249);
      case x == 250 => assert Unrolled(250) == Table(250);
      case x == 251 => assert Unrolled(251) == Table(251);
      case x == 252 => assert Unrolled(252) == Table(252);
      case x == 253 => assert Unrolled(253) == Table(253);
      case x == 254 => assert Unrolled(254) == Table(254);
      case x == 255 => assert Unrolled(255) == Table(255);
    }
  }

  /** All 256 entries agree with the bit-at-a-time definition. */
  lemma TableCorrect(x: bv32)
    requires x < 256
    ensures 0 <= x as int < 256 && Table(x as int) == ByteStep(x)
  {
    ByteStepUnrolls(x);
    if {
      case x < 8 => Row0(x);
      case 8 <= x < 16 => Row1(x);
      case 16 <= x < 24 => Row2(x);
      case 24 <= x < 32 => Row3(x);
      case 32 <= x < 40 => Row4(x);
      case 40 <= x < 48 => Row5(x);
      case 48 <= x < 56 => Row6(x);
      case 56 <= x < 64 => Row7(x);
      case 64 <= x < 72 => Row8(x);
      case 72 <= x < 80 => Row9(x);
      case 80 <= x < 88 => Row10(x);
      case 88 <= x < 96 => Row11(x);
      case 96 <= x < 104 => Row12(x);
      case 104 <= x < 112 => Row13(x);
      case 112 <= x < 120 => Row14(x);
      case 120 <= x < 128 => Row15(x);
      case 128 <= x < 136 => Row16(x);
      case 136 <= x < 144 => Row17(x);
      case 144 <= x < 152 => Row18(x);
      case 152 <= x < 160 => Row19(x);
      case 160 <= x < 168 => Row20(x);
      case 168 <= x < 176 => Row21(x);
      case 176 <= x < 184 => Row22(x);
      case 184 <= x < 192 => Row23(x);
      case 192 <= x < 200 => Row24(x);
      case 200 <= x < 208 => Row25(x);
      case 208 <= x < 216 => Row26(x);
      case 216 <= x < 224 => Row27(x);
      case 224 <= x < 232 => Row28(x);
      case 232 <= x < 240 => Row29(x);
      case 240 <= x < 248 => Row30(x);
      case 248 <= x => Row31(x);
    }
  }

  // ---- a byte step splits at the low byte ----

  function Xor(a: bv32, b: bv32): bv32 {
    a ^ b
  }

  lemma LinearOddOdd(a: bv32, b: bv32)
    requires a & 1 == 1 && b & 1 == 1
    ensures BitStep(a ^ b) == BitStep(a) ^ BitStep(b)
  {
  }

  lemma LinearOddEven(a: bv32, b: bv32)
    requires a & 1 == 1 && b & 1 == 0
    ensures BitStep(a ^ b) == BitStep(a) ^ BitStep(b)
  {
  }

  lemma LinearEvenOdd(a: bv32, b: bv32)
    requires a & 1 == 0 && b & 1 == 1
    ensures BitStep(a ^ b) == BitStep(a) ^ BitStep(b)
  {
  }

  lemma LinearEvenEven(a: bv32, b: bv32)
    requires a & 1 == 0 && b & 1 == 0
    ensures BitStep(a ^ b) == BitStep(a) ^ BitStep(b)
  {
  }

  lemma LowBit(c: bv32)
    ensures c & 1 == 0 || c & 1 == 1
  {
  }

  /** A bit step is linear over exclusive or. */
  lemma BitStepLinear(a: bv32, b: bv32)
    ensures BitStep(a ^ b) == BitStep(a) ^ BitStep(b)
  {
    LowBit(a);
    LowBit(b);
    if {
      case a & 1 == 1 && b & 1 == 1 => LinearOddOdd(a, b);
      case a & 1 == 1 && b & 1 == 0 => LinearOddEven(a, b);
      case a & 1 == 0 && b & 1 == 1 => LinearEvenOdd(a, b);
      case a & 1 == 0 && b & 1 == 0 => LinearEvenEven(a, b);
    }
  }

  ghost predicate Homomorphism<W(!new)>(f: W -> W, op: (W, W) -> W) {
    forall x, y :: f(op(x, y)) == op(f(x), f(y))
  }

  lemma {:induction false} RepeatHomomorphism<W(!new)>(f: W -> W, op: (W, W) -> W, a: W, b: W, k: nat)
    requires Homomorphism(f, op)
    ensures Repeat(f, op(a, b), k) == op(Repeat(f, a, k), Repeat(f, b, k))
  {
    if k > 0 {
      RepeatHomomorphism(f, op, a, b, k - 1);
    }
  }

  lemma BitStepHomomorphism()
    ensures Homomorphism(BitStep, Xor)
  {
    forall x, y ensures BitStep(Xor(x, y)) == Xor(BitStep(x), BitStep(y)) {
      BitStepLinear(x, y);
    }
  }

  /** Eight bit steps are linear over exclusive or. */
  lemma ByteStepLinear(a: bv32, b: bv32)
    ensures ByteStep(Xor(a, b)) == Xor(ByteStep(a), ByteStep(b))
  {
    BitStepHomomorphism();
    RepeatHomomorphism(BitStep, Xor, a, b, 8);
  }

  lemma ShiftSteps(y: bv32)
    ensures BitStep((y >> 8) << 8) == ((y >> 8) << 8) >> 1
    ensures BitStep(((y >> 8) << 8) >> 1) == ((y >> 8) << 8) >> 2
    ensures BitStep(((y >> 8) << 8) >> 2) == ((y >> 8) << 8) >> 3
    ensures BitStep(((y >> 8) << 8) >> 3) == ((y >> 8) << 8) >> 4
    ensures BitStep(((y >> 8) << 8) >> 4) == ((y >> 8) << 8) >> 5
    ensures BitStep(((y >> 8) << 8) >> 5) == ((y >> 8) << 8) >> 6
    ensures BitStep(((y >> 8) << 8) >> 6) == ((y >> 8) << 8) >> 7
    ensures BitStep(((y >> 8) << 8) >> 7) == y >> 8
  {
  }

  /** A register whose low byte is clear is only shifted. */
  lemma HighBytesShift(y: bv32)
    ensures ByteStep((y >> 8) << 8) == y >> 8
  {
    ShiftSteps(y);
    RepeatEight(BitStep, (y >> 8) << 8, ((y >> 8) << 8) >> 1, ((y >> 8) << 8) >> 2, ((y >> 8) << 8) >> 3,
                ((y >> 8) << 8) >> 4, ((y >> 8) << 8) >> 5, ((y >> 8) << 8) >> 6, ((y >> 8) << 8) >> 7, y >> 8);
  }

  lemma SplitSum(y: bv32)
    ensures Xor((y >> 8) << 8, y & 0xff) == y
  {
  }

  /** A byte step shifts the high bytes and adds what the low byte contributes. */
  lemma ByteStepSplits(y: bv32)
    ensures ByteStep(y) == Xor(y >> 8, ByteStep(y & 0xff))
  {
    SplitSum(y);
    ByteStepLinear((y >> 8) << 8, y & 0xff);
    HighBytesShift(y);
  }

  // ---- the loop ----

  /** static_cast<std::uint32_t> of a (signed) char. */
  function SignExtended(x: bv8): bv32 {
    if x & 0x80 == 0 then x as bv32 else (x as bv32) | 0xffffff00
  }

  /** The table index of the loop body. */
  function Slot(crc: bv32, x: bv8): bv32 {
    (crc ^ SignExtended(x)) & 0xff
  }

  lemma SignBitsMasked(crc: bv32, x: bv8)
    ensures (crc ^ (x as bv32)) & 0xff == (crc ^ ((x as bv32) | 0xffffff00)) & 0xff
  {
  }

  lemma SlotIsLowByte(crc: bv32, x: bv8)
    ensures Slot(crc, x) == (crc ^ (x as bv32)) & 0xff
  {
    SignBitsMasked(crc, x);
  }

  lemma LowByteBound(c: bv32)
    ensures c & 0xff < 256
  {
  }

  /** The loop body. */
  function TableByte(crc: bv32, x: bv8): bv32
    requires 0 <= Slot(crc, x) as int < 256
  {
    Xor(crc >> 8, Table(Slot(crc, x) as int))
  }

  lemma HighBytesUntouched(crc: bv32, x: bv8)
    ensures (crc ^ (x as bv32)) >> 8 == crc >> 8
  {
  }

  lemma Lookup(y: bv32, slot: bv32, shifted: bv32)
    requires slot == y & 0xff && shifted == y >> 8
    ensures 0 <= slot as int < 256 && Xor(shifted, Table(slot as int)) == ByteStep(y)
  {
    LowByteBound(y);
    TableCorrect(slot);
    ByteStepSplits(y);
  }

  /** The loop body is one byte of the bit-at-a-time definition. */
  lemma TableStep(crc: bv32, x: bv8)
    ensures 0 <= Slot(crc, x) as int < 256
    ensures TableByte(crc, x) == ByteStep(crc ^ (x as bv32))
  {
    SlotIsLowByte(crc, x);
    HighBytesUntouched(crc, x);
    Lookup(crc ^ (x as bv32), Slot(crc, x), crc >> 8);
  }

  lemma {:induction false} RegisterAppend(c: bv32, data: seq<bv8>, x: bv8)
    ensures Register(c, data + [x]) == ByteStep(Register(c, data) ^ (x as bv32))
    decreases data
  {
    if data == [] {
      assert data + [x] == [x];
      assert [x][1..] == [];
    } else {
      assert (data + [x])[1..] == data[1..] + [x];
      RegisterAppend(ByteStep(c ^ (data[0] as bv32)), data[1..], x);
    }
  }

  lemma LoopStep(c: bv32, data: seq<bv8>, x: bv8, crc: bv32)
    requires crc == Register(c, data)
    ensures 0 <= Slot(crc, x) as int < 256
    ensures TableByte(crc, x) == Register(c, data + [x])
  {
    TableStep(crc, x);
    RegisterAppend(c, data, x);
  }

  /** hash_crc32: the table-driven loop computes the bit-at-a-time digest. */
  method HashCrc32(data: seq<bv8>) returns (hash: bv32)
    ensures hash == Digest(data)
  {
    var crc: bv32 := 0xffffffff;
    for i := 0 to |data|
      invariant crc == Register(0xffffffff, data[..i])
    {
      assert data[..i + 1] == data[..i] + [data[i]];
      LoopStep(0xffffffff, data[..i], data[i], crc);
      crc := TableByte(crc, data[i]);
    }
    assert data[..|data|] == data;
    hash := ((!crc) >> 16) & 0x7fff;
  }

  lemma MaskBound(r: bv32)
    ensures (r >> 16) & 0x7fff < 0x8000
  {
  }

  /** The digest has fifteen bits. */
  lemma DigestBound(data: seq<bv8>)
    ensures 0 <= Digest(data) as int < 0x8000
  {
    MaskBound(!Register(0xffffffff, data));
  }

  lemma ComplementBits(r: bv32, i: bv5)
    requires i < 15
    ensures ((((!r) >> 16) & 0x7fff) >> i) & 1 != (r >> (16 + i)) & 1
  {
  }

  /** Bit i of the digest is the complement of bit 16 + i of the register, for the fifteen bits it has. */
  lemma DigestBits(data: seq<bv8>, i: bv5)
    requires i < 15
    ensures (Digest(data) >> i) & 1 != (Register(0xffffffff, data) >> (16 + i)) & 1
  {
    ComplementBits(Register(0xffffffff, data), i);
  }

  predicate Turns(c: bv32, x: bv8, next: bv32) {
    Unrolled(c ^ (x as bv32)) == next
  }

  ghost predicate Sound(turns: (bv32, bv8, bv32) -> bool) {
    forall c, x, next :: turns(c, x, next) ==> ByteStep(c ^ (x as bv32)) == next
  }

  lemma TurnsSound()
    ensures Sound(Turns)
  {
    forall c, x, next | Turns(c, x, next) ensures ByteStep(c ^ (x as bv32)) == next {
      ByteStepUnrolls(c ^ (x as bv32));
    }
  }

  lemma {:induction false} Chain(turns: (bv32, bv8, bv32) -> bool, states: seq<bv32>, data: seq<bv8>)
    requires Sound(turns) && |states| == |data| + 1
    requires forall i :: 0 <= i < |data| ==> turns(states[i], data[i], states[i + 1])
    ensures Register(states[0], data) == states[|data|]
    decreases data
  {
    if data != [] {
      assert turns(states[0], data[0], states[1]);
      Chain(turns, states[1..], data[1..]);
    }
  }

  /** The digits from one to nine lead the register from the start to the complement of 0xcbf43926. */
  ghost predicate Digits(turns: (bv32, bv8, bv32) -> bool) {
    && turns(0xffffffff, 0x31, 0x7c231048)
    && turns(0x7c231048, 0x32, 0xb0acbb32)
    && turns(0xb0acbb32, 0x33, 0x77b79c2d)
    && turns(0x77b79c2d, 0x34, 0x641c1f5c)
    && turns(0x641c1f5c, 0x35, 0x340ac5e3)
    && turns(0x340ac5e3, 0x36, 0xf68d2c9e)
    && turns(0xf68d2c9e, 0x37, 0xaffc9660)
    && turns(0xaffc9660, 0x38, 0x651f2550)
    && turns(0x651f2550, 0x39, 0x340bc6d9)
  }

  lemma DigitSteps()
    ensures Digits(Turns)
  {
  }

  lemma DigitChain(turns: (bv32, bv8, bv32) -> bool, digits: seq<bv8>)
    requires Sound(turns) && Digits(turns) && digits == [0x31, 0x32, 0x33, 0x34, 0x35, 0x36, 0x37, 0x38, 0x39]
    ensures Register(0xffffffff, digits) == 0x340bc6d9
  {
    var states: seq<bv32> := [0xffffffff, 0x7c231048, 0xb0acbb32, 0x77b79c2d, 0x641c1f5c,
                              0x340ac5e3, 0xf68d2c9e, 0xaffc9660, 0x651f2550, 0x340bc6d9];
    Chain(turns, states, digits);
  }

  /** The check value of CRC-32: that of the digits from one to nine is 0xcbf43926, and bits 16 to 30 hash them. */
  lemma CheckValue(digits: seq<bv8>)
    requires digits == [0x31, 0x32, 0x33, 0x34, 0x35, 0x36, 0x37, 0x38, 0x39]
    ensures !Register(0xffffffff, digits) == 0xcbf43926 && Digest(digits) == 0x4bf4
  {
    TurnsSound();
    DigitSteps();
    DigitChain(Turns, digits);
  }
}
