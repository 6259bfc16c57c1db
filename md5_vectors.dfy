/**
 * The first test vector of RFC 1321 appendix A.5: the MD5 of the empty
 * message is d41d8cd98f00b204e9800998ecf8427e. The 64 steps of its single
 * block are followed one register state at a time.
 */
module Md5Vectors {
  import opened Md5

  /** The single padded block of the empty message: 0x80 followed by zeros. */
  const EmptyBlock: seq<byte> := seq(64, i requires 0 <= i < 64 => if i == 0 then 0x80 else 0)

  lemma PaddedEmpty(msg: seq<byte>)
    requires |msg| == 0
    ensures Padded(msg) == EmptyBlock
  {
    var p := Padded(msg);
    PaddedLengthLeast(0);
    assert |p| == 64;
    assert LengthField(0) == [0, 0, 0, 0, 0, 0, 0, 0];
    forall i | 0 <= i < 64 ensures p[i] == EmptyBlock[i] {
      if i >= 56 {
        assert p[i] == p[56..][i - 56];
      }
    }
  }

  /** The entries of the two tables. */
  lemma TableValues()
    ensures S[0] == 7 && K[0] == 0xD76A_A478
    ensures S[1] == 12 && K[1] == 0xE8C7_B756
    ensures S[2] == 17 && K[2] == 0x2420_70DB
    ensures S[3] == 22 && K[3] == 0xC1BD_CEEE
    ensures S[4] == 7 && K[4] == 0xF57C_0FAF
    ensures S[5] == 12 && K[5] == 0x4787_C62A
    ensures S[6] == 17 && K[6] == 0xA830_4613
    ensures S[7] == 22 && K[7] == 0xFD46_9501
    ensures S[8] == 7 && K[8] == 0x6980_98D8
    ensures S[9] == 12 && K[9] == 0x8B44_F7AF
    ensures S[10] == 17 && K[10] == 0xFFFF_5BB1
    ensures S[11] == 22 && K[11] == 0x895C_D7BE
    ensures S[12] == 7 && K[12] == 0x6B90_1122
    ensures S[13] == 12 && K[13] == 0xFD98_7193
    ensures S[14] == 17 && K[14] == 0xA679_438E
    ensures S[15] == 22 && K[15] == 0x49B4_0821
    ensures S[16] == 5 && K[16] == 0xF61E_2562
    ensures S[17] == 9 && K[17] == 0xC040_B340
    ensures S[18] == 14 && K[18] == 0x265E_5A51
    ensures S[19] == 20 && K[19] == 0xE9B6_C7AA
    ensures S[20] == 5 && K[20] == 0xD62F_105D
    ensures S[21] == 9 && K[21] == 0x0244_1453
    ensures S[22] == 14 && K[22] == 0xD8A1_E681
    ensures S[23] == 20 && K[23] == 0xE7D3_FBC8
    ensures S[24] == 5 && K[24] == 0x21E1_CDE6
    ensures S[25] == 9 && K[25] == 0xC337_07D6
    ensures S[26] == 14 && K[26] == 0xF4D5_0D87
    ensures S[27] == 20 && K[27] == 0x455A_14ED
    ensures S[28] == 5 && K[28] == 0xA9E3_E905
    ensures S[29] == 9 && K[29] == 0xFCEF_A3F8
    ensures S[30] == 14 && K[30] == 0x676F_02D9
    ensures S[31] == 20 && K[31] == 0x8D2A_4C8A
    ensures S[32] == 4 && K[32] == 0xFFFA_3942
    ensures S[33] == 11 && K[33] == 0x8771_F681
    ensures S[34] == 16 && K[34] == 0x6D9D_6122
    ensures S[35] == 23 && K[35] == 0xFDE5_380C
    ensures S[36] == 4 && K[36] == 0xA4BE_EA44
    ensures S[37] == 11 && K[37] == 0x4BDE_CFA9
    ensures S[38] == 16 && K[38] == 0xF6BB_4B60
    ensures S[39] == 23 && K[39] == 0xBEBF_BC70
    ensures S[40] == 4 && K[40] == 0x289B_7EC6
    ensures S[41] == 11 && K[41] == 0xEAA1_27FA
    ensures S[42] == 16 && K[42] == 0xD4EF_3085
    ensures S[43] == 23 && K[43] == 0x0488_1D05
    ensures S[44] == 4 && K[44] == 0xD9D4_D039
    ensures S[45] == 11 && K[45] == 0xE6DB_99E5
    ensures S[46] == 16 && K[46] == 0x1FA2_7CF8
    ensures S[47] == 23 && K[47] == 0xC4AC_5665
    ensures S[48] == 6 && K[48] == 0xF429_2244
    ensures S[49] == 10 && K[49] == 0x432A_FF97
    ensures S[50] == 15 && K[50] == 0xAB94_23A7
    ensures S[51] == 21 && K[51] == 0xFC93_A039
    ensures S[52] == 6 && K[52] == 0x655B_59C3
    ensures S[53] == 10 && K[53] == 0x8F0C_CC92
    ensures S[54] == 15 && K[54] == 0xFFEF_F47D
    ensures S[55] == 21 && K[55] == 0x8584_5DD1
    ensures S[56] == 6 && K[56] == 0x6FA8_7E4F
    ensures S[57] == 10 && K[57] == 0xFE2C_E6E0
    ensures S[58] == 15 && K[58] == 0xA301_4314
    ensures S[59] == 21 && K[59] == 0x4E08_11A1
    ensures S[60] == 6 && K[60] == 0xF753_7E82
    ensures S[61] == 10 && K[61] == 0xBD3A_F235
    ensures S[62] == 15 && K[62] == 0x2AD7_D2BB
    ensures S[63] == 21 && K[63] == 0xEB86_D391
  {
  }

  /** The word each step reads. */
  lemma WordIndexValues()
    ensures WordIndex(0) == 0
    ensures WordIndex(1) == 1
    ensures WordIndex(2) == 2
    ensures WordIndex(3) == 3
    ensures WordIndex(4) == 4
    ensures WordIndex(5) == 5
    ensures WordIndex(6) == 6
    ensures WordIndex(7) == 7
    ensures WordIndex(8) == 8
    ensures WordIndex(9) == 9
    ensures WordIndex(10) == 10
    ensures WordIndex(11) == 11
    ensures WordIndex(12) == 12
    ensures WordIndex(13) == 13
    ensures WordIndex(14) == 14
    ensures WordIndex(15) == 15
    ensures WordIndex(16) == 1
    ensures WordIndex(17) == 6
    ensures WordIndex(18) == 11
    ensures WordIndex(19) == 0
    ensures WordIndex(20) == 5
    ensures WordIndex(21) == 10
    ensures WordIndex(22) == 15
    ensures WordIndex(23) == 4
    ensures WordIndex(24) == 9
    ensures WordIndex(25) == 14
    ensures WordIndex(26) == 3
    ensures WordIndex(27) == 8
    ensures WordIndex(28) == 13
    ensures WordIndex(29) == 2
    ensures WordIndex(30) == 7
    ensures WordIndex(31) == 12
    ensures WordIndex(32) == 5
    ensures WordIndex(33) == 8
    ensures WordIndex(34) == 11
    ensures WordIndex(35) == 14
    ensures WordIndex(36) == 1
    ensures WordIndex(37) == 4
    ensures WordIndex(38) == 7
    ensures WordIndex(39) == 10
    ensures WordIndex(40) == 13
    ensures WordIndex(41) == 0
    ensures WordIndex(42) == 3
    ensures WordIndex(43) == 6
    ensures WordIndex(44) == 9
    ensures WordIndex(45) == 12
    ensures WordIndex(46) == 15
    ensures WordIndex(47) == 2
    ensures WordIndex(48) == 0
    ensures WordIndex(49) == 7
    ensures WordIndex(50) == 14
    ensures WordIndex(51) == 5
    ensures WordIndex(52) == 12
    ensures WordIndex(53) == 3
    ensures WordIndex(54) == 10
    ensures WordIndex(55) == 1
    ensures WordIndex(56) == 8
    ensures WordIndex(57) == 15
    ensures WordIndex(58) == 6
    ensures WordIndex(59) == 13
    ensures WordIndex(60) == 4
    ensures WordIndex(61) == 11
    ensures WordIndex(62) == 2
    ensures WordIndex(63) == 9
  {
  }

  /** The words of the empty message's block: 0x80, then fifteen zeros. */
  lemma EmptyWord(m: seq<byte>, g: nat)
    requires m == EmptyBlock && g < 16
    ensures Word(m, 4 * g) == if g == 0 then 0x80 else 0
  {
  }

  /** One more step of the block, from a known register state. */
  lemma StepLink(m: seq<byte>, n: nat, r: Regs, x: bv32, r': Regs)
    requires 64 <= |m| && n < 64
    requires Steps(InitialRegs, m, 0, n) == r
    requires Word(m, 4 * WordIndex(n)) == x && Step(r, n, x) == r'
    ensures Steps(InitialRegs, m, 0, n + 1) == r'
  {
    StepsNext(InitialRegs, m, 0, n);
  }

  lemma EmptySteps1(m: seq<byte>)
    requires m == EmptyBlock
    ensures Steps(InitialRegs, m, 0, 1) == Regs(0x1032_5476, 0xA520_2774, 0xEFCD_AB89, 0x98BA_DCFE)
  {
    assert Steps(InitialRegs, m, 0, 0) == InitialRegs;
    TableValues();
    WordIndexValues();
    EmptyWord(m, 0);
    assert Sum(0x6745_2301, Aux(0, 0xEFCD_AB89, 0x98BA_DCFE, 0x1032_5476), K[0], 0x0000_0080) == 0xD76A_A4F7;
    assert LeftRotate(0xD76A_A4F7, S[0]) == 0xB552_7BEB;
    StepLink(m, 0, Regs(0x6745_2301, 0xEFCD_AB89, 0x98BA_DCFE, 0x1032_5476), 0x0000_0080, Regs(0x1032_5476, 0xA520_2774, 0xEFCD_AB89, 0x98BA_DCFE));
  }

  lemma EmptySteps2(m: seq<byte>)
    requires m == EmptyBlock
    ensures Steps(InitialRegs, m, 0, 2) == Regs(0x98BA_DCFE, 0xF595_92DD, 0xA520_2774, 0xEFCD_AB89)
  {
    EmptySteps1(m);
    TableValues();
    WordIndexValues();
    EmptyWord(m, 1);
    assert Sum(0x1032_5476, Aux(1, 0xA520_2774, 0xEFCD_AB89, 0x98BA_DCFE), K[1], 0x0000_0000) == 0xB695_0756;
    assert LeftRotate(0xB695_0756, S[1]) == 0x5075_6B69;
    StepLink(m, 1, Regs(0x1032_5476, 0xA520_2774, 0xEFCD_AB89, 0x98BA_DCFE), 0x0000_0000, Regs(0x98BA_DCFE, 0xF595_92DD, 0xA520_2774, 0xEFCD_AB89));
  }

  lemma EmptySteps3(m: seq<byte>)
    requires m == EmptyBlock
    ensures Steps(InitialRegs, m, 0, 3) == Regs(0xEFCD_AB89, 0xE7F0_6B23, 0xF595_92DD, 0xA520_2774)
  {
    EmptySteps2(m);
    TableValues();
    WordIndexValues();
    EmptyWord(m, 2);
    assert Sum(0x98BA_DCFE, Aux(2, 0xF595_92DD, 0xA520_2774, 0xEFCD_AB89), K[2], 0x0000_0000) == 0x6C23_792D;
    assert LeftRotate(0x6C23_792D, S[2]) == 0xF25A_D846;
    StepLink(m, 2, Regs(0x98BA_DCFE, 0xF595_92DD, 0xA520_2774, 0xEFCD_AB89), 0x0000_0000, Regs(0xEFCD_AB89, 0xE7F0_6B23, 0xF595_92DD, 0xA520_2774));
  }

  lemma EmptySteps4(m: seq<byte>)
    requires m == EmptyBlock
    ensures Steps(InitialRegs, m, 0, 4) == Regs(0xA520_2774, 0x1B16_3203, 0xE7F0_6B23, 0xF595_92DD)
  {
    EmptySteps3(m);
    TableValues();
    WordIndexValues();
    EmptyWord(m, 3);
    assert Sum(0xEFCD_AB89, Aux(3, 0xE7F0_6B23, 0xF595_92DD, 0xA520_2774), K[3], 0x0000_0000) == 0x971B_80CC;
    assert LeftRotate(0x971B_80CC, S[3]) == 0x3325_C6E0;
    StepLink(m, 3, Regs(0xEFCD_AB89, 0xE7F0_6B23, 0xF595_92DD, 0xA520_2774), 0x0000_0000, Regs(0xA520_2774, 0x1B16_3203, 0xE7F0_6B23, 0xF595_92DD));
  }

  lemma EmptySteps5(m: seq<byte>)
    requires m == EmptyBlock
    ensures Steps(InitialRegs, m, 0, 5) == Regs(0xF595_92DD, 0x3203_3344, 0x1B16_3203, 0xE7F0_6B23)
  {
    EmptySteps4(m);
    TableValues();
    WordIndexValues();
    EmptyWord(m, 4);
    assert Sum(0xA520_2774, Aux(4, 0x1B16_3203, 0xE7F0_6B23, 0xF595_92DD), K[4], 0x0000_0000) == 0x822D_DA02;
    assert LeftRotate(0x822D_DA02, S[4]) == 0x16ED_0141;
    StepLink(m, 4, Regs(0xA520_2774, 0x1B16_3203, 0xE7F0_6B23, 0xF595_92DD), 0x0000_0000, Regs(0xF595_92DD, 0x3203_3344, 0x1B16_3203, 0xE7F0_6B23));
  }

  lemma EmptySteps6(m: seq<byte>)
    requires m == EmptyBlock
    ensures Steps(InitialRegs, m, 0, 6) == Regs(0xE7F0_6B23, 0x2F35_D494, 0x3203_3344, 0x1B16_3203)
  {
    EmptySteps5(m);
    TableValues();
    WordIndexValues();
    EmptyWord(m, 5);
    assert Sum(0xF595_92DD, Aux(5, 0x3203_3344, 0x1B16_3203, 0xE7F0_6B23), K[5], 0x0000_0000) == 0x150F_D32A;
    assert LeftRotate(0x150F_D32A, S[5]) == 0xFD32_A150;
    StepLink(m, 5, Regs(0xF595_92DD, 0x3203_3344, 0x1B16_3203, 0xE7F0_6B23), 0x0000_0000, Regs(0xE7F0_6B23, 0x2F35_D494, 0x3203_3344, 0x1B16_3203));
  }

  lemma EmptySteps7(m: seq<byte>)
    requires m == EmptyBlock
    ensures Steps(InitialRegs, m, 0, 7) == Regs(0x1B16_3203, 0xF5B1_58DB, 0x2F35_D494, 0x3203_3344)
  {
    EmptySteps6(m);
    TableValues();
    WordIndexValues();
    EmptyWord(m, 6);
    assert Sum(0xE7F0_6B23, Aux(6, 0x2F35_D494, 0x3203_3344, 0x1B16_3203), K[6], 0x0000_0000) == 0xC223_E33D;
    assert LeftRotate(0xC223_E33D, S[6]) == 0xC67B_8447;
    StepLink(m, 6, Regs(0xE7F0_6B23, 0x2F35_D494, 0x3203_3344, 0x1B16_3203), 0x0000_0000, Regs(0x1B16_3203, 0xF5B1_58DB, 0x2F35_D494, 0x3203_3344));
  }

  lemma EmptySteps8(m: seq<byte>)
    requires m == EmptyBlock
    ensures Steps(InitialRegs, m, 0, 8) == Regs(0x3203_3344, 0x9BC1_3CE9, 0xF5B1_58DB, 0x2F35_D494)
  {
    EmptySteps7(m);
    TableValues();
    WordIndexValues();
    EmptyWord(m, 7);
    assert Sum(0x1B16_3203, Aux(7, 0xF5B1_58DB, 0x2F35_D494, 0x3203_3344), K[7], 0x0000_0000) == 0x3F90_3A98;
    assert LeftRotate(0x3F90_3A98, S[7]) == 0xA60F_E40E;
    StepLink(m, 7, Regs(0x1B16_3203, 0xF5B1_58DB, 0x2F35_D494, 0x3203_3344), 0x0000_0000, Regs(0x3203_3344, 0x9BC1_3CE9, 0xF5B1_58DB, 0x2F35_D494));
  }

  lemma EmptySteps9(m: seq<byte>)
    requires m == EmptyBlock
    ensures Steps(InitialRegs, m, 0, 9) == Regs(0x2F35_D494, 0x3893_B991, 0x9BC1_3CE9, 0xF5B1_58DB)
  {
    EmptySteps8(m);
    TableValues();
    WordIndexValues();
    EmptyWord(m, 8);
    assert Sum(0x3203_3344, Aux(8, 0x9BC1_3CE9, 0xF5B1_58DB, 0x2F35_D494), K[8], 0x0000_0000) == 0x5139_A4F9;
    assert LeftRotate(0x5139_A4F9, S[8]) == 0x9CD2_7CA8;
    StepLink(m, 8, Regs(0x3203_3344, 0x9BC1_3CE9, 0xF5B1_58DB, 0x2F35_D494), 0x0000_0000, Regs(0x2F35_D494, 0x3893_B991, 0x9BC1_3CE9, 0xF5B1_58DB));
  }

  lemma EmptySteps10(m: seq<byte>)
    requires m == EmptyBlock
    ensures Steps(InitialRegs, m, 0, 10) == Regs(0xF5B1_58DB, 0xFCE4_A312, 0x3893_B991, 0x9BC1_3CE9)
  {
    EmptySteps9(m);
    TableValues();
    WordIndexValues();
    EmptyWord(m, 9);
    assert Sum(0x2F35_D494, Aux(9, 0x3893_B991, 0x9BC1_3CE9, 0xF5B1_58DB), K[9], 0x0000_0000) == 0x981C_450E;
    assert LeftRotate(0x981C_450E, S[9]) == 0xC450_E981;
    StepLink(m, 9, Regs(0x2F35_D494, 0x3893_B991, 0x9BC1_3CE9, 0xF5B1_58DB), 0x0000_0000, Regs(0xF5B1_58DB, 0xFCE4_A312, 0x3893_B991, 0x9BC1_3CE9));
  }

  lemma EmptySteps11(m: seq<byte>)
    requires m == EmptyBlock
    ensures Steps(InitialRegs, m, 0, 11) == Regs(0x9BC1_3CE9, 0xE1EF_0576, 0xFCE4_A312, 0x3893_B991)
  {
    EmptySteps10(m);
    TableValues();
    WordIndexValues();
    EmptyWord(m, 10);
    assert Sum(0xF5B1_58DB, Aux(10, 0xFCE4_A312, 0x3893_B991, 0x9BC1_3CE9), K[10], 0x0000_0000) == 0x3132_7285;
    assert LeftRotate(0x3132_7285, S[10]) == 0xE50A_6264;
    StepLink(m, 10, Regs(0xF5B1_58DB, 0xFCE4_A312, 0x3893_B991, 0x9BC1_3CE9), 0x0000_0000, Regs(0x9BC1_3CE9, 0xE1EF_0576, 0xFCE4_A312, 0x3893_B991));
  }

  lemma EmptySteps12(m: seq<byte>)
    requires m == EmptyBlock
    ensures Steps(InitialRegs, m, 0, 12) == Regs(0x3893_B991, 0x7076_8A29, 0xE1EF_0576, 0xFCE4_A312)
  {
    EmptySteps11(m);
    TableValues();
    WordIndexValues();
    EmptyWord(m, 11);
    assert Sum(0x9BC1_3CE9, Aux(11, 0xE1EF_0576, 0xFCE4_A312, 0x3893_B991), K[11], 0x0000_0000) == 0x1E12_CE3A;
    assert LeftRotate(0x1E12_CE3A, S[11]) == 0x8E87_84B3;
    StepLink(m, 11, Regs(0x9BC1_3CE9, 0xE1EF_0576, 0xFCE4_A312, 0x3893_B991), 0x0000_0000, Regs(0x3893_B991, 0x7076_8A29, 0xE1EF_0576, 0xFCE4_A312));
  }

  lemma EmptySteps13(m: seq<byte>)
    requires m == EmptyBlock
    ensures Steps(InitialRegs, m, 0, 13) == Regs(0xFCE4_A312, 0xF56C_7CF1, 0x7076_8A29, 0xE1EF_0576)
  {
    EmptySteps12(m);
    TableValues();
    WordIndexValues();
    EmptyWord(m, 12);
    assert Sum(0x3893_B991, Aux(12, 0x7076_8A29, 0xE1EF_0576, 0xFCE4_A312), K[12], 0x0000_0000) == 0x9109_EBE5;
    assert LeftRotate(0x9109_EBE5, S[12]) == 0x84F5_F2C8;
    StepLink(m, 12, Regs(0x3893_B991, 0x7076_8A29, 0xE1EF_0576, 0xFCE4_A312), 0x0000_0000, Regs(0xFCE4_A312, 0xF56C_7CF1, 0x7076_8A29, 0xE1EF_0576));
  }

  lemma EmptySteps14(m: seq<byte>)
    requires m == EmptyBlock
    ensures Steps(InitialRegs, m, 0, 14) == Regs(0xE1EF_0576, 0x3749_43A7, 0xF56C_7CF1, 0x7076_8A29)
  {
    EmptySteps13(m);
    TableValues();
    WordIndexValues();
    EmptyWord(m, 13);
    assert Sum(0xFCE4_A312, Aux(13, 0xF56C_7CF1, 0x7076_8A29, 0xE1EF_0576), K[13], 0x0000_0000) == 0x6B64_1DCC;
    assert LeftRotate(0x6B64_1DCC, S[13]) == 0x41DC_C6B6;
    StepLink(m, 13, Regs(0xFCE4_A312, 0xF56C_7CF1, 0x7076_8A29, 0xE1EF_0576), 0x0000_0000, Regs(0xE1EF_0576, 0x3749_43A7, 0xF56C_7CF1, 0x7076_8A29));
  }

  lemma EmptySteps15(m: seq<byte>)
    requires m == EmptyBlock
    ensures Steps(InitialRegs, m, 0, 15) == Regs(0x7076_8A29, 0x5AA5_3F75, 0x3749_43A7, 0xF56C_7CF1)
  {
    EmptySteps14(m);
    TableValues();
    WordIndexValues();
    EmptyWord(m, 14);
    assert Sum(0xE1EF_0576, Aux(14, 0x3749_43A7, 0xF56C_7CF1, 0x7076_8A29), K[14], 0x0000_0000) == 0xFDE7_11AD;
    assert LeftRotate(0xFDE7_11AD, S[14]) == 0x235B_FBCE;
    StepLink(m, 14, Regs(0xE1EF_0576, 0x3749_43A7, 0xF56C_7CF1, 0x7076_8A29), 0x0000_0000, Regs(0x7076_8A29, 0x5AA5_3F75, 0x3749_43A7, 0xF56C_7CF1));
  }

  lemma EmptySteps16(m: seq<byte>)
    requires m == EmptyBlock
    ensures Steps(InitialRegs, m, 0, 16) == Regs(0xF56C_7CF1, 0xD681_9C6A, 0x5AA5_3F75, 0x3749_43A7)
  {
    EmptySteps15(m);
    TableValues();
    WordIndexValues();
    EmptyWord(m, 15);
    assert Sum(0x7076_8A29, Aux(15, 0x5AA5_3F75, 0x3749_43A7, 0xF56C_7CF1), K[15], 0x0000_0000) == 0x7173_D5EF;
    assert LeftRotate(0x7173_D5EF, S[15]) == 0x7BDC_5CF5;
    StepLink(m, 15, Regs(0x7076_8A29, 0x5AA5_3F75, 0x3749_43A7, 0xF56C_7CF1), 0x0000_0000, Regs(0xF56C_7CF1, 0xD681_9C6A, 0x5AA5_3F75, 0x3749_43A7));
  }

  lemma EmptySteps17(m: seq<byte>)
    requires m == EmptyBlock
    ensures Steps(InitialRegs, m, 0, 17) == Regs(0x3749_43A7, 0x1C7D_7513, 0xD681_9C6A, 0x5AA5_3F75)
  {
    EmptySteps16(m);
    TableValues();
    WordIndexValues();
    EmptyWord(m, 1);
    assert Sum(0xF56C_7CF1, Aux(16, 0xD681_9C6A, 0x5AA5_3F75, 0x3749_43A7), K[16], 0x0000_0000) == 0x4A2F_DEC5;
    assert LeftRotate(0x4A2F_DEC5, S[16]) == 0x45FB_D8A9;
    StepLink(m, 16, Regs(0xF56C_7CF1, 0xD681_9C6A, 0x5AA5_3F75, 0x3749_43A7), 0x0000_0000, Regs(0x3749_43A7, 0x1C7D_7513, 0xD681_9C6A, 0x5AA5_3F75));
  }

  lemma EmptySteps18(m: seq<byte>)
    requires m == EmptyBlock
    ensures Steps(InitialRegs, m, 0, 18) == Regs(0x5AA5_3F75, 0x7BD5_7A3A, 0x1C7D_7513, 0xD681_9C6A)
  {
    EmptySteps17(m);
    TableValues();
    WordIndexValues();
    EmptyWord(m, 6);
    assert Sum(0x3749_43A7, Aux(17, 0x1C7D_7513, 0xD681_9C6A, 0x5AA5_3F75), K[17], 0x0000_0000) == 0x93AF_AC02;
    assert LeftRotate(0x93AF_AC02, S[17]) == 0x5F58_0527;
    StepLink(m, 17, Regs(0x3749_43A7, 0x1C7D_7513, 0xD681_9C6A, 0x5AA5_3F75), 0x0000_0000, Regs(0x5AA5_3F75, 0x7BD5_7A3A, 0x1C7D_7513, 0xD681_9C6A));
  }

  lemma EmptySteps19(m: seq<byte>)
    requires m == EmptyBlock
    ensures Steps(InitialRegs, m, 0, 19) == Regs(0xD681_9C6A, 0xC095_F13A, 0x7BD5_7A3A, 0x1C7D_7513)
  {
    EmptySteps18(m);
    TableValues();
    WordIndexValues();
    EmptyWord(m, 11);
    assert Sum(0x5AA5_3F75, Aux(18, 0x7BD5_7A3A, 0x1C7D_7513, 0xD681_9C6A), K[18], 0x0000_0000) == 0xDC01_1301;
    assert LeftRotate(0xDC01_1301, S[18]) == 0x44C0_7700;
    StepLink(m, 18, Regs(0x5AA5_3F75, 0x7BD5_7A3A, 0x1C7D_7513, 0xD681_9C6A), 0x0000_0000, Regs(0xD681_9C6A, 0xC095_F13A, 0x7BD5_7A3A, 0x1C7D_7513));
  }

  lemma EmptySteps20(m: seq<byte>)
    requires m == EmptyBlock
    ensures Steps(InitialRegs, m, 0, 20) == Regs(0x1C7D_7513, 0xBD78_2E17, 0xC095_F13A, 0x7BD5_7A3A)
  {
    EmptySteps19(m);
    TableValues();
    WordIndexValues();
    EmptyWord(m, 0);
    assert Sum(0xD681_9C6A, Aux(19, 0xC095_F13A, 0x7BD5_7A3A, 0x1C7D_7513), K[19], 0x0000_0080) == 0x23CD_DFCE;
    assert LeftRotate(0x23CD_DFCE, S[19]) == 0xFCE2_3CDD;
    StepLink(m, 19, Regs(0xD681_9C6A, 0xC095_F13A, 0x7BD5_7A3A, 0x1C7D_7513), 0x0000_0080, Regs(0x1C7D_7513, 0xBD78_2E17, 0xC095_F13A, 0x7BD5_7A3A));
  }

  lemma EmptySteps21(m: seq<byte>)
    requires m == EmptyBlock
    ensures Steps(InitialRegs, m, 0, 21) == Regs(0x7BD5_7A3A, 0x3D1E_3E6C, 0xBD78_2E17, 0xC095_F13A)
  {
    EmptySteps20(m);
    TableValues();
    WordIndexValues();
    EmptyWord(m, 5);
    assert Sum(0x1C7D_7513, Aux(20, 0xBD78_2E17, 0xC095_F13A, 0x7BD5_7A3A), K[20], 0x0000_0000) == 0xABFD_3082;
    assert LeftRotate(0xABFD_3082, S[20]) == 0x7FA6_1055;
    StepLink(m, 20, Regs(0x1C7D_7513, 0xBD78_2E17, 0xC095_F13A, 0x7BD5_7A3A), 0x0000_0000, Regs(0x7BD5_7A3A, 0x3D1E_3E6C, 0xBD78_2E17, 0xC095_F13A));
  }

  lemma EmptySteps22(m: seq<byte>)
    requires m == EmptyBlock
    ensures Steps(InitialRegs, m, 0, 22) == Regs(0xC095_F13A, 0x68B7_B3E3, 0x3D1E_3E6C, 0xBD78_2E17)
  {
    EmptySteps21(m);
    TableValues();
    WordIndexValues();
    EmptyWord(m, 10);
    assert Sum(0x7BD5_7A3A, Aux(21, 0x3D1E_3E6C, 0xBD78_2E17, 0xC095_F13A), K[21], 0x0000_0000) == 0xBB95_CCBA;
    assert LeftRotate(0xBB95_CCBA, S[21]) == 0x2B99_7577;
    StepLink(m, 21, Regs(0x7BD5_7A3A, 0x3D1E_3E6C, 0xBD78_2E17, 0xC095_F13A), 0x0000_0000, Regs(0xC095_F13A, 0x68B7_B3E3, 0x3D1E_3E6C, 0xBD78_2E17));
  }

  lemma EmptySteps23(m: seq<byte>)
    requires m == EmptyBlock
    ensures Steps(InitialRegs, m, 0, 23) == Regs(0xBD78_2E17, 0xEB41_643E, 0x68B7_B3E3, 0x3D1E_3E6C)
  {
    EmptySteps22(m);
    TableValues();
    WordIndexValues();
    EmptyWord(m, 15);
    assert Sum(0xC095_F13A, Aux(22, 0x68B7_B3E3, 0x3D1E_3E6C, 0xBD78_2E17), K[22], 0x0000_0000) == 0xC16E_0A26;
    assert LeftRotate(0xC16E_0A26, S[22]) == 0x8289_B05B;
    StepLink(m, 22, Regs(0xC095_F13A, 0x68B7_B3E3, 0x3D1E_3E6C, 0xBD78_2E17), 0x0000_0000, Regs(0xBD78_2E17, 0xEB41_643E, 0x68B7_B3E3, 0x3D1E_3E6C));
  }

  lemma EmptySteps24(m: seq<byte>)
    requires m == EmptyBlock
    ensures Steps(InitialRegs, m, 0, 24) == Regs(0x3D1E_3E6C, 0xE422_531A, 0xEB41_643E, 0x68B7_B3E3)
  {
    EmptySteps23(m);
    TableValues();
    WordIndexValues();
    EmptyWord(m, 4);
    assert Sum(0xBD78_2E17, Aux(23, 0xEB41_643E, 0x68B7_B3E3, 0x3D1E_3E6C), K[23], 0x0000_0000) == 0x0EED_CF8E;
    assert LeftRotate(0x0EED_CF8E, S[23]) == 0xF8E0_EEDC;
    StepLink(m, 23, Regs(0xBD78_2E17, 0xEB41_643E, 0x68B7_B3E3, 0x3D1E_3E6C), 0x0000_0000, Regs(0x3D1E_3E6C, 0xE422_531A, 0xEB41_643E, 0x68B7_B3E3));
  }

  lemma EmptySteps25(m: seq<byte>)
    requires m == EmptyBlock
    ensures Steps(InitialRegs, m, 0, 25) == Regs(0x68B7_B3E3, 0x306E_C122, 0xE422_531A, 0xEB41_643E)
  {
    EmptySteps24(m);
    TableValues();
    WordIndexValues();
    EmptyWord(m, 9);
    assert Sum(0x3D1E_3E6C, Aux(24, 0xE422_531A, 0xEB41_643E, 0x68B7_B3E3), K[24], 0x0000_0000) == 0x4262_6370;
    assert LeftRotate(0x4262_6370, S[24]) == 0x4C4C_6E08;
    StepLink(m, 24, Regs(0x3D1E_3E6C, 0xE422_531A, 0xEB41_643E, 0x68B7_B3E3), 0x0000_0000, Regs(0x68B7_B3E3, 0x306E_C122, 0xE422_531A, 0xEB41_643E));
  }

  lemma EmptySteps26(m: seq<byte>)
    requires m == EmptyBlock
    ensures Steps(InitialRegs, m, 0, 26) == Regs(0xEB41_643E, 0xD28C_77C2, 0x306E_C122, 0xE422_531A)
  {
    EmptySteps25(m);
    TableValues();
    WordIndexValues();
    EmptyWord(m, 14);
    assert Sum(0x68B7_B3E3, Aux(25, 0x306E_C122, 0xE422_531A, 0xEB41_643E), K[25], 0x0000_0000) == 0x5051_0EDB;
    assert LeftRotate(0x5051_0EDB, S[25]) == 0xA21D_B6A0;
    StepLink(m, 25, Regs(0x68B7_B3E3, 0x306E_C122, 0xE422_531A, 0xEB41_643E), 0x0000_0000, Regs(0xEB41_643E, 0xD28C_77C2, 0x306E_C122, 0xE422_531A));
  }

  lemma EmptySteps27(m: seq<byte>)
    requires m == EmptyBlock
    ensures Steps(InitialRegs, m, 0, 27) == Regs(0xE422_531A, 0xA3C6_63DA, 0xD28C_77C2, 0x306E_C122)
  {
    EmptySteps26(m);
    TableValues();
    WordIndexValues();
    EmptyWord(m, 3);
    assert Sum(0xEB41_643E, Aux(26, 0xD28C_77C2, 0x306E_C122, 0xE422_531A), K[26], 0x0000_0000) == 0xB063_44E7;
    assert LeftRotate(0xB063_44E7, S[26]) == 0xD139_EC18;
    StepLink(m, 26, Regs(0xEB41_643E, 0xD28C_77C2, 0x306E_C122, 0xE422_531A), 0x0000_0000, Regs(0xE422_531A, 0xA3C6_63DA, 0xD28C_77C2, 0x306E_C122));
  }

  lemma EmptySteps28(m: seq<byte>)
    requires m == EmptyBlock
    ensures Steps(InitialRegs, m, 0, 28) == Regs(0x306E_C122, 0xA057_2807, 0xA3C6_63DA, 0xD28C_77C2)
  {
    EmptySteps27(m);
    TableValues();
    WordIndexValues();
    EmptyWord(m, 8);
    assert Sum(0xE422_531A, Aux(27, 0xA3C6_63DA, 0xD28C_77C2, 0x306E_C122), K[27], 0x0000_0000) == 0x0C42_DFC9;
    assert LeftRotate(0x0C42_DFC9, S[27]) == 0xFC90_C42D;
    StepLink(m, 27, Regs(0xE422_531A, 0xA3C6_63DA, 0xD28C_77C2, 0x306E_C122), 0x0000_0000, Regs(0x306E_C122, 0xA057_2807, 0xA3C6_63DA, 0xD28C_77C2));
  }

  lemma EmptySteps29(m: seq<byte>)
    requires m == EmptyBlock
    ensures Steps(InitialRegs, m, 0, 29) == Regs(0xD28C_77C2, 0x1370_7036, 0xA057_2807, 0xA3C6_63DA)
  {
    EmptySteps28(m);
    TableValues();
    WordIndexValues();
    EmptyWord(m, 13);
    assert Sum(0x306E_C122, Aux(28, 0xA057_2807, 0xA3C6_63DA, 0xD28C_77C2), K[28], 0x0000_0000) == 0x7B98_CA41;
    assert LeftRotate(0x7B98_CA41, S[28]) == 0x7319_482F;
    StepLink(m, 28, Regs(0x306E_C122, 0xA057_2807, 0xA3C6_63DA, 0xD28C_77C2), 0x0000_0000, Regs(0xD28C_77C2, 0x1370_7036, 0xA057_2807, 0xA3C6_63DA));
  }

  lemma EmptySteps30(m: seq<byte>)
    requires m == EmptyBlock
    ensures Steps(InitialRegs, m, 0, 30) == Regs(0xA3C6_63DA, 0xAE78_13DB, 0x1370_7036, 0xA057_2807)
  {
    EmptySteps29(m);
    TableValues();
    WordIndexValues();
    EmptyWord(m, 2);
    assert Sum(0xD28C_77C2, Aux(29, 0x1370_7036, 0xA057_2807, 0xA3C6_63DA), K[29], 0x0000_0000) == 0xD2CD_83D1;
    assert LeftRotate(0xD2CD_83D1, S[29]) == 0x9B07_A3A5;
    StepLink(m, 29, Regs(0xD28C_77C2, 0x1370_7036, 0xA057_2807, 0xA3C6_63DA), 0x0000_0000, Regs(0xA3C6_63DA, 0xAE78_13DB, 0x1370_7036, 0xA057_2807));
  }

  lemma EmptySteps31(m: seq<byte>)
    requires m == EmptyBlock
    ensures Steps(InitialRegs, m, 0, 31) == Regs(0xA057_2807, 0x1C31_C384, 0xAE78_13DB, 0x1370_7036)
  {
    EmptySteps30(m);
    TableValues();
    WordIndexValues();
    EmptyWord(m, 7);
    assert Sum(0xA3C6_63DA, Aux(30, 0xAE78_13DB, 0x1370_7036, 0xA057_2807), K[30], 0x0000_0000) == 0xBEA5_B6E6;
    assert LeftRotate(0xBEA5_B6E6, S[30]) == 0x6DB9_AFA9;
    StepLink(m, 30, Regs(0xA3C6_63DA, 0xAE78_13DB, 0x1370_7036, 0xA057_2807), 0x0000_0000, Regs(0xA057_2807, 0x1C31_C384, 0xAE78_13DB, 0x1370_7036));
  }

  lemma EmptySteps32(m: seq<byte>)
    requires m == EmptyBlock
    ensures Steps(InitialRegs, m, 0, 32) == Regs(0x1370_7036, 0xA220_5F1F, 0x1C31_C384, 0xAE78_13DB)
  {
    EmptySteps31(m);
    TableValues();
    WordIndexValues();
    EmptyWord(m, 12);
    assert Sum(0xA057_2807, Aux(31, 0x1C31_C384, 0xAE78_13DB, 0x1370_7036), K[31], 0x0000_0000) == 0xE9B9_B85E;
    assert LeftRotate(0xE9B9_B85E, S[31]) == 0x85EE_9B9B;
    StepLink(m, 31, Regs(0xA057_2807, 0x1C31_C384, 0xAE78_13DB, 0x1370_7036), 0x0000_0000, Regs(0x1370_7036, 0xA220_5F1F, 0x1C31_C384, 0xAE78_13DB));
  }

  lemma EmptySteps33(m: seq<byte>)
    requires m == EmptyBlock
    ensures Steps(InitialRegs, m, 0, 33) == Regs(0xAE78_13DB, 0xDF63_EAA1, 0xA220_5F1F, 0x1C31_C384)
  {
    EmptySteps32(m);
    TableValues();
    WordIndexValues();
    EmptyWord(m, 5);
    assert Sum(0x1370_7036, Aux(32, 0xA220_5F1F, 0x1C31_C384, 0xAE78_13DB), K[32], 0x0000_0000) == 0x23D4_38B8;
    assert LeftRotate(0x23D4_38B8, S[32]) == 0x3D43_8B82;
    StepLink(m, 32, Regs(0x1370_7036, 0xA220_5F1F, 0x1C31_C384, 0xAE78_13DB), 0x0000_0000, Regs(0xAE78_13DB, 0xDF63_EAA1, 0xA220_5F1F, 0x1C31_C384));
  }

  lemma EmptySteps34(m: seq<byte>)
    requires m == EmptyBlock
    ensures Steps(InitialRegs, m, 0, 34) == Regs(0x1C31_C384, 0xC368_9F5B, 0xDF63_EAA1, 0xA220_5F1F)
  {
    EmptySteps33(m);
    TableValues();
    WordIndexValues();
    EmptyWord(m, 8);
    assert Sum(0xAE78_13DB, Aux(33, 0xDF63_EAA1, 0xA220_5F1F, 0x1C31_C384), K[33], 0x0000_0000) == 0x975C_8096;
    assert LeftRotate(0x975C_8096, S[33]) == 0xE404_B4BA;
    StepLink(m, 33, Regs(0xAE78_13DB, 0xDF63_EAA1, 0xA220_5F1F, 0x1C31_C384), 0x0000_0000, Regs(0x1C31_C384, 0xC368_9F5B, 0xDF63_EAA1, 0xA220_5F1F));
  }

  lemma EmptySteps35(m: seq<byte>)
    requires m == EmptyBlock
    ensures Steps(InitialRegs, m, 0, 35) == Regs(0xA220_5F1F, 0x12F3_E755, 0xC368_9F5B, 0xDF63_EAA1)
  {
    EmptySteps34(m);
    TableValues();
    WordIndexValues();
    EmptyWord(m, 11);
    assert Sum(0x1C31_C384, Aux(34, 0xC368_9F5B, 0xDF63_EAA1, 0xA220_5F1F), K[34], 0x0000_0000) == 0x47FA_4F8B;
    assert LeftRotate(0x47FA_4F8B, S[34]) == 0x4F8B_47FA;
    StepLink(m, 34, Regs(0x1C31_C384, 0xC368_9F5B, 0xDF63_EAA1, 0xA220_5F1F), 0x0000_0000, Regs(0xA220_5F1F, 0x12F3_E755, 0xC368_9F5B, 0xDF63_EAA1));
  }

  lemma EmptySteps36(m: seq<byte>)
    requires m == EmptyBlock
    ensures Steps(InitialRegs, m, 0, 36) == Regs(0xDF63_EAA1, 0x004B_6669, 0x12F3_E755, 0xC368_9F5B)
  {
    EmptySteps35(m);
    TableValues();
    WordIndexValues();
    EmptyWord(m, 14);
    assert Sum(0xA220_5F1F, Aux(35, 0x12F3_E755, 0xC368_9F5B, 0xDF63_EAA1), K[35], 0x0000_0000) == 0xAEFE_29DA;
    assert LeftRotate(0xAEFE_29DA, S[35]) == 0xED57_7F14;
    StepLink(m, 35, Regs(0xA220_5F1F, 0x12F3_E755, 0xC368_9F5B, 0xDF63_EAA1), 0x0000_0000, Regs(0xDF63_EAA1, 0x004B_6669, 0x12F3_E755, 0xC368_9F5B));
  }

  lemma EmptySteps37(m: seq<byte>)
    requires m == EmptyBlock
    ensures Steps(InitialRegs, m, 0, 37) == Regs(0xC368_9F5B, 0x5F7A_9B2E, 0x004B_6669, 0x12F3_E755)
  {
    EmptySteps36(m);
    TableValues();
    WordIndexValues();
    EmptyWord(m, 1);
    assert Sum(0xDF63_EAA1, Aux(36, 0x004B_6669, 0x12F3_E755, 0xC368_9F5B), K[36], 0x0000_0000) == 0x55F2_F34C;
    assert LeftRotate(0x55F2_F34C, S[36]) == 0x5F2F_34C5;
    StepLink(m, 36, Regs(0xDF63_EAA1, 0x004B_6669, 0x12F3_E755, 0xC368_9F5B), 0x0000_0000, Regs(0xC368_9F5B, 0x5F7A_9B2E, 0x004B_6669, 0x12F3_E755));
  }

  lemma EmptySteps38(m: seq<byte>)
    requires m == EmptyBlock
    ensures Steps(InitialRegs, m, 0, 38) == Regs(0x12F3_E755, 0xABC3_4E16, 0x5F7A_9B2E, 0x004B_6669)
  {
    EmptySteps37(m);
    TableValues();
    WordIndexValues();
    EmptyWord(m, 4);
    assert Sum(0xC368_9F5B, Aux(37, 0x5F7A_9B2E, 0x004B_6669, 0x12F3_E755), K[37], 0x0000_0000) == 0x5D09_8916;
    assert LeftRotate(0x5D09_8916, S[37]) == 0x4C48_B2E8;
    StepLink(m, 37, Regs(0xC368_9F5B, 0x5F7A_9B2E, 0x004B_6669, 0x12F3_E755), 0x0000_0000, Regs(0x12F3_E755, 0xABC3_4E16, 0x5F7A_9B2E, 0x004B_6669));
  }

  lemma EmptySteps39(m: seq<byte>)
    requires m == EmptyBlock
    ensures Steps(InitialRegs, m, 0, 39) == Regs(0x004B_6669, 0x91CA_4CB7, 0xABC3_4E16, 0x5F7A_9B2E)
  {
    EmptySteps38(m);
    TableValues();
    WordIndexValues();
    EmptyWord(m, 7);
    assert Sum(0x12F3_E755, Aux(38, 0xABC3_4E16, 0x5F7A_9B2E, 0x004B_6669), K[38], 0x0000_0000) == 0xFEA1_E606;
    assert LeftRotate(0xFEA1_E606, S[38]) == 0xE606_FEA1;
    StepLink(m, 38, Regs(0x12F3_E755, 0xABC3_4E16, 0x5F7A_9B2E, 0x004B_6669), 0x0000_0000, Regs(0x004B_6669, 0x91CA_4CB7, 0xABC3_4E16, 0x5F7A_9B2E));
  }

  lemma EmptySteps40(m: seq<byte>)
    requires m == EmptyBlock
    ensures Steps(InitialRegs, m, 0, 40) == Regs(0x5F7A_9B2E, 0xC5DC_8C15, 0x91CA_4CB7, 0xABC3_4E16)
  {
    EmptySteps39(m);
    TableValues();
    WordIndexValues();
    EmptyWord(m, 10);
    assert Sum(0x004B_6669, Aux(39, 0x91CA_4CB7, 0xABC3_4E16, 0x5F7A_9B2E), K[39], 0x0000_0000) == 0x247E_BC68;
    assert LeftRotate(0x247E_BC68, S[39]) == 0x3412_3F5E;
    StepLink(m, 39, Regs(0x004B_6669, 0x91CA_4CB7, 0xABC3_4E16, 0x5F7A_9B2E), 0x0000_0000, Regs(0x5F7A_9B2E, 0xC5DC_8C15, 0x91CA_4CB7, 0xABC3_4E16));
  }

  lemma EmptySteps41(m: seq<byte>)
    requires m == EmptyBlock
    ensures Steps(InitialRegs, m, 0, 41) == Regs(0xABC3_4E16, 0x4497_169D, 0xC5DC_8C15, 0x91CA_4CB7)
  {
    EmptySteps40(m);
    TableValues();
    WordIndexValues();
    EmptyWord(m, 13);
    assert Sum(0x5F7A_9B2E, Aux(40, 0xC5DC_8C15, 0x91CA_4CB7, 0xABC3_4E16), K[40], 0x0000_0000) == 0x87EB_A8A8;
    assert LeftRotate(0x87EB_A8A8, S[40]) == 0x7EBA_8A88;
    StepLink(m, 40, Regs(0x5F7A_9B2E, 0xC5DC_8C15, 0x91CA_4CB7, 0xABC3_4E16), 0x0000_0000, Regs(0xABC3_4E16, 0x4497_169D, 0xC5DC_8C15, 0x91CA_4CB7));
  }

  lemma EmptySteps42(m: seq<byte>)
    requires m == EmptyBlock
    ensures Steps(InitialRegs, m, 0, 42) == Regs(0x91CA_4CB7, 0x76FD_93D4, 0x4497_169D, 0xC5DC_8C15)
  {
    EmptySteps41(m);
    TableValues();
    WordIndexValues();
    EmptyWord(m, 0);
    assert Sum(0xABC3_4E16, Aux(41, 0x4497_169D, 0xC5DC_8C15, 0x91CA_4CB7), K[41], 0x0000_0080) == 0xA6E6_4CCF;
    assert LeftRotate(0xA6E6_4CCF, S[41]) == 0x3266_7D37;
    StepLink(m, 41, Regs(0xABC3_4E16, 0x4497_169D, 0xC5DC_8C15, 0x91CA_4CB7), 0x0000_0080, Regs(0x91CA_4CB7, 0x76FD_93D4, 0x4497_169D, 0xC5DC_8C15));
  }

  lemma EmptySteps43(m: seq<byte>)
    requires m == EmptyBlock
    ensures Steps(InitialRegs, m, 0, 43) == Regs(0xC5DC_8C15, 0xFD95_F243, 0x76FD_93D4, 0x4497_169D)
  {
    EmptySteps42(m);
    TableValues();
    WordIndexValues();
    EmptyWord(m, 3);
    assert Sum(0x91CA_4CB7, Aux(42, 0x76FD_93D4, 0x4497_169D, 0xC5DC_8C15), K[42], 0x0000_0000) == 0x5E6F_8698;
    assert LeftRotate(0x5E6F_8698, S[42]) == 0x8698_5E6F;
    StepLink(m, 42, Regs(0x91CA_4CB7, 0x76FD_93D4, 0x4497_169D, 0xC5DC_8C15), 0x0000_0000, Regs(0xC5DC_8C15, 0xFD95_F243, 0x76FD_93D4, 0x4497_169D));
  }

  lemma EmptySteps44(m: seq<byte>)
    requires m == EmptyBlock
    ensures Steps(InitialRegs, m, 0, 44) == Regs(0x4497_169D, 0x0FE3_2453, 0xFD95_F243, 0x76FD_93D4)
  {
    EmptySteps43(m);
    TableValues();
    WordIndexValues();
    EmptyWord(m, 6);
    assert Sum(0xC5DC_8C15, Aux(43, 0xFD95_F243, 0x76FD_93D4, 0x4497_169D), K[43], 0x0000_0000) == 0x9A64_2024;
    assert LeftRotate(0x9A64_2024, S[43]) == 0x124D_3210;
    StepLink(m, 43, Regs(0xC5DC_8C15, 0xFD95_F243, 0x76FD_93D4, 0x4497_169D), 0x0000_0000, Regs(0x4497_169D, 0x0FE3_2453, 0xFD95_F243, 0x76FD_93D4));
  }

  lemma EmptySteps45(m: seq<byte>)
    requires m == EmptyBlock
    ensures Steps(InitialRegs, m, 0, 45) == Regs(0x76FD_93D4, 0x3F55_EDFD, 0x0FE3_2453, 0xFD95_F243)
  {
    EmptySteps44(m);
    TableValues();
    WordIndexValues();
    EmptyWord(m, 9);
    assert Sum(0x4497_169D, Aux(44, 0x0FE3_2453, 0xFD95_F243, 0x76FD_93D4), K[44], 0x0000_0000) == 0xA2F7_2C9A;
    assert LeftRotate(0xA2F7_2C9A, S[44]) == 0x2F72_C9AA;
    StepLink(m, 44, Regs(0x4497_169D, 0x0FE3_2453, 0xFD95_F243, 0x76FD_93D4), 0x0000_0000, Regs(0x76FD_93D4, 0x3F55_EDFD, 0x0FE3_2453, 0xFD95_F243));
  }

  lemma EmptySteps46(m: seq<byte>)
    requires m == EmptyBlock
    ensures Steps(InitialRegs, m, 0, 46) == Regs(0xFD95_F243, 0x22A3_1F54, 0x3F55_EDFD, 0x0FE3_2453)
  {
    EmptySteps45(m);
    TableValues();
    WordIndexValues();
    EmptyWord(m, 12);
    assert Sum(0x76FD_93D4, Aux(45, 0x3F55_EDFD, 0x0FE3_2453, 0xFD95_F243), K[45], 0x0000_0000) == 0x2AFC_69A6;
    assert LeftRotate(0x2AFC_69A6, S[45]) == 0xE34D_3157;
    StepLink(m, 45, Regs(0x76FD_93D4, 0x3F55_EDFD, 0x0FE3_2453, 0xFD95_F243), 0x0000_0000, Regs(0xFD95_F243, 0x22A3_1F54, 0x3F55_EDFD, 0x0FE3_2453));
  }

  lemma EmptySteps47(m: seq<byte>)
    requires m == EmptyBlock
    ensures Steps(InitialRegs, m, 0, 47) == Regs(0x0FE3_2453, 0x68D8_4EA2, 0x22A3_1F54, 0x3F55_EDFD)
  {
    EmptySteps46(m);
    TableValues();
    WordIndexValues();
    EmptyWord(m, 15);
    assert Sum(0xFD95_F243, Aux(46, 0x22A3_1F54, 0x3F55_EDFD, 0x0FE3_2453), K[46], 0x0000_0000) == 0x2F4E_4635;
    assert LeftRotate(0x2F4E_4635, S[46]) == 0x4635_2F4E;
    StepLink(m, 46, Regs(0xFD95_F243, 0x22A3_1F54, 0x3F55_EDFD, 0x0FE3_2453), 0x0000_0000, Regs(0x0FE3_2453, 0x68D8_4EA2, 0x22A3_1F54, 0x3F55_EDFD));
  }

  lemma EmptySteps48(m: seq<byte>)
    requires m == EmptyBlock
    ensures Steps(InitialRegs, m, 0, 48) == Regs(0x3F55_EDFD, 0xCA7D_2DBD, 0x68D8_4EA2, 0x22A3_1F54)
  {
    EmptySteps47(m);
    TableValues();
    WordIndexValues();
    EmptyWord(m, 2);
    assert Sum(0x0FE3_2453, Aux(47, 0x68D8_4EA2, 0x22A3_1F54, 0x3F55_EDFD), K[47], 0x0000_0000) == 0x49BE_36C3;
    assert LeftRotate(0x49BE_36C3, S[47]) == 0x61A4_DF1B;
    StepLink(m, 47, Regs(0x0FE3_2453, 0x68D8_4EA2, 0x22A3_1F54, 0x3F55_EDFD), 0x0000_0000, Regs(0x3F55_EDFD, 0xCA7D_2DBD, 0x68D8_4EA2, 0x22A3_1F54));
  }

  lemma EmptySteps49(m: seq<byte>)
    requires m == EmptyBlock
    ensures Steps(InitialRegs, m, 0, 49) == Regs(0x22A3_1F54, 0x93AA_2577, 0xCA7D_2DBD, 0x68D8_4EA2)
  {
    EmptySteps48(m);
    TableValues();
    WordIndexValues();
    EmptyWord(m, 0);
    assert Sum(0x3F55_EDFD, Aux(48, 0xCA7D_2DBD, 0x68D8_4EA2, 0x22A3_1F54), K[48], 0x0000_0080) == 0xEB24_B3DE;
    assert LeftRotate(0xEB24_B3DE, S[48]) == 0xC92C_F7BA;
    StepLink(m, 48, Regs(0x3F55_EDFD, 0xCA7D_2DBD, 0x68D8_4EA2, 0x22A3_1F54), 0x0000_0080, Regs(0x22A3_1F54, 0x93AA_2577, 0xCA7D_2DBD, 0x68D8_4EA2));
  }

  lemma EmptySteps50(m: seq<byte>)
    requires m == EmptyBlock
    ensures Steps(InitialRegs, m, 0, 50) == Regs(0x68D8_4EA2, 0x1688_DC85, 0x93AA_2577, 0xCA7D_2DBD)
  {
    EmptySteps49(m);
    TableValues();
    WordIndexValues();
    EmptyWord(m, 7);
    assert Sum(0x22A3_1F54, Aux(49, 0x93AA_2577, 0xCA7D_2DBD, 0x68D8_4EA2), K[49], 0x0000_0000) == 0xC3A0_B7AD;
    assert LeftRotate(0xC3A0_B7AD, S[49]) == 0x82DE_B70E;
    StepLink(m, 49, Regs(0x22A3_1F54, 0x93AA_2577, 0xCA7D_2DBD, 0x68D8_4EA2), 0x0000_0000, Regs(0x68D8_4EA2, 0x1688_DC85, 0x93AA_2577, 0xCA7D_2DBD));
  }

  lemma EmptySteps51(m: seq<byte>)
    requires m == EmptyBlock
    ensures Steps(InitialRegs, m, 0, 51) == Regs(0xCA7D_2DBD, 0xCD85_B8CB, 0x1688_DC85, 0x93AA_2577)
  {
    EmptySteps50(m);
    TableValues();
    WordIndexValues();
    EmptyWord(m, 14);
    assert Sum(0x68D8_4EA2, Aux(50, 0x1688_DC85, 0x93AA_2577, 0xCA7D_2DBD), K[50], 0x0000_0000) == 0xB88D_6DF9;
    assert LeftRotate(0xB88D_6DF9, S[50]) == 0xB6FC_DC46;
    StepLink(m, 50, Regs(0x68D8_4EA2, 0x1688_DC85, 0x93AA_2577, 0xCA7D_2DBD), 0x0000_0000, Regs(0xCA7D_2DBD, 0xCD85_B8CB, 0x1688_DC85, 0x93AA_2577));
  }

  lemma EmptySteps52(m: seq<byte>)
    requires m == EmptyBlock
    ensures Steps(InitialRegs, m, 0, 52) == Regs(0x93AA_2577, 0x561E_0689, 0xCD85_B8CB, 0x1688_DC85)
  {
    EmptySteps51(m);
    TableValues();
    WordIndexValues();
    EmptyWord(m, 5);
    assert Sum(0xCA7D_2DBD, Aux(51, 0xCD85_B8CB, 0x1688_DC85, 0x93AA_2577), K[51], 0x0000_0000) == 0xC26D_F444;
    assert LeftRotate(0xC26D_F444, S[51]) == 0x8898_4DBE;
    StepLink(m, 51, Regs(0xCA7D_2DBD, 0xCD85_B8CB, 0x1688_DC85, 0x93AA_2577), 0x0000_0000, Regs(0x93AA_2577, 0x561E_0689, 0xCD85_B8CB, 0x1688_DC85));
  }

  lemma EmptySteps53(m: seq<byte>)
    requires m == EmptyBlock
    ensures Steps(InitialRegs, m, 0, 53) == Regs(0x1688_DC85, 0x5625_A114, 0x561E_0689, 0xCD85_B8CB)
  {
    EmptySteps52(m);
    TableValues();
    WordIndexValues();
    EmptyWord(m, 12);
    assert Sum(0x93AA_2577, Aux(52, 0x561E_0689, 0xCD85_B8CB, 0x1688_DC85), K[52], 0x0000_0000) == 0x2C00_1E6A;
    assert LeftRotate(0x2C00_1E6A, S[52]) == 0x0007_9A8B;
    StepLink(m, 52, Regs(0x93AA_2577, 0x561E_0689, 0xCD85_B8CB, 0x1688_DC85), 0x0000_0000, Regs(0x1688_DC85, 0x5625_A114, 0x561E_0689, 0xCD85_B8CB));
  }

  lemma EmptySteps54(m: seq<byte>)
    requires m == EmptyBlock
    ensures Steps(InitialRegs, m, 0, 54) == Regs(0xCD85_B8CB, 0x3450_F42B, 0x5625_A114, 0x561E_0689)
  {
    EmptySteps53(m);
    TableValues();
    WordIndexValues();
    EmptyWord(m, 3);
    assert Sum(0x1688_DC85, Aux(53, 0x5625_A114, 0x561E_0689, 0xCD85_B8CB), K[53], 0x0000_0000) == 0xC5F7_8AD4;
    assert LeftRotate(0xC5F7_8AD4, S[53]) == 0xDE2B_5317;
    StepLink(m, 53, Regs(0x1688_DC85, 0x5625_A114, 0x561E_0689, 0xCD85_B8CB), 0x0000_0000, Regs(0xCD85_B8CB, 0x3450_F42B, 0x5625_A114, 0x561E_0689));
  }

  lemma EmptySteps55(m: seq<byte>)
    requires m == EmptyBlock
    ensures Steps(InitialRegs, m, 0, 55) == Regs(0x561E_0689, 0x392A_D0D0, 0x3450_F42B, 0x5625_A114)
  {
    EmptySteps54(m);
    TableValues();
    WordIndexValues();
    EmptyWord(m, 10);
    assert Sum(0xCD85_B8CB, Aux(54, 0x3450_F42B, 0x5625_A114, 0x561E_0689), K[54], 0x0000_0000) == 0xB94A_09B3;
    assert LeftRotate(0xB94A_09B3, S[54]) == 0x04D9_DCA5;
    StepLink(m, 54, Regs(0xCD85_B8CB, 0x3450_F42B, 0x5625_A114, 0x561E_0689), 0x0000_0000, Regs(0x561E_0689, 0x392A_D0D0, 0x3450_F42B, 0x5625_A114));
  }

  lemma EmptySteps56(m: seq<byte>)
    requires m == EmptyBlock
    ensures Steps(InitialRegs, m, 0, 56) == Regs(0x5625_A114, 0x1E77_FA61, 0x392A_D0D0, 0x3450_F42B)
  {
    EmptySteps55(m);
    TableValues();
    WordIndexValues();
    EmptyWord(m, 1);
    assert Sum(0x561E_0689, Aux(55, 0x392A_D0D0, 0x3450_F42B, 0x5625_A114), K[55], 0x0000_0000) == 0x694C_8F2A;
    assert LeftRotate(0x694C_8F2A, S[55]) == 0xE54D_2991;
    StepLink(m, 55, Regs(0x561E_0689, 0x392A_D0D0, 0x3450_F42B, 0x5625_A114), 0x0000_0000, Regs(0x5625_A114, 0x1E77_FA61, 0x392A_D0D0, 0x3450_F42B));
  }

  lemma EmptySteps57(m: seq<byte>)
    requires m == EmptyBlock
    ensures Steps(InitialRegs, m, 0, 57) == Regs(0x3450_F42B, 0x474A_9C8C, 0x1E77_FA61, 0x392A_D0D0)
  {
    EmptySteps56(m);
    TableValues();
    WordIndexValues();
    EmptyWord(m, 8);
    assert Sum(0x5625_A114, Aux(56, 0x1E77_FA61, 0x392A_D0D0, 0x3450_F42B), K[56], 0x0000_0000) == 0xACA3_4A88;
    assert LeftRotate(0xACA3_4A88, S[56]) == 0x28D2_A22B;
    StepLink(m, 56, Regs(0x5625_A114, 0x1E77_FA61, 0x392A_D0D0, 0x3450_F42B), 0x0000_0000, Regs(0x3450_F42B, 0x474A_9C8C, 0x1E77_FA61, 0x392A_D0D0));
  }

  lemma EmptySteps58(m: seq<byte>)
    requires m == EmptyBlock
    ensures Steps(InitialRegs, m, 0, 58) == Regs(0x392A_D0D0, 0xDFCE_00BC, 0x474A_9C8C, 0x1E77_FA61)
  {
    EmptySteps57(m);
    TableValues();
    WordIndexValues();
    EmptyWord(m, 15);
    assert Sum(0x3450_F42B, Aux(57, 0x474A_9C8C, 0x1E77_FA61, 0x392A_D0D0), K[57], 0x0000_0000) == 0x0C26_20D9;
    assert LeftRotate(0x0C26_20D9, S[57]) == 0x9883_6430;
    StepLink(m, 57, Regs(0x3450_F42B, 0x474A_9C8C, 0x1E77_FA61, 0x392A_D0D0), 0x0000_0000, Regs(0x392A_D0D0, 0xDFCE_00BC, 0x474A_9C8C, 0x1E77_FA61));
  }

  lemma EmptySteps59(m: seq<byte>)
    requires m == EmptyBlock
    ensures Steps(InitialRegs, m, 0, 59) == Regs(0x1E77_FA61, 0x3659_4B14, 0xDFCE_00BC, 0x474A_9C8C)
  {
    EmptySteps58(m);
    TableValues();
    WordIndexValues();
    EmptyWord(m, 6);
    assert Sum(0x392A_D0D0, Aux(58, 0xDFCE_00BC, 0x474A_9C8C, 0x1E77_FA61), K[58], 0x0000_0000) == 0x94B0_AD16;
    assert LeftRotate(0x94B0_AD16, S[58]) == 0x568B_4A58;
    StepLink(m, 58, Regs(0x392A_D0D0, 0xDFCE_00BC, 0x474A_9C8C, 0x1E77_FA61), 0x0000_0000, Regs(0x1E77_FA61, 0x3659_4B14, 0xDFCE_00BC, 0x474A_9C8C));
  }

  lemma EmptySteps60(m: seq<byte>)
    requires m == EmptyBlock
    ensures Steps(InitialRegs, m, 0, 60) == Regs(0x474A_9C8C, 0x3013_0182, 0x3659_4B14, 0xDFCE_00BC)
  {
    EmptySteps59(m);
    TableValues();
    WordIndexValues();
    EmptyWord(m, 13);
    assert Sum(0x1E77_FA61, Aux(59, 0x3659_4B14, 0xDFCE_00BC, 0x474A_9C8C), K[59], 0x0000_0000) == 0xCDB3_77CD;
    assert LeftRotate(0xCDB3_77CD, S[59]) == 0xF9B9_B66E;
    StepLink(m, 59, Regs(0x1E77_FA61, 0x3659_4B14, 0xDFCE_00BC, 0x474A_9C8C), 0x0000_0000, Regs(0x474A_9C8C, 0x3013_0182, 0x3659_4B14, 0xDFCE_00BC));
  }

  lemma EmptySteps61(m: seq<byte>)
    requires m == EmptyBlock
    ensures Steps(InitialRegs, m, 0, 61) == Regs(0xDFCE_00BC, 0x7246_FAD3, 0x3013_0182, 0x3659_4B14)
  {
    EmptySteps60(m);
    TableValues();
    WordIndexValues();
    EmptyWord(m, 4);
    assert Sum(0x474A_9C8C, Aux(60, 0x3013_0182, 0x3659_4B14, 0xDFCE_00BC), K[60], 0x0000_0000) == 0x4508_CFE5;
    assert LeftRotate(0x4508_CFE5, S[60]) == 0x4233_F951;
    StepLink(m, 60, Regs(0x474A_9C8C, 0x3013_0182, 0x3659_4B14, 0xDFCE_00BC), 0x0000_0000, Regs(0xDFCE_00BC, 0x7246_FAD3, 0x3013_0182, 0x3659_4B14));
  }

  lemma EmptySteps62(m: seq<byte>)
    requires m == EmptyBlock
    ensures Steps(InitialRegs, m, 0, 62) == Regs(0x3659_4B14, 0x6E10_A476, 0x7246_FAD3, 0x3013_0182)
  {
    EmptySteps61(m);
    TableValues();
    WordIndexValues();
    EmptyWord(m, 11);
    assert Sum(0xDFCE_00BC, Aux(61, 0x7246_FAD3, 0x3013_0182, 0x3659_4B14), K[61], 0x0000_0000) == 0x68FE_F26A;
    assert LeftRotate(0x68FE_F26A, S[61]) == 0xFBC9_A9A3;
    StepLink(m, 61, Regs(0xDFCE_00BC, 0x7246_FAD3, 0x3013_0182, 0x3659_4B14), 0x0000_0000, Regs(0x3659_4B14, 0x6E10_A476, 0x7246_FAD3, 0x3013_0182));
  }

  lemma EmptySteps63(m: seq<byte>)
    requires m == EmptyBlock
    ensures Steps(InitialRegs, m, 0, 63) == Regs(0x3013_0182, 0xFF4E_A3EB, 0x6E10_A476, 0x7246_FAD3)
  {
    EmptySteps62(m);
    TableValues();
    WordIndexValues();
    EmptyWord(m, 2);
    assert Sum(0x3659_4B14, Aux(62, 0x6E10_A476, 0x7246_FAD3, 0x3013_0182), K[62], 0x0000_0000) == 0xFEEB_227B;
    assert LeftRotate(0xFEEB_227B, S[62]) == 0x913D_FF75;
    StepLink(m, 62, Regs(0x3659_4B14, 0x6E10_A476, 0x7246_FAD3, 0x3013_0182), 0x0000_0000, Regs(0x3013_0182, 0xFF4E_A3EB, 0x6E10_A476, 0x7246_FAD3));
  }

  lemma EmptySteps64(m: seq<byte>)
    requires m == EmptyBlock
    ensures Steps(InitialRegs, m, 0, 64) == Regs(0x7246_FAD3, 0x14E4_5506, 0xFF4E_A3EB, 0x6E10_A476)
  {
    EmptySteps63(m);
    TableValues();
    WordIndexValues();
    EmptyWord(m, 9);
    assert Sum(0x3013_0182, Aux(63, 0xFF4E_A3EB, 0x6E10_A476, 0x7246_FAD3), K[63], 0x0000_0000) == 0xAD88_D8AC;
    assert LeftRotate(0xAD88_D8AC, S[63]) == 0x1595_B11B;
    StepLink(m, 63, Regs(0x3013_0182, 0xFF4E_A3EB, 0x6E10_A476, 0x7246_FAD3), 0x0000_0000, Regs(0x7246_FAD3, 0x14E4_5506, 0xFF4E_A3EB, 0x6E10_A476));
  }

  /** The registers after the empty message's block. */
  lemma EmptyChain(m: seq<byte>)
    requires m == EmptyBlock
    ensures Chain(m, 1) == Regs(0xD98C_1DD4, 0x04B2_008F, 0x9809_80E9, 0x7E42_F8EC)
  {
    EmptySteps64(m);
    assert Chain(m, 0) == InitialRegs;
    assert AddRegs(InitialRegs, Regs(0x7246_FAD3, 0x14E4_5506, 0xFF4E_A3EB, 0x6E10_A476))
      == Regs(0xD98C_1DD4, 0x04B2_008F, 0x9809_80E9, 0x7E42_F8EC);
  }

  /** The digest bytes of a message with no bytes. */
  lemma DigestOfEmpty(msg: seq<byte>)
    requires |msg| == 0
    ensures Digest(msg) == Uint32LE(0xD98C_1DD4) + Uint32LE(0x04B2_008F) + Uint32LE(0x9809_80E9) + Uint32LE(0x7E42_F8EC)
  {
    PaddedEmpty(msg);
    var p := Padded(msg);
    assert |p| / 64 == 1;
    EmptyChain(p);
  }

  /** Rendering concatenated bytes renders each part. */
  lemma {:induction false} HexAppend(a: seq<byte>, b: seq<byte>)
    ensures Hex(a + b) == Hex(a) + Hex(b)
  {
    if a == [] {
      assert a + b == b;
    } else {
      assert (a + b)[0] == a[0] && (a + b)[1..] == a[1..] + b;
      HexAppend(a[1..], b);
    }
  }

  /** The eight digits of a little-endian word. */
  lemma HexOfWord(v: bv32)
    ensures Hex(Uint32LE(v)) == ByteHex(Uint32LE(v)[0]) + ByteHex(Uint32LE(v)[1]) + ByteHex(Uint32LE(v)[2]) + ByteHex(Uint32LE(v)[3])
  {
    var u := Uint32LE(v);
    assert u == [u[0]] + [u[1]] + [u[2]] + [u[3]];
    HexAppend([u[0]] + [u[1]] + [u[2]], [u[3]]);
    HexAppend([u[0]] + [u[1]], [u[2]]);
    HexAppend([u[0]], [u[1]]);
    assert Hex([u[0]]) == ByteHex(u[0]);
    assert Hex([u[1]]) == ByteHex(u[1]);
    assert Hex([u[2]]) == ByteHex(u[2]);
    assert Hex([u[3]]) == ByteHex(u[3]);
  }

  lemma WordHexA()
    ensures Hex(Uint32LE(0xD98C_1DD4)) == "d41d8cd9"
  {
    HexOfWord(0xD98C_1DD4);
    assert Uint32LE(0xD98C_1DD4) == [0xD4, 0x1D, 0x8C, 0xD9];
    assert ByteHex(0xD4) == "d4" && ByteHex(0x1D) == "1d" && ByteHex(0x8C) == "8c" && ByteHex(0xD9) == "d9";
  }

  lemma WordHexB()
    ensures Hex(Uint32LE(0x04B2_008F)) == "8f00b204"
  {
    HexOfWord(0x04B2_008F);
    assert Uint32LE(0x04B2_008F) == [0x8F, 0x00, 0xB2, 0x04];
    assert ByteHex(0x8F) == "8f" && ByteHex(0x00) == "00" && ByteHex(0xB2) == "b2" && ByteHex(0x04) == "04";
  }

  lemma WordHexC()
    ensures Hex(Uint32LE(0x9809_80E9)) == "e9800998"
  {
    HexOfWord(0x9809_80E9);
    assert Uint32LE(0x9809_80E9) == [0xE9, 0x80, 0x09, 0x98];
    assert ByteHex(0xE9) == "e9" && ByteHex(0x80) == "80" && ByteHex(0x09) == "09" && ByteHex(0x98) == "98";
  }

  lemma WordHexD()
    ensures Hex(Uint32LE(0x7E42_F8EC)) == "ecf8427e"
  {
    HexOfWord(0x7E42_F8EC);
    assert Uint32LE(0x7E42_F8EC) == [0xEC, 0xF8, 0x42, 0x7E];
    assert ByteHex(0xEC) == "ec" && ByteHex(0xF8) == "f8" && ByteHex(0x42) == "42" && ByteHex(0x7E) == "7e";
  }

  /** `md5Hash("")` is d41d8cd9 8f00b204 e9800998 ecf8427e. */
  lemma EmptyDigest(message: string)
    requires |message| == 0
    ensures Md5Hex(Utf8Encode(message)) == "d41d8cd9" + "8f00b204" + "e9800998" + "ecf8427e"
  {
    var msg := Utf8Encode(message);
    DigestOfEmpty(msg);
    assert Md5Hex(msg) == Hex(Digest(msg));
    var a, b, c, d := Uint32LE(0xD98C_1DD4), Uint32LE(0x04B2_008F), Uint32LE(0x9809_80E9), Uint32LE(0x7E42_F8EC);
    HexAppend(a + b + c, d);
    HexAppend(a + b, c);
    HexAppend(a, b);
    WordHexA();
    WordHexB();
    WordHexC();
    WordHexD();
    assert Hex(Digest(msg)) == Hex(a + b + c + d);
  }
}
