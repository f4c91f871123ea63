/** Where the numbers of the hash come from, and the known digest of a known message. */
module Sha256Vectors {
  import Bytes
  import opened Sha256Spec

  // ----- The constants -----

  /** The number holds the first 32 bits of the fractional part of the cube root of p, whose whole part is w. */
  predicate CubeRootBits(p: nat, w: nat, n: nat) {
    var c := w * 0x1_00000000 + n;
    c * c * c <= p * 0x1_00000000_00000000_00000000 < (c + 1) * (c + 1) * (c + 1)
  }

  /** Round constant t holds the first fractional bits of the cube root of p. */
  predicate RootAt(t: nat, p: nat, w: nat)
    requires t < 64
  {
    CubeRootBits(p, w, ROUND_CONSTANTS[t] as nat)
  }

  /** The number holds the first 32 bits of the fractional part of the square root of p, whose whole part is w. */
  predicate SquareRootBits(p: nat, w: nat, n: nat) {
    var c := w * 0x1_00000000 + n;
    c * c <= p * 0x1_00000000_00000000 < (c + 1) * (c + 1)
  }

  lemma InitialAre()
    ensures INITIAL_HASH[0] == 0x6a09e667
    ensures INITIAL_HASH[1] == 0xbb67ae85
    ensures INITIAL_HASH[2] == 0x3c6ef372
    ensures INITIAL_HASH[3] == 0xa54ff53a
    ensures INITIAL_HASH[4] == 0x510e527f
    ensures INITIAL_HASH[5] == 0x9b05688c
    ensures INITIAL_HASH[6] == 0x1f83d9ab
    ensures INITIAL_HASH[7] == 0x5be0cd19
  {
  }

  /** The words a hash starts from are the fractional parts of the square roots of the first eight primes. */
  lemma InitialHashIsRoots()
    ensures SquareRootBits(2, 1, INITIAL_HASH[0] as nat)
    ensures SquareRootBits(3, 1, INITIAL_HASH[1] as nat)
    ensures SquareRootBits(5, 2, INITIAL_HASH[2] as nat)
    ensures SquareRootBits(7, 2, INITIAL_HASH[3] as nat)
    ensures SquareRootBits(11, 3, INITIAL_HASH[4] as nat)
    ensures SquareRootBits(13, 3, INITIAL_HASH[5] as nat)
    ensures SquareRootBits(17, 4, INITIAL_HASH[6] as nat)
    ensures SquareRootBits(19, 4, INITIAL_HASH[7] as nat)
  {
    hide INITIAL_HASH;
    InitialAre();
  }

  lemma Constants0()
    ensures ROUND_CONSTANTS[0] == 0x428a2f98
    ensures ROUND_CONSTANTS[1] == 0x71374491
    ensures ROUND_CONSTANTS[2] == 0xb5c0fbcf
    ensures ROUND_CONSTANTS[3] == 0xe9b5dba5
    ensures ROUND_CONSTANTS[4] == 0x3956c25b
    ensures ROUND_CONSTANTS[5] == 0x59f111f1
    ensures ROUND_CONSTANTS[6] == 0x923f82a4
    ensures ROUND_CONSTANTS[7] == 0xab1c5ed5
  {
    assert ROUND_CONSTANTS[0] == 0x428a2f98;
    assert ROUND_CONSTANTS[1] == 0x71374491;
    assert ROUND_CONSTANTS[2] == 0xb5c0fbcf;
    assert ROUND_CONSTANTS[3] == 0xe9b5dba5;
    assert ROUND_CONSTANTS[4] == 0x3956c25b;
    assert ROUND_CONSTANTS[5] == 0x59f111f1;
    assert ROUND_CONSTANTS[6] == 0x923f82a4;
    assert ROUND_CONSTANTS[7] == 0xab1c5ed5;
  }

  lemma Constants8()
    ensures ROUND_CONSTANTS[8] == 0xd807aa98
    ensures ROUND_CONSTANTS[9] == 0x12835b01
    ensures ROUND_CONSTANTS[10] == 0x243185be
    ensures ROUND_CONSTANTS[11] == 0x550c7dc3
    ensures ROUND_CONSTANTS[12] == 0x72be5d74
    ensures ROUND_CONSTANTS[13] == 0x80deb1fe
    ensures ROUND_CONSTANTS[14] == 0x9bdc06a7
    ensures ROUND_CONSTANTS[15] == 0xc19bf174
  {
    assert ROUND_CONSTANTS[8] == 0xd807aa98;
    assert ROUND_CONSTANTS[9] == 0x12835b01;
    assert ROUND_CONSTANTS[10] == 0x243185be;
    assert ROUND_CONSTANTS[11] == 0x550c7dc3;
    assert ROUND_CONSTANTS[12] == 0x72be5d74;
    assert ROUND_CONSTANTS[13] == 0x80deb1fe;
    assert ROUND_CONSTANTS[14] == 0x9bdc06a7;
    assert ROUND_CONSTANTS[15] == 0xc19bf174;
  }

  lemma Constants16()
    ensures ROUND_CONSTANTS[16] == 0xe49b69c1
    ensures ROUND_CONSTANTS[17] == 0xefbe4786
    ensures ROUND_CONSTANTS[18] == 0x0fc19dc6
    ensures ROUND_CONSTANTS[19] == 0x240ca1cc
    ensures ROUND_CONSTANTS[20] == 0x2de92c6f
    ensures ROUND_CONSTANTS[21] == 0x4a7484aa
    ensures ROUND_CONSTANTS[22] == 0x5cb0a9dc
    ensures ROUND_CONSTANTS[23] == 0x76f988da
  {
    assert ROUND_CONSTANTS[16] == 0xe49b69c1;
    assert ROUND_CONSTANTS[17] == 0xefbe4786;
    assert ROUND_CONSTANTS[18] == 0x0fc19dc6;
    assert ROUND_CONSTANTS[19] == 0x240ca1cc;
    assert ROUND_CONSTANTS[20] == 0x2de92c6f;
    assert ROUND_CONSTANTS[21] == 0x4a7484aa;
    assert ROUND_CONSTANTS[22] == 0x5cb0a9dc;
    assert ROUND_CONSTANTS[23] == 0x76f988da;
  }

  lemma Constants24()
    ensures ROUND_CONSTANTS[24] == 0x983e5152
    ensures ROUND_CONSTANTS[25] == 0xa831c66d
    ensures ROUND_CONSTANTS[26] == 0xb00327c8
    ensures ROUND_CONSTANTS[27] == 0xbf597fc7
    ensures ROUND_CONSTANTS[28] == 0xc6e00bf3
    ensures ROUND_CONSTANTS[29] == 0xd5a79147
    ensures ROUND_CONSTANTS[30] == 0x06ca6351
    ensures ROUND_CONSTANTS[31] == 0x14292967
  {
    assert ROUND_CONSTANTS[24] == 0x983e5152;
    assert ROUND_CONSTANTS[25] == 0xa831c66d;
    assert ROUND_CONSTANTS[26] == 0xb00327c8;
    assert ROUND_CONSTANTS[27] == 0xbf597fc7;
    assert ROUND_CONSTANTS[28] == 0xc6e00bf3;
    assert ROUND_CONSTANTS[29] == 0xd5a79147;
    assert ROUND_CONSTANTS[30] == 0x06ca6351;
    assert ROUND_CONSTANTS[31] == 0x14292967;
  }

  lemma Constants32()
    ensures ROUND_CONSTANTS[32] == 0x27b70a85
    ensures ROUND_CONSTANTS[33] == 0x2e1b2138
    ensures ROUND_CONSTANTS[34] == 0x4d2c6dfc
    ensures ROUND_CONSTANTS[35] == 0x53380d13
    ensures ROUND_CONSTANTS[36] == 0x650a7354
    ensures ROUND_CONSTANTS[37] == 0x766a0abb
    ensures ROUND_CONSTANTS[38] == 0x81c2c92e
    ensures ROUND_CONSTANTS[39] == 0x92722c85
  {
    assert ROUND_CONSTANTS[32] == 0x27b70a85;
    assert ROUND_CONSTANTS[33] == 0x2e1b2138;
    assert ROUND_CONSTANTS[34] == 0x4d2c6dfc;
    assert ROUND_CONSTANTS[35] == 0x53380d13;
    assert ROUND_CONSTANTS[36] == 0x650a7354;
    assert ROUND_CONSTANTS[37] == 0x766a0abb;
    assert ROUND_CONSTANTS[38] == 0x81c2c92e;
    assert ROUND_CONSTANTS[39] == 0x92722c85;
  }

  lemma Constants40()
    ensures ROUND_CONSTANTS[40] == 0xa2bfe8a1
    ensures ROUND_CONSTANTS[41] == 0xa81a664b
    ensures ROUND_CONSTANTS[42] == 0xc24b8b70
    ensures ROUND_CONSTANTS[43] == 0xc76c51a3
    ensures ROUND_CONSTANTS[44] == 0xd192e819
    ensures ROUND_CONSTANTS[45] == 0xd6990624
    ensures ROUND_CONSTANTS[46] == 0xf40e3585
    ensures ROUND_CONSTANTS[47] == 0x106aa070
  {
    assert ROUND_CONSTANTS[40] == 0xa2bfe8a1;
    assert ROUND_CONSTANTS[41] == 0xa81a664b;
    assert ROUND_CONSTANTS[42] == 0xc24b8b70;
    assert ROUND_CONSTANTS[43] == 0xc76c51a3;
    assert ROUND_CONSTANTS[44] == 0xd192e819;
    assert ROUND_CONSTANTS[45] == 0xd6990624;
    assert ROUND_CONSTANTS[46] == 0xf40e3585;
    assert ROUND_CONSTANTS[47] == 0x106aa070;
  }

  lemma Constants48()
    ensures ROUND_CONSTANTS[48] == 0x19a4c116
    ensures ROUND_CONSTANTS[49] == 0x1e376c08
    ensures ROUND_CONSTANTS[50] == 0x2748774c
    ensures ROUND_CONSTANTS[51] == 0x34b0bcb5
    ensures ROUND_CONSTANTS[52] == 0x391c0cb3
    ensures ROUND_CONSTANTS[53] == 0x4ed8aa4a
    ensures ROUND_CONSTANTS[54] == 0x5b9cca4f
    ensures ROUND_CONSTANTS[55] == 0x682e6ff3
  {
    assert ROUND_CONSTANTS[48] == 0x19a4c116;
    assert ROUND_CONSTANTS[49] == 0x1e376c08;
    assert ROUND_CONSTANTS[50] == 0x2748774c;
    assert ROUND_CONSTANTS[51] == 0x34b0bcb5;
    assert ROUND_CONSTANTS[52] == 0x391c0cb3;
    assert ROUND_CONSTANTS[53] == 0x4ed8aa4a;
    assert ROUND_CONSTANTS[54] == 0x5b9cca4f;
    assert ROUND_CONSTANTS[55] == 0x682e6ff3;
  }

  lemma Constants56()
    ensures ROUND_CONSTANTS[56] == 0x748f82ee
    ensures ROUND_CONSTANTS[57] == 0x78a5636f
    ensures ROUND_CONSTANTS[58] == 0x84c87814
    ensures ROUND_CONSTANTS[59] == 0x8cc70208
    ensures ROUND_CONSTANTS[60] == 0x90befffa
    ensures ROUND_CONSTANTS[61] == 0xa4506ceb
    ensures ROUND_CONSTANTS[62] == 0xbef9a3f7
    ensures ROUND_CONSTANTS[63] == 0xc67178f2
  {
    assert ROUND_CONSTANTS[56] == 0x748f82ee;
    assert ROUND_CONSTANTS[57] == 0x78a5636f;
    assert ROUND_CONSTANTS[58] == 0x84c87814;
    assert ROUND_CONSTANTS[59] == 0x8cc70208;
    assert ROUND_CONSTANTS[60] == 0x90befffa;
    assert ROUND_CONSTANTS[61] == 0xa4506ceb;
    assert ROUND_CONSTANTS[62] == 0xbef9a3f7;
    assert ROUND_CONSTANTS[63] == 0xc67178f2;
  }

  lemma ConstantsAreRoots0()
    ensures RootsFrom0()
  {
    hide ROUND_CONSTANTS;
    Constants0();
  }

  lemma ConstantsAreRoots8()
    ensures RootsFrom8()
  {
    hide ROUND_CONSTANTS;
    Constants8();
  }

  lemma ConstantsAreRoots16()
    ensures RootsFrom16()
  {
    hide ROUND_CONSTANTS;
    Constants16();
  }

  lemma ConstantsAreRoots24()
    ensures RootsFrom24()
  {
    hide ROUND_CONSTANTS;
    Constants24();
  }

  lemma ConstantsAreRoots32()
    ensures RootsFrom32()
  {
    hide ROUND_CONSTANTS;
    Constants32();
  }

  lemma ConstantsAreRoots40()
    ensures RootsFrom40()
  {
    hide ROUND_CONSTANTS;
    Constants40();
  }

  lemma ConstantsAreRoots48()
    ensures RootsFrom48()
  {
    hide ROUND_CONSTANTS;
    Constants48();
  }

  lemma ConstantsAreRoots56()
    ensures RootsFrom56()
  {
    hide ROUND_CONSTANTS;
    Constants56();
  }

  predicate RootsFrom0() {
    && RootAt(0, 2, 1) && RootAt(1, 3, 1) && RootAt(2, 5, 1) && RootAt(3, 7, 1)
    && RootAt(4, 11, 2) && RootAt(5, 13, 2) && RootAt(6, 17, 2) && RootAt(7, 19, 2)
  }

  predicate RootsFrom8() {
    && RootAt(8, 23, 2) && RootAt(9, 29, 3) && RootAt(10, 31, 3) && RootAt(11, 37, 3)
    && RootAt(12, 41, 3) && RootAt(13, 43, 3) && RootAt(14, 47, 3) && RootAt(15, 53, 3)
  }

  predicate RootsFrom16() {
    && RootAt(16, 59, 3) && RootAt(17, 61, 3) && RootAt(18, 67, 4) && RootAt(19, 71, 4)
    && RootAt(20, 73, 4) && RootAt(21, 79, 4) && RootAt(22, 83, 4) && RootAt(23, 89, 4)
  }

  predicate RootsFrom24() {
    && RootAt(24, 97, 4) && RootAt(25, 101, 4) && RootAt(26, 103, 4) && RootAt(27, 107, 4)
    && RootAt(28, 109, 4) && RootAt(29, 113, 4) && RootAt(30, 127, 5) && RootAt(31, 131, 5)
  }

  predicate RootsFrom32() {
    && RootAt(32, 137, 5) && RootAt(33, 139, 5) && RootAt(34, 149, 5) && RootAt(35, 151, 5)
    && RootAt(36, 157, 5) && RootAt(37, 163, 5) && RootAt(38, 167, 5) && RootAt(39, 173, 5)
  }

  predicate RootsFrom40() {
    && RootAt(40, 179, 5) && RootAt(41, 181, 5) && RootAt(42, 191, 5) && RootAt(43, 193, 5)
    && RootAt(44, 197, 5) && RootAt(45, 199, 5) && RootAt(46, 211, 5) && RootAt(47, 223, 6)
  }

  predicate RootsFrom48() {
    && RootAt(48, 227, 6) && RootAt(49, 229, 6) && RootAt(50, 233, 6) && RootAt(51, 239, 6)
    && RootAt(52, 241, 6) && RootAt(53, 251, 6) && RootAt(54, 257, 6) && RootAt(55, 263, 6)
  }

  predicate RootsFrom56() {
    && RootAt(56, 269, 6) && RootAt(57, 271, 6) && RootAt(58, 277, 6) && RootAt(59, 281, 6)
    && RootAt(60, 283, 6) && RootAt(61, 293, 6) && RootAt(62, 307, 6) && RootAt(63, 311, 6)
  }

  /** All sixty-four round constants are the fractional parts of the cube roots of the first sixty-four primes. */
  lemma ConstantsAreRoots()
    ensures RootsFrom0() && RootsFrom8() && RootsFrom16() && RootsFrom24()
    ensures RootsFrom32() && RootsFrom40() && RootsFrom48() && RootsFrom56()
  {
    hide RootAt;
    ConstantsAreRoots0();
    ConstantsAreRoots8();
    ConstantsAreRoots16();
    ConstantsAreRoots24();
    ConstantsAreRoots32();
    ConstantsAreRoots40();
    ConstantsAreRoots48();
    ConstantsAreRoots56();
  }

  // ----- A known digest -----

  /** The three letters abc. */
  const ABC: seq<Byte> := [0x61, 0x62, 0x63]

  /** They fill one block, padded. */
  const BLOCK: Block := [0x61, 0x62, 0x63, 0x80] + seq(52, _ => 0) + [0, 0, 0, 0, 0, 0, 0, 24]

  lemma {:induction false} PowerLeast(k: nat)
    requires k > 0
    ensures Bytes.Power256(k) >= 256
  {
    if k > 1 { PowerLeast(k - 1); }
  }

  lemma LengthOfAbc()
    ensures LengthBytes(24) == [0, 0, 0, 0, 0, 0, 0, 24]
  {
    forall i | 0 <= i < 7 ensures LengthByte(24, i) == 0 { HighByte(i); }
    LowByte();
    hide LengthByte;
    assert LengthBytes(24)[7] == 24;
  }

  lemma SmallQuotient(power: nat)
    requires power >= 256
    ensures 24 / power % 256 == 0
  {
    assert 24 / power == 0;
  }

  lemma NoByte(n: nat)
    requires n == 0
    ensures n as Byte == 0
  {
  }

  lemma HighByte(i: nat)
    requires i < 7
    ensures LengthByte(24, i) == 0
  {
    hide Bytes.Power256;
    PowerLeast(7 - i);
    SmallQuotient(Bytes.Power256(7 - i));
    NoByte(24 / Bytes.Power256(7 - i) % 256);
  }

  lemma LowByte()
    ensures LengthByte(24, 7) == 24
  {
    assert Bytes.Power256(0) == 1;
  }

  lemma OneBlock()
    ensures PaddedMessage(ABC) == BLOCK
  {
    hide LengthBytes;
    LengthOfAbc();
    assert ZeroBytes(3) == 52;
    assert ABC + ([0x80] + seq(52, _ => 0)) == [0x61, 0x62, 0x63, 0x80] + seq(52, _ => 0);
  }

  lemma FirstWord()
    ensures Schedule(BLOCK, 0) == 0x61626380
  {
  }

  lemma ZeroWord(t: nat)
    requires 0 < t < 15
    ensures Schedule(BLOCK, t) == 0
  {
    assert BLOCK[4 * t] == BLOCK[4 * t + 1] == BLOCK[4 * t + 2] == BLOCK[4 * t + 3] == 0;
  }

  lemma LastWord()
    ensures Schedule(BLOCK, 15) == 24
  {
  }

  lemma Words0()
    ensures Schedule(BLOCK, 0) == 0x61626380
    ensures Schedule(BLOCK, 1) == 0x00000000
    ensures Schedule(BLOCK, 2) == 0x00000000
    ensures Schedule(BLOCK, 3) == 0x00000000
    ensures Schedule(BLOCK, 4) == 0x00000000
    ensures Schedule(BLOCK, 5) == 0x00000000
    ensures Schedule(BLOCK, 6) == 0x00000000
    ensures Schedule(BLOCK, 7) == 0x00000000
  {
    hide Schedule, BLOCK;
    FirstWord();
    ZeroWord(1);
    ZeroWord(2);
    ZeroWord(3);
    ZeroWord(4);
    ZeroWord(5);
    ZeroWord(6);
    ZeroWord(7);
  }

  lemma Words8()
    ensures Schedule(BLOCK, 8) == 0x00000000
    ensures Schedule(BLOCK, 9) == 0x00000000
    ensures Schedule(BLOCK, 10) == 0x00000000
    ensures Schedule(BLOCK, 11) == 0x00000000
    ensures Schedule(BLOCK, 12) == 0x00000000
    ensures Schedule(BLOCK, 13) == 0x00000000
    ensures Schedule(BLOCK, 14) == 0x00000000
    ensures Schedule(BLOCK, 15) == 0x00000018
  {
    hide Schedule, BLOCK;
    ZeroWord(8);
    ZeroWord(9);
    ZeroWord(10);
    ZeroWord(11);
    ZeroWord(12);
    ZeroWord(13);
    ZeroWord(14);
    LastWord();
  }

  lemma OneMoreWord(t: nat)
    requires 16 <= t < 64
    ensures Schedule(BLOCK, t) ==
            LaterWord(Schedule(BLOCK, t - 2), Schedule(BLOCK, t - 7), Schedule(BLOCK, t - 15), Schedule(BLOCK, t - 16))
  {
    hide LaterWord, BLOCK;
  }

  lemma Words16()
    ensures Schedule(BLOCK, 16) == 0x61626380
    ensures Schedule(BLOCK, 17) == 0x000f0000
    ensures Schedule(BLOCK, 18) == 0x7da86405
    ensures Schedule(BLOCK, 19) == 0x600003c6
    ensures Schedule(BLOCK, 20) == 0x3e9d7b78
    ensures Schedule(BLOCK, 21) == 0x0183fc00
    ensures Schedule(BLOCK, 22) == 0x12dcbfdb
    ensures Schedule(BLOCK, 23) == 0xe2e2c38e
  {
    hide Schedule;
    Words8();
    Words0();
    OneMoreWord(16);
    OneMoreWord(17);
    OneMoreWord(18);
    OneMoreWord(19);
    OneMoreWord(20);
    OneMoreWord(21);
    OneMoreWord(22);
    OneMoreWord(23);
  }

  lemma Words24()
    ensures Schedule(BLOCK, 24) == 0xc8215c1a
    ensures Schedule(BLOCK, 25) == 0xb73679a2
    ensures Schedule(BLOCK, 26) == 0xe5bc3909
    ensures Schedule(BLOCK, 27) == 0x32663c5b
    ensures Schedule(BLOCK, 28) == 0x9d209d67
    ensures Schedule(BLOCK, 29) == 0xec8726cb
    ensures Schedule(BLOCK, 30) == 0x702138a4
    ensures Schedule(BLOCK, 31) == 0xd3b7973b
  {
    hide Schedule;
    Words16();
    Words8();
    OneMoreWord(24);
    OneMoreWord(25);
    OneMoreWord(26);
    OneMoreWord(27);
    OneMoreWord(28);
    OneMoreWord(29);
    OneMoreWord(30);
    OneMoreWord(31);
  }

  lemma Words32()
    ensures Schedule(BLOCK, 32) == 0x93f5997f
    ensures Schedule(BLOCK, 33) == 0x3b68ba73
    ensures Schedule(BLOCK, 34) == 0xaff4ffc1
    ensures Schedule(BLOCK, 35) == 0xf10a5c62
    ensures Schedule(BLOCK, 36) == 0x0a8b3996
    ensures Schedule(BLOCK, 37) == 0x72af830a
    ensures Schedule(BLOCK, 38) == 0x9409e33e
    ensures Schedule(BLOCK, 39) == 0x24641522
  {
    hide Schedule;
    Words24();
    Words16();
    OneMoreWord(32);
    OneMoreWord(33);
    OneMoreWord(34);
    OneMoreWord(35);
    OneMoreWord(36);
    OneMoreWord(37);
    OneMoreWord(38);
    OneMoreWord(39);
  }

  lemma Words40()
    ensures Schedule(BLOCK, 40) == 0x9f47bf94
    ensures Schedule(BLOCK, 41) == 0xf0a64f5a
    ensures Schedule(BLOCK, 42) == 0x3e246a79
    ensures Schedule(BLOCK, 43) == 0x27333ba3
    ensures Schedule(BLOCK, 44) == 0x0c4763f2
    ensures Schedule(BLOCK, 45) == 0x840abf27
    ensures Schedule(BLOCK, 46) == 0x7a290d5d
    ensures Schedule(BLOCK, 47) == 0x065c43da
  {
    hide Schedule;
    Words32();
    Words24();
    OneMoreWord(40);
    OneMoreWord(41);
    OneMoreWord(42);
    OneMoreWord(43);
    OneMoreWord(44);
    OneMoreWord(45);
    OneMoreWord(46);
    OneMoreWord(47);
  }

  lemma Words48()
    ensures Schedule(BLOCK, 48) == 0xfb3e89cb
    ensures Schedule(BLOCK, 49) == 0xcc7617db
    ensures Schedule(BLOCK, 50) == 0xb9e66c34
    ensures Schedule(BLOCK, 51) == 0xa9993667
    ensures Schedule(BLOCK, 52) == 0x84badedd
    ensures Schedule(BLOCK, 53) == 0xc21462bc
    ensures Schedule(BLOCK, 54) == 0x1487472c
    ensures Schedule(BLOCK, 55) == 0xb20f7a99
  {
    hide Schedule;
    Words40();
    Words32();
    OneMoreWord(48);
    OneMoreWord(49);
    OneMoreWord(50);
    OneMoreWord(51);
    OneMoreWord(52);
    OneMoreWord(53);
    OneMoreWord(54);
    OneMoreWord(55);
  }

  lemma Words56()
    ensures Schedule(BLOCK, 56) == 0xef57b9cd
    ensures Schedule(BLOCK, 57) == 0xebe6b238
    ensures Schedule(BLOCK, 58) == 0x9fe3095e
    ensures Schedule(BLOCK, 59) == 0x78bc8d4b
    ensures Schedule(BLOCK, 60) == 0xa43fcf15
    ensures Schedule(BLOCK, 61) == 0x668b2ff8
    ensures Schedule(BLOCK, 62) == 0xeeaba2cc
    ensures Schedule(BLOCK, 63) == 0x12b1edeb
  {
    hide Schedule;
    Words48();
    Words40();
    OneMoreWord(56);
    OneMoreWord(57);
    OneMoreWord(58);
    OneMoreWord(59);
    OneMoreWord(60);
    OneMoreWord(61);
    OneMoreWord(62);
    OneMoreWord(63);
  }

  lemma NoRounds()
    ensures Rounds(H0, BLOCK, 0) == H0
  {
  }

  lemma OneMoreRound(t: nat)
    requires t < 64
    ensures Rounds(H0, BLOCK, t + 1) == Round(Rounds(H0, BLOCK, t), ROUND_CONSTANTS[t], Schedule(BLOCK, t))
  {
    hide Round, Schedule, ROUND_CONSTANTS, BLOCK, H0;
  }

  lemma Rounds0()
    ensures Rounds(H0, BLOCK, 1) == Working(0x5d6aebcd, 0x6a09e667, 0xbb67ae85, 0x3c6ef372,
                                            0xfa2a4622, 0x510e527f, 0x9b05688c, 0x1f83d9ab)
    ensures Rounds(H0, BLOCK, 2) == Working(0x5a6ad9ad, 0x5d6aebcd, 0x6a09e667, 0xbb67ae85,
                                            0x78ce7989, 0xfa2a4622, 0x510e527f, 0x9b05688c)
    ensures Rounds(H0, BLOCK, 3) == Working(0xc8c347a7, 0x5a6ad9ad, 0x5d6aebcd, 0x6a09e667,
                                            0xf92939eb, 0x78ce7989, 0xfa2a4622, 0x510e527f)
    ensures Rounds(H0, BLOCK, 4) == Working(0xd550f666, 0xc8c347a7, 0x5a6ad9ad, 0x5d6aebcd,
                                            0x24e00850, 0xf92939eb, 0x78ce7989, 0xfa2a4622)
    ensures Rounds(H0, BLOCK, 5) == Working(0x04409a6a, 0xd550f666, 0xc8c347a7, 0x5a6ad9ad,
                                            0x43ada245, 0x24e00850, 0xf92939eb, 0x78ce7989)
    ensures Rounds(H0, BLOCK, 6) == Working(0x2b4209f5, 0x04409a6a, 0xd550f666, 0xc8c347a7,
                                            0x714260ad, 0x43ada245, 0x24e00850, 0xf92939eb)
    ensures Rounds(H0, BLOCK, 7) == Working(0xe5030380, 0x2b4209f5, 0x04409a6a, 0xd550f666,
                                            0x9b27a401, 0x714260ad, 0x43ada245, 0x24e00850)
    ensures Rounds(H0, BLOCK, 8) == Working(0x85a07b5f, 0xe5030380, 0x2b4209f5, 0x04409a6a,
                                            0x0c657a79, 0x9b27a401, 0x714260ad, 0x43ada245)
  {
    hide Schedule, ROUND_CONSTANTS, Rounds;
    NoRounds();
    OneMoreRound(0);
    OneMoreRound(1);
    OneMoreRound(2);
    OneMoreRound(3);
    OneMoreRound(4);
    OneMoreRound(5);
    OneMoreRound(6);
    OneMoreRound(7);
    Words0();
    Constants0();
  }

  lemma Rounds8()
    ensures Rounds(H0, BLOCK, 9) == Working(0x8e04ecb9, 0x85a07b5f, 0xe5030380, 0x2b4209f5,
                                            0x32ca2d8c, 0x0c657a79, 0x9b27a401, 0x714260ad)
    ensures Rounds(H0, BLOCK, 10) == Working(0x8c87346b, 0x8e04ecb9, 0x85a07b5f, 0xe5030380,
                                            0x1cc92596, 0x32ca2d8c, 0x0c657a79, 0x9b27a401)
    ensures Rounds(H0, BLOCK, 11) == Working(0x4798a3f4, 0x8c87346b, 0x8e04ecb9, 0x85a07b5f,
                                            0x436b23e8, 0x1cc92596, 0x32ca2d8c, 0x0c657a79)
    ensures Rounds(H0, BLOCK, 12) == Working(0xf71fc5a9, 0x4798a3f4, 0x8c87346b, 0x8e04ecb9,
                                            0x816fd6e9, 0x436b23e8, 0x1cc92596, 0x32ca2d8c)
    ensures Rounds(H0, BLOCK, 13) == Working(0x87912990, 0xf71fc5a9, 0x4798a3f4, 0x8c87346b,
                                            0x1e578218, 0x816fd6e9, 0x436b23e8, 0x1cc92596)
    ensures Rounds(H0, BLOCK, 14) == Working(0xd932eb16, 0x87912990, 0xf71fc5a9, 0x4798a3f4,
                                            0x745a48de, 0x1e578218, 0x816fd6e9, 0x436b23e8)
    ensures Rounds(H0, BLOCK, 15) == Working(0xc0645fde, 0xd932eb16, 0x87912990, 0xf71fc5a9,
                                            0x0b92f20c, 0x745a48de, 0x1e578218, 0x816fd6e9)
    ensures Rounds(H0, BLOCK, 16) == Working(0xb0fa238e, 0xc0645fde, 0xd932eb16, 0x87912990,
                                            0x07590dcd, 0x0b92f20c, 0x745a48de, 0x1e578218)
  {
    hide Schedule, ROUND_CONSTANTS, Rounds;
    OneMoreRound(8);
    OneMoreRound(9);
    OneMoreRound(10);
    OneMoreRound(11);
    OneMoreRound(12);
    OneMoreRound(13);
    OneMoreRound(14);
    OneMoreRound(15);
    Rounds0();
    Words8();
    Constants8();
  }

  lemma Rounds16()
    ensures Rounds(H0, BLOCK, 17) == Working(0x21da9a9b, 0xb0fa238e, 0xc0645fde, 0xd932eb16,
                                            0x8034229c, 0x07590dcd, 0x0b92f20c, 0x745a48de)
    ensures Rounds(H0, BLOCK, 18) == Working(0xc2fbd9d1, 0x21da9a9b, 0xb0fa238e, 0xc0645fde,
                                            0x846ee454, 0x8034229c, 0x07590dcd, 0x0b92f20c)
    ensures Rounds(H0, BLOCK, 19) == Working(0xfe777bbf, 0xc2fbd9d1, 0x21da9a9b, 0xb0fa238e,
                                            0xcc899961, 0x846ee454, 0x8034229c, 0x07590dcd)
    ensures Rounds(H0, BLOCK, 20) == Working(0xe1f20c33, 0xfe777bbf, 0xc2fbd9d1, 0x21da9a9b,
                                            0xb0638179, 0xcc899961, 0x846ee454, 0x8034229c)
    ensures Rounds(H0, BLOCK, 21) == Working(0x9dc68b63, 0xe1f20c33, 0xfe777bbf, 0xc2fbd9d1,
                                            0x8ada8930, 0xb0638179, 0xcc899961, 0x846ee454)
    ensures Rounds(H0, BLOCK, 22) == Working(0xc2606d6d, 0x9dc68b63, 0xe1f20c33, 0xfe777bbf,
                                            0xe1257970, 0x8ada8930, 0xb0638179, 0xcc899961)
    ensures Rounds(H0, BLOCK, 23) == Working(0xa7a3623f, 0xc2606d6d, 0x9dc68b63, 0xe1f20c33,
                                            0x49f5114a, 0xe1257970, 0x8ada8930, 0xb0638179)
    ensures Rounds(H0, BLOCK, 24) == Working(0xc5d53d8d, 0xa7a3623f, 0xc2606d6d, 0x9dc68b63,
                                            0xaa47c347, 0x49f5114a, 0xe1257970, 0x8ada8930)
  {
    hide Schedule, ROUND_CONSTANTS, Rounds;
    OneMoreRound(16);
    OneMoreRound(17);
    OneMoreRound(18);
    OneMoreRound(19);
    OneMoreRound(20);
    OneMoreRound(21);
    OneMoreRound(22);
    OneMoreRound(23);
    Rounds8();
    Words16();
    Constants16();
  }

  lemma Rounds24()
    ensures Rounds(H0, BLOCK, 25) == Working(0x1c2c2838, 0xc5d53d8d, 0xa7a3623f, 0xc2606d6d,
                                            0x2823ef91, 0xaa47c347, 0x49f5114a, 0xe1257970)
    ensures Rounds(H0, BLOCK, 26) == Working(0xcde8037d, 0x1c2c2838, 0xc5d53d8d, 0xa7a3623f,
                                            0x14383d8e, 0x2823ef91, 0xaa47c347, 0x49f5114a)
    ensures Rounds(H0, BLOCK, 27) == Working(0xb62ec4bc, 0xcde8037d, 0x1c2c2838, 0xc5d53d8d,
                                            0xc74c6516, 0x14383d8e, 0x2823ef91, 0xaa47c347)
    ensures Rounds(H0, BLOCK, 28) == Working(0x77d37528, 0xb62ec4bc, 0xcde8037d, 0x1c2c2838,
                                            0xedffbff8, 0xc74c6516, 0x14383d8e, 0x2823ef91)
    ensures Rounds(H0, BLOCK, 29) == Working(0x363482c9, 0x77d37528, 0xb62ec4bc, 0xcde8037d,
                                            0x6112a3b7, 0xedffbff8, 0xc74c6516, 0x14383d8e)
    ensures Rounds(H0, BLOCK, 30) == Working(0xa0060b30, 0x363482c9, 0x77d37528, 0xb62ec4bc,
                                            0xade79437, 0x6112a3b7, 0xedffbff8, 0xc74c6516)
    ensures Rounds(H0, BLOCK, 31) == Working(0xea992a22, 0xa0060b30, 0x363482c9, 0x77d37528,
                                            0x0109ab3a, 0xade79437, 0x6112a3b7, 0xedffbff8)
    ensures Rounds(H0, BLOCK, 32) == Working(0x73b33bf5, 0xea992a22, 0xa0060b30, 0x363482c9,
                                            0xba591112, 0x0109ab3a, 0xade79437, 0x6112a3b7)
  {
    hide Schedule, ROUND_CONSTANTS, Rounds;
    OneMoreRound(24);
    OneMoreRound(25);
    OneMoreRound(26);
    OneMoreRound(27);
    OneMoreRound(28);
    OneMoreRound(29);
    OneMoreRound(30);
    OneMoreRound(31);
    Rounds16();
    Words24();
    Constants24();
  }

  lemma Rounds32()
    ensures Rounds(H0, BLOCK, 33) == Working(0x98e12507, 0x73b33bf5, 0xea992a22, 0xa0060b30,
                                            0x9cd9f5f6, 0xba591112, 0x0109ab3a, 0xade79437)
    ensures Rounds(H0, BLOCK, 34) == Working(0xfe604df5, 0x98e12507, 0x73b33bf5, 0xea992a22,
                                            0x59249dd3, 0x9cd9f5f6, 0xba591112, 0x0109ab3a)
    ensures Rounds(H0, BLOCK, 35) == Working(0xa9a7738c, 0xfe604df5, 0x98e12507, 0x73b33bf5,
                                            0x085f3833, 0x59249dd3, 0x9cd9f5f6, 0xba591112)
    ensures Rounds(H0, BLOCK, 36) == Working(0x65a0cfe4, 0xa9a7738c, 0xfe604df5, 0x98e12507,
                                            0xf4b002d6, 0x085f3833, 0x59249dd3, 0x9cd9f5f6)
    ensures Rounds(H0, BLOCK, 37) == Working(0x41a65cb1, 0x65a0cfe4, 0xa9a7738c, 0xfe604df5,
                                            0x0772a26b, 0xf4b002d6, 0x085f3833, 0x59249dd3)
    ensures Rounds(H0, BLOCK, 38) == Working(0x34df1604, 0x41a65cb1, 0x65a0cfe4, 0xa9a7738c,
                                            0xa507a53d, 0x0772a26b, 0xf4b002d6, 0x085f3833)
    ensures Rounds(H0, BLOCK, 39) == Working(0x6dc57a8a, 0x34df1604, 0x41a65cb1, 0x65a0cfe4,
                                            0xf0781bc8, 0xa507a53d, 0x0772a26b, 0xf4b002d6)
    ensures Rounds(H0, BLOCK, 40) == Working(0x79ea687a, 0x6dc57a8a, 0x34df1604, 0x41a65cb1,
                                            0x1efbc0a0, 0xf0781bc8, 0xa507a53d, 0x0772a26b)
  {
    hide Schedule, ROUND_CONSTANTS, Rounds;
    OneMoreRound(32);
    OneMoreRound(33);
    OneMoreRound(34);
    OneMoreRound(35);
    OneMoreRound(36);
    OneMoreRound(37);
    OneMoreRound(38);
    OneMoreRound(39);
    Rounds24();
    Words32();
    Constants32();
  }

  lemma Rounds40()
    ensures Rounds(H0, BLOCK, 41) == Working(0xd6670766, 0x79ea687a, 0x6dc57a8a, 0x34df1604,
                                            0x26352d63, 0x1efbc0a0, 0xf0781bc8, 0xa507a53d)
    ensures Rounds(H0, BLOCK, 42) == Working(0xdf46652f, 0xd6670766, 0x79ea687a, 0x6dc57a8a,
                                            0x838b2711, 0x26352d63, 0x1efbc0a0, 0xf0781bc8)
    ensures Rounds(H0, BLOCK, 43) == Working(0x17aa0dfe, 0xdf46652f, 0xd6670766, 0x79ea687a,
                                            0xdecd4715, 0x838b2711, 0x26352d63, 0x1efbc0a0)
    ensures Rounds(H0, BLOCK, 44) == Working(0x9d4baf93, 0x17aa0dfe, 0xdf46652f, 0xd6670766,
                                            0xfda24c2e, 0xdecd4715, 0x838b2711, 0x26352d63)
    ensures Rounds(H0, BLOCK, 45) == Working(0x26628815, 0x9d4baf93, 0x17aa0dfe, 0xdf46652f,
                                            0xa80f11f0, 0xfda24c2e, 0xdecd4715, 0x838b2711)
    ensures Rounds(H0, BLOCK, 46) == Working(0x72ab4b91, 0x26628815, 0x9d4baf93, 0x17aa0dfe,
                                            0xb7755da1, 0xa80f11f0, 0xfda24c2e, 0xdecd4715)
    ensures Rounds(H0, BLOCK, 47) == Working(0xa14c14b0, 0x72ab4b91, 0x26628815, 0x9d4baf93,
                                            0xd57b94a9, 0xb7755da1, 0xa80f11f0, 0xfda24c2e)
    ensures Rounds(H0, BLOCK, 48) == Working(0x4172328d, 0xa14c14b0, 0x72ab4b91, 0x26628815,
                                            0xfecf0bc6, 0xd57b94a9, 0xb7755da1, 0xa80f11f0)
  {
    hide Schedule, ROUND_CONSTANTS, Rounds;
    OneMoreRound(40);
    OneMoreRound(41);
    OneMoreRound(42);
    OneMoreRound(43);
    OneMoreRound(44);
    OneMoreRound(45);
    OneMoreRound(46);
    OneMoreRound(47);
    Rounds32();
    Words40();
    Constants40();
  }

  lemma Rounds48()
    ensures Rounds(H0, BLOCK, 49) == Working(0x05757ceb, 0x4172328d, 0xa14c14b0, 0x72ab4b91,
                                            0xbd714038, 0xfecf0bc6, 0xd57b94a9, 0xb7755da1)
    ensures Rounds(H0, BLOCK, 50) == Working(0xf11bfaa8, 0x05757ceb, 0x4172328d, 0xa14c14b0,
                                            0x6e5c390c, 0xbd714038, 0xfecf0bc6, 0xd57b94a9)
    ensures Rounds(H0, BLOCK, 51) == Working(0x7a0508a1, 0xf11bfaa8, 0x05757ceb, 0x4172328d,
                                            0x52f1ccf7, 0x6e5c390c, 0xbd714038, 0xfecf0bc6)
    ensures Rounds(H0, BLOCK, 52) == Working(0x886e7a22, 0x7a0508a1, 0xf11bfaa8, 0x05757ceb,
                                            0x49231c1e, 0x52f1ccf7, 0x6e5c390c, 0xbd714038)
    ensures Rounds(H0, BLOCK, 53) == Working(0x101fd28f, 0x886e7a22, 0x7a0508a1, 0xf11bfaa8,
                                            0x529e7d00, 0x49231c1e, 0x52f1ccf7, 0x6e5c390c)
    ensures Rounds(H0, BLOCK, 54) == Working(0xf5702fdb, 0x101fd28f, 0x886e7a22, 0x7a0508a1,
                                            0x9f4787c3, 0x529e7d00, 0x49231c1e, 0x52f1ccf7)
    ensures Rounds(H0, BLOCK, 55) == Working(0x3ec45cdb, 0xf5702fdb, 0x101fd28f, 0x886e7a22,
                                            0xe50e1b4f, 0x9f4787c3, 0x529e7d00, 0x49231c1e)
    ensures Rounds(H0, BLOCK, 56) == Working(0x38cc9913, 0x3ec45cdb, 0xf5702fdb, 0x101fd28f,
                                            0x54cb266b, 0xe50e1b4f, 0x9f4787c3, 0x529e7d00)
  {
    hide Schedule, ROUND_CONSTANTS, Rounds;
    OneMoreRound(48);
    OneMoreRound(49);
    OneMoreRound(50);
    OneMoreRound(51);
    OneMoreRound(52);
    OneMoreRound(53);
    OneMoreRound(54);
    OneMoreRound(55);
    Rounds40();
    Words48();
    Constants48();
  }

  lemma Rounds56()
    ensures Rounds(H0, BLOCK, 57) == Working(0xfcd1887b, 0x38cc9913, 0x3ec45cdb, 0xf5702fdb,
                                            0x9b5e906c, 0x54cb266b, 0xe50e1b4f, 0x9f4787c3)
    ensures Rounds(H0, BLOCK, 58) == Working(0xc062d46f, 0xfcd1887b, 0x38cc9913, 0x3ec45cdb,
                                            0x7e44008e, 0x9b5e906c, 0x54cb266b, 0xe50e1b4f)
    ensures Rounds(H0, BLOCK, 59) == Working(0xffb70472, 0xc062d46f, 0xfcd1887b, 0x38cc9913,
                                            0x6d83bfc6, 0x7e44008e, 0x9b5e906c, 0x54cb266b)
    ensures Rounds(H0, BLOCK, 60) == Working(0xb6ae8fff, 0xffb70472, 0xc062d46f, 0xfcd1887b,
                                            0xb21bad3d, 0x6d83bfc6, 0x7e44008e, 0x9b5e906c)
    ensures Rounds(H0, BLOCK, 61) == Working(0xb85e2ce9, 0xb6ae8fff, 0xffb70472, 0xc062d46f,
                                            0x961f4894, 0xb21bad3d, 0x6d83bfc6, 0x7e44008e)
    ensures Rounds(H0, BLOCK, 62) == Working(0x04d24d6c, 0xb85e2ce9, 0xb6ae8fff, 0xffb70472,
                                            0x948d25b6, 0x961f4894, 0xb21bad3d, 0x6d83bfc6)
    ensures Rounds(H0, BLOCK, 63) == Working(0xd39a2165, 0x04d24d6c, 0xb85e2ce9, 0xb6ae8fff,
                                            0xfb121210, 0x948d25b6, 0x961f4894, 0xb21bad3d)
    ensures Rounds(H0, BLOCK, 64) == Working(0x506e3058, 0xd39a2165, 0x04d24d6c, 0xb85e2ce9,
                                            0x5ef50f24, 0xfb121210, 0x948d25b6, 0x961f4894)
  {
    hide Schedule, ROUND_CONSTANTS, Rounds;
    OneMoreRound(56);
    OneMoreRound(57);
    OneMoreRound(58);
    OneMoreRound(59);
    OneMoreRound(60);
    OneMoreRound(61);
    OneMoreRound(62);
    OneMoreRound(63);
    Rounds48();
    Words56();
    Constants56();
  }

  /** The digest of abc is the published one. */
  lemma DigestOfAbc()
    ensures Hash(ABC) == [
              0xba, 0x78, 0x16, 0xbf, 0x8f, 0x01, 0xcf, 0xea,
              0x41, 0x41, 0x40, 0xde, 0x5d, 0xae, 0x22, 0x23,
              0xb0, 0x03, 0x61, 0xa3, 0x96, 0x17, 0x7a, 0x9c,
              0xb4, 0x10, 0xff, 0x61, 0xf2, 0x00, 0x15, 0xad]
  {
    hide Rounds, Schedule;
    OneBlock();
    Rounds56();
    assert BLOCK[..64] == BLOCK && BLOCK[64..] == [];
  }
}
