/** The example published with the standard: the digest of "abc". The functions that the specification and the loop
    share are thereby fixed together; the laws of the two choice functions and of byte order hold for all words. */
module Sha256Example {
  import opened Sha256

  // ---- choice, majority and byte order ----------------------------------------------------------------------

  /** On the bits where two of the three words agree, the majority is what they agree on. */
  lemma MajIsMajority(x: word, y: word, z: word, mask: word)
    requires x & mask == y & mask
    ensures Maj(x, y, z) & mask == x & mask
  {}

  lemma MajCommutes(x: word, y: word, z: word)
    ensures Maj(x, y, z) == Maj(x, z, y) == Maj(z, x, y)
  {}

  /** The first word chooses, bit by bit, between the other two. */
  lemma ChChooses(x: word, y: word, z: word, mask: word)
    ensures x & mask == mask ==> Ch(x, y, z) & mask == y & mask
    ensures x & mask == 0 ==> Ch(x, y, z) & mask == z & mask
  {}

  /** A number and the word with that value. */
  lemma ToWord(n: nat, w: word)
    requires w as nat == n
    ensures n as word == w
  {}

  /** A word is its four bytes, most significant first, and back. */
  lemma WordsAreBytes(w: word)
    ensures Number(WordBytes(w)) == w as nat
    ensures var b := WordBytes(w); BigEndian4(b[0], b[1], b[2], b[3]) == w
  {
    var n := w as nat;
    assert Pow256(4) == 0x1_0000_0000;
    NumberOfBytes(n, 4);
    FourBytes(n);
    ToWord(n, w);
  }

  lemma FourBytes(n: nat)
    requires n < 0x1_0000_0000
    ensures var b := Bytes(n, 4);
      n == (b[0] as nat) * 0x100_0000 + (b[1] as nat) * 0x1_0000 + (b[2] as nat) * 0x100 + b[3] as nat
  {
    var n1 := n / 256;
    var n2 := n1 / 256;
    var n3 := n2 / 256;
    assert Bytes(n, 4) == Bytes(n1, 3) + [n % 256] && Bytes(n1, 3) == Bytes(n2, 2) + [n1 % 256];
    assert Bytes(n2, 2) == Bytes(n3, 1) + [n2 % 256] && Bytes(n3, 1) == Bytes(n3 / 256, 0) + [n3 % 256];
  }

  // ---- the block --------------------------------------------------------------------------------------------

  const ABC: seq<byte> := [97, 98, 99]

  /** The message, the marker, and a length of 24 bits. */
  const BLOCK: seq<byte> := ABC + [0x80] + Zeros(52) + [0, 0, 0, 0, 0, 0, 0, 24]

  lemma AbcPadded()
    ensures Pad(ABC) == BLOCK && |BLOCK| == 64
  {
    assert ZeroCount(3) == 52;
    assert Bytes(24, 8) == [0, 0, 0, 0, 0, 0, 0, 24] by {
      assert Bytes(0, 4) == Bytes(0, 3) + [0] == Bytes(0, 2) + [0] + [0];
      assert Bytes(0, 7) == Bytes(0, 6) + [0] == Bytes(0, 5) + [0] + [0] == Bytes(0, 4) + [0] + [0] + [0];
      assert Bytes(0, 2) == Bytes(0, 1) + [0] == Bytes(0, 0) + [0] + [0];
    }
  }

  // ---- the schedule -----------------------------------------------------------------------------------------

  ghost predicate Scheduled(t: nat, w: word) { t < 64 && |BLOCK| == 64 && W(BLOCK, t) == w }

  lemma BlockWord(t: nat, w: word)
    requires t < 16 && w as nat == if t == 0 then 0x61626380 else if t == 15 then 24 else 0
    ensures Scheduled(t, w)
  {
    AbcPadded();
    var b0, b1, b2, b3 := BLOCK[4 * t], BLOCK[4 * t + 1], BLOCK[4 * t + 2], BLOCK[4 * t + 3];
    var n: nat := (b0 as nat) * 0x100_0000 + (b1 as nat) * 0x1_0000 + (b2 as nat) * 0x100 + b3 as nat;
    assert n == w as nat;
    ToWord(n, w);
  }

  lemma ScheduleNext(t: nat, w2: word, w7: word, w15: word, w16: word)
    requires 16 <= t < 64
    requires Scheduled(t - 2, w2) && Scheduled(t - 7, w7) && Scheduled(t - 15, w15) && Scheduled(t - 16, w16)
    ensures Scheduled(t, Add4(SmallSigma1(w2), w7, SmallSigma0(w15), w16))
  {
    hide Add4, SmallSigma0, SmallSigma1, BLOCK;
  }

  lemma Words0()
    ensures Scheduled(0, 0x61626380) && Scheduled(1, 0x00000000)
    ensures Scheduled(2, 0x00000000) && Scheduled(3, 0x00000000)
    ensures Scheduled(4, 0x00000000) && Scheduled(5, 0x00000000)
    ensures Scheduled(6, 0x00000000) && Scheduled(7, 0x00000000)
    ensures Scheduled(8, 0x00000000) && Scheduled(9, 0x00000000)
    ensures Scheduled(10, 0x00000000) && Scheduled(11, 0x00000000)
    ensures Scheduled(12, 0x00000000) && Scheduled(13, 0x00000000)
    ensures Scheduled(14, 0x00000000) && Scheduled(15, 0x00000018)
  {
    hide Scheduled;
    BlockWord(0, 0x61626380);
    BlockWord(1, 0x00000000);
    BlockWord(2, 0x00000000);
    BlockWord(3, 0x00000000);
    BlockWord(4, 0x00000000);
    BlockWord(5, 0x00000000);
    BlockWord(6, 0x00000000);
    BlockWord(7, 0x00000000);
    BlockWord(8, 0x00000000);
    BlockWord(9, 0x00000000);
    BlockWord(10, 0x00000000);
    BlockWord(11, 0x00000000);
    BlockWord(12, 0x00000000);
    BlockWord(13, 0x00000000);
    BlockWord(14, 0x00000000);
    BlockWord(15, 0x00000018);
  }

  lemma Words16()
    ensures Scheduled(16, 0x61626380) && Scheduled(17, 0x000f0000)
    ensures Scheduled(18, 0x7da86405) && Scheduled(19, 0x600003c6)
    ensures Scheduled(20, 0x3e9d7b78) && Scheduled(21, 0x0183fc00)
    ensures Scheduled(22, 0x12dcbfdb) && Scheduled(23, 0xe2e2c38e)
  {
    hide Scheduled;
    Words0();
    ScheduleNext(16, 0x00000000, 0x00000000, 0x00000000, 0x61626380);
    ScheduleNext(17, 0x00000018, 0x00000000, 0x00000000, 0x00000000);
    ScheduleNext(18, 0x61626380, 0x00000000, 0x00000000, 0x00000000);
    ScheduleNext(19, 0x000f0000, 0x00000000, 0x00000000, 0x00000000);
    ScheduleNext(20, 0x7da86405, 0x00000000, 0x00000000, 0x00000000);
    ScheduleNext(21, 0x600003c6, 0x00000000, 0x00000000, 0x00000000);
    ScheduleNext(22, 0x3e9d7b78, 0x00000018, 0x00000000, 0x00000000);
    ScheduleNext(23, 0x0183fc00, 0x61626380, 0x00000000, 0x00000000);
  }

  lemma Words24()
    ensures Scheduled(24, 0xc8215c1a) && Scheduled(25, 0xb73679a2)
    ensures Scheduled(26, 0xe5bc3909) && Scheduled(27, 0x32663c5b)
    ensures Scheduled(28, 0x9d209d67) && Scheduled(29, 0xec8726cb)
    ensures Scheduled(30, 0x702138a4) && Scheduled(31, 0xd3b7973b)
  {
    hide Scheduled;
    Words0();
    Words16();
    ScheduleNext(24, 0x12dcbfdb, 0x000f0000, 0x00000000, 0x00000000);
    ScheduleNext(25, 0xe2e2c38e, 0x7da86405, 0x00000000, 0x00000000);
    ScheduleNext(26, 0xc8215c1a, 0x600003c6, 0x00000000, 0x00000000);
    ScheduleNext(27, 0xb73679a2, 0x3e9d7b78, 0x00000000, 0x00000000);
    ScheduleNext(28, 0xe5bc3909, 0x0183fc00, 0x00000000, 0x00000000);
    ScheduleNext(29, 0x32663c5b, 0x12dcbfdb, 0x00000000, 0x00000000);
    ScheduleNext(30, 0x9d209d67, 0xe2e2c38e, 0x00000018, 0x00000000);
    ScheduleNext(31, 0xec8726cb, 0xc8215c1a, 0x61626380, 0x00000018);
  }

  lemma Words32()
    ensures Scheduled(32, 0x93f5997f) && Scheduled(33, 0x3b68ba73)
    ensures Scheduled(34, 0xaff4ffc1) && Scheduled(35, 0xf10a5c62)
    ensures Scheduled(36, 0x0a8b3996) && Scheduled(37, 0x72af830a)
    ensures Scheduled(38, 0x9409e33e) && Scheduled(39, 0x24641522)
  {
    hide Scheduled;
    Words16();
    Words24();
    ScheduleNext(32, 0x702138a4, 0xb73679a2, 0x000f0000, 0x61626380);
    ScheduleNext(33, 0xd3b7973b, 0xe5bc3909, 0x7da86405, 0x000f0000);
    ScheduleNext(34, 0x93f5997f, 0x32663c5b, 0x600003c6, 0x7da86405);
    ScheduleNext(35, 0x3b68ba73, 0x9d209d67, 0x3e9d7b78, 0x600003c6);
    ScheduleNext(36, 0xaff4ffc1, 0xec8726cb, 0x0183fc00, 0x3e9d7b78);
    ScheduleNext(37, 0xf10a5c62, 0x702138a4, 0x12dcbfdb, 0x0183fc00);
    ScheduleNext(38, 0x0a8b3996, 0xd3b7973b, 0xe2e2c38e, 0x12dcbfdb);
    ScheduleNext(39, 0x72af830a, 0x93f5997f, 0xc8215c1a, 0xe2e2c38e);
  }

  lemma Words40()
    ensures Scheduled(40, 0x9f47bf94) && Scheduled(41, 0xf0a64f5a)
    ensures Scheduled(42, 0x3e246a79) && Scheduled(43, 0x27333ba3)
    ensures Scheduled(44, 0x0c4763f2) && Scheduled(45, 0x840abf27)
    ensures Scheduled(46, 0x7a290d5d) && Scheduled(47, 0x065c43da)
  {
    hide Scheduled;
    Words24();
    Words32();
    ScheduleNext(40, 0x9409e33e, 0x3b68ba73, 0xb73679a2, 0xc8215c1a);
    ScheduleNext(41, 0x24641522, 0xaff4ffc1, 0xe5bc3909, 0xb73679a2);
    ScheduleNext(42, 0x9f47bf94, 0xf10a5c62, 0x32663c5b, 0xe5bc3909);
    ScheduleNext(43, 0xf0a64f5a, 0x0a8b3996, 0x9d209d67, 0x32663c5b);
    ScheduleNext(44, 0x3e246a79, 0x72af830a, 0xec8726cb, 0x9d209d67);
    ScheduleNext(45, 0x27333ba3, 0x9409e33e, 0x702138a4, 0xec8726cb);
    ScheduleNext(46, 0x0c4763f2, 0x24641522, 0xd3b7973b, 0x702138a4);
    ScheduleNext(47, 0x840abf27, 0x9f47bf94, 0x93f5997f, 0xd3b7973b);
  }

  lemma Words48()
    ensures Scheduled(48, 0xfb3e89cb) && Scheduled(49, 0xcc7617db)
    ensures Scheduled(50, 0xb9e66c34) && Scheduled(51, 0xa9993667)
    ensures Scheduled(52, 0x84badedd) && Scheduled(53, 0xc21462bc)
    ensures Scheduled(54, 0x1487472c) && Scheduled(55, 0xb20f7a99)
  {
    hide Scheduled;
    Words32();
    Words40();
    ScheduleNext(48, 0x7a290d5d, 0xf0a64f5a, 0x3b68ba73, 0x93f5997f);
    ScheduleNext(49, 0x065c43da, 0x3e246a79, 0xaff4ffc1, 0x3b68ba73);
    ScheduleNext(50, 0xfb3e89cb, 0x27333ba3, 0xf10a5c62, 0xaff4ffc1);
    ScheduleNext(51, 0xcc7617db, 0x0c4763f2, 0x0a8b3996, 0xf10a5c62);
    ScheduleNext(52, 0xb9e66c34, 0x840abf27, 0x72af830a, 0x0a8b3996);
    ScheduleNext(53, 0xa9993667, 0x7a290d5d, 0x9409e33e, 0x72af830a);
    ScheduleNext(54, 0x84badedd, 0x065c43da, 0x24641522, 0x9409e33e);
    ScheduleNext(55, 0xc21462bc, 0xfb3e89cb, 0x9f47bf94, 0x24641522);
  }

  lemma Words56()
    ensures Scheduled(56, 0xef57b9cd) && Scheduled(57, 0xebe6b238)
    ensures Scheduled(58, 0x9fe3095e) && Scheduled(59, 0x78bc8d4b)
    ensures Scheduled(60, 0xa43fcf15) && Scheduled(61, 0x668b2ff8)
    ensures Scheduled(62, 0xeeaba2cc) && Scheduled(63, 0x12b1edeb)
  {
    hide Scheduled;
    Words40();
    Words48();
    ScheduleNext(56, 0x1487472c, 0xcc7617db, 0xf0a64f5a, 0x9f47bf94);
    ScheduleNext(57, 0xb20f7a99, 0xb9e66c34, 0x3e246a79, 0xf0a64f5a);
    ScheduleNext(58, 0xef57b9cd, 0xa9993667, 0x27333ba3, 0x3e246a79);
    ScheduleNext(59, 0xebe6b238, 0x84badedd, 0x0c4763f2, 0x27333ba3);
    ScheduleNext(60, 0x9fe3095e, 0xc21462bc, 0x840abf27, 0x0c4763f2);
    ScheduleNext(61, 0x78bc8d4b, 0x1487472c, 0x7a290d5d, 0x840abf27);
    ScheduleNext(62, 0xa43fcf15, 0xb20f7a99, 0x065c43da, 0x7a290d5d);
    ScheduleNext(63, 0x668b2ff8, 0xef57b9cd, 0xfb3e89cb, 0x065c43da);
  }

  // ---- the rounds -------------------------------------------------------------------------------------------

  ghost predicate After(t: nat, v: Vars) { t <= 64 && |BLOCK| == 64 && Rounds(Initial(), BLOCK, t) == v }

  lemma OneRound(t: nat, v: Vars, k: word, w: word, r: Vars)
    requires t < 64 && After(t, v) && Scheduled(t, w) && k as nat == RoundConstant(t) && r == Round(v, k, w)
    ensures After(t + 1, r)
  {
    ToWord(RoundConstant(t), k);
    hide Round, BLOCK, W, RoundConstant, Initial;
  }

  // The working variables after each round.
  const V0 := Vars(0x6a09e667, 0xbb67ae85, 0x3c6ef372, 0xa54ff53a, 0x510e527f, 0x9b05688c, 0x1f83d9ab, 0x5be0cd19)
  const V1 := Vars(0x5d6aebcd, 0x6a09e667, 0xbb67ae85, 0x3c6ef372, 0xfa2a4622, 0x510e527f, 0x9b05688c, 0x1f83d9ab)
  const V2 := Vars(0x5a6ad9ad, 0x5d6aebcd, 0x6a09e667, 0xbb67ae85, 0x78ce7989, 0xfa2a4622, 0x510e527f, 0x9b05688c)
  const V3 := Vars(0xc8c347a7, 0x5a6ad9ad, 0x5d6aebcd, 0x6a09e667, 0xf92939eb, 0x78ce7989, 0xfa2a4622, 0x510e527f)
  const V4 := Vars(0xd550f666, 0xc8c347a7, 0x5a6ad9ad, 0x5d6aebcd, 0x24e00850, 0xf92939eb, 0x78ce7989, 0xfa2a4622)
  const V5 := Vars(0x04409a6a, 0xd550f666, 0xc8c347a7, 0x5a6ad9ad, 0x43ada245, 0x24e00850, 0xf92939eb, 0x78ce7989)
  const V6 := Vars(0x2b4209f5, 0x04409a6a, 0xd550f666, 0xc8c347a7, 0x714260ad, 0x43ada245, 0x24e00850, 0xf92939eb)
  const V7 := Vars(0xe5030380, 0x2b4209f5, 0x04409a6a, 0xd550f666, 0x9b27a401, 0x714260ad, 0x43ada245, 0x24e00850)
  const V8 := Vars(0x85a07b5f, 0xe5030380, 0x2b4209f5, 0x04409a6a, 0x0c657a79, 0x9b27a401, 0x714260ad, 0x43ada245)
  const V9 := Vars(0x8e04ecb9, 0x85a07b5f, 0xe5030380, 0x2b4209f5, 0x32ca2d8c, 0x0c657a79, 0x9b27a401, 0x714260ad)
  const V10 := Vars(0x8c87346b, 0x8e04ecb9, 0x85a07b5f, 0xe5030380, 0x1cc92596, 0x32ca2d8c, 0x0c657a79, 0x9b27a401)
  const V11 := Vars(0x4798a3f4, 0x8c87346b, 0x8e04ecb9, 0x85a07b5f, 0x436b23e8, 0x1cc92596, 0x32ca2d8c, 0x0c657a79)
  const V12 := Vars(0xf71fc5a9, 0x4798a3f4, 0x8c87346b, 0x8e04ecb9, 0x816fd6e9, 0x436b23e8, 0x1cc92596, 0x32ca2d8c)
  const V13 := Vars(0x87912990, 0xf71fc5a9, 0x4798a3f4, 0x8c87346b, 0x1e578218, 0x816fd6e9, 0x436b23e8, 0x1cc92596)
  const V14 := Vars(0xd932eb16, 0x87912990, 0xf71fc5a9, 0x4798a3f4, 0x745a48de, 0x1e578218, 0x816fd6e9, 0x436b23e8)
  const V15 := Vars(0xc0645fde, 0xd932eb16, 0x87912990, 0xf71fc5a9, 0x0b92f20c, 0x745a48de, 0x1e578218, 0x816fd6e9)
  const V16 := Vars(0xb0fa238e, 0xc0645fde, 0xd932eb16, 0x87912990, 0x07590dcd, 0x0b92f20c, 0x745a48de, 0x1e578218)
  const V17 := Vars(0x21da9a9b, 0xb0fa238e, 0xc0645fde, 0xd932eb16, 0x8034229c, 0x07590dcd, 0x0b92f20c, 0x745a48de)
  const V18 := Vars(0xc2fbd9d1, 0x21da9a9b, 0xb0fa238e, 0xc0645fde, 0x846ee454, 0x8034229c, 0x07590dcd, 0x0b92f20c)
  const V19 := Vars(0xfe777bbf, 0xc2fbd9d1, 0x21da9a9b, 0xb0fa238e, 0xcc899961, 0x846ee454, 0x8034229c, 0x07590dcd)
  const V20 := Vars(0xe1f20c33, 0xfe777bbf, 0xc2fbd9d1, 0x21da9a9b, 0xb0638179, 0xcc899961, 0x846ee454, 0x8034229c)
  const V21 := Vars(0x9dc68b63, 0xe1f20c33, 0xfe777bbf, 0xc2fbd9d1, 0x8ada8930, 0xb0638179, 0xcc899961, 0x846ee454)
  const V22 := Vars(0xc2606d6d, 0x9dc68b63, 0xe1f20c33, 0xfe777bbf, 0xe1257970, 0x8ada8930, 0xb0638179, 0xcc899961)
  const V23 := Vars(0xa7a3623f, 0xc2606d6d, 0x9dc68b63, 0xe1f20c33, 0x49f5114a, 0xe1257970, 0x8ada8930, 0xb0638179)
  const V24 := Vars(0xc5d53d8d, 0xa7a3623f, 0xc2606d6d, 0x9dc68b63, 0xaa47c347, 0x49f5114a, 0xe1257970, 0x8ada8930)
  const V25 := Vars(0x1c2c2838, 0xc5d53d8d, 0xa7a3623f, 0xc2606d6d, 0x2823ef91, 0xaa47c347, 0x49f5114a, 0xe1257970)
  const V26 := Vars(0xcde8037d, 0x1c2c2838, 0xc5d53d8d, 0xa7a3623f, 0x14383d8e, 0x2823ef91, 0xaa47c347, 0x49f5114a)
  const V27 := Vars(0xb62ec4bc, 0xcde8037d, 0x1c2c2838, 0xc5d53d8d, 0xc74c6516, 0x14383d8e, 0x2823ef91, 0xaa47c347)
  const V28 := Vars(0x77d37528, 0xb62ec4bc, 0xcde8037d, 0x1c2c2838, 0xedffbff8, 0xc74c6516, 0x14383d8e, 0x2823ef91)
  const V29 := Vars(0x363482c9, 0x77d37528, 0xb62ec4bc, 0xcde8037d, 0x6112a3b7, 0xedffbff8, 0xc74c6516, 0x14383d8e)
  const V30 := Vars(0xa0060b30, 0x363482c9, 0x77d37528, 0xb62ec4bc, 0xade79437, 0x6112a3b7, 0xedffbff8, 0xc74c6516)
  const V31 := Vars(0xea992a22, 0xa0060b30, 0x363482c9, 0x77d37528, 0x0109ab3a, 0xade79437, 0x6112a3b7, 0xedffbff8)
  const V32 := Vars(0x73b33bf5, 0xea992a22, 0xa0060b30, 0x363482c9, 0xba591112, 0x0109ab3a, 0xade79437, 0x6112a3b7)
  const V33 := Vars(0x98e12507, 0x73b33bf5, 0xea992a22, 0xa0060b30, 0x9cd9f5f6, 0xba591112, 0x0109ab3a, 0xade79437)
  const V34 := Vars(0xfe604df5, 0x98e12507, 0x73b33bf5, 0xea992a22, 0x59249dd3, 0x9cd9f5f6, 0xba591112, 0x0109ab3a)
  const V35 := Vars(0xa9a7738c, 0xfe604df5, 0x98e12507, 0x73b33bf5, 0x085f3833, 0x59249dd3, 0x9cd9f5f6, 0xba591112)
  const V36 := Vars(0x65a0cfe4, 0xa9a7738c, 0xfe604df5, 0x98e12507, 0xf4b002d6, 0x085f3833, 0x59249dd3, 0x9cd9f5f6)
  const V37 := Vars(0x41a65cb1, 0x65a0cfe4, 0xa9a7738c, 0xfe604df5, 0x0772a26b, 0xf4b002d6, 0x085f3833, 0x59249dd3)
  const V38 := Vars(0x34df1604, 0x41a65cb1, 0x65a0cfe4, 0xa9a7738c, 0xa507a53d, 0x0772a26b, 0xf4b002d6, 0x085f3833)
  const V39 := Vars(0x6dc57a8a, 0x34df1604, 0x41a65cb1, 0x65a0cfe4, 0xf0781bc8, 0xa507a53d, 0x0772a26b, 0xf4b002d6)
  const V40 := Vars(0x79ea687a, 0x6dc57a8a, 0x34df1604, 0x41a65cb1, 0x1efbc0a0, 0xf0781bc8, 0xa507a53d, 0x0772a26b)
  const V41 := Vars(0xd6670766, 0x79ea687a, 0x6dc57a8a, 0x34df1604, 0x26352d63, 0x1efbc0a0, 0xf0781bc8, 0xa507a53d)
  const V42 := Vars(0xdf46652f, 0xd6670766, 0x79ea687a, 0x6dc57a8a, 0x838b2711, 0x26352d63, 0x1efbc0a0, 0xf0781bc8)
  const V43 := Vars(0x17aa0dfe, 0xdf46652f, 0xd6670766, 0x79ea687a, 0xdecd4715, 0x838b2711, 0x26352d63, 0x1efbc0a0)
  const V44 := Vars(0x9d4baf93, 0x17aa0dfe, 0xdf46652f, 0xd6670766, 0xfda24c2e, 0xdecd4715, 0x838b2711, 0x26352d63)
  const V45 := Vars(0x26628815, 0x9d4baf93, 0x17aa0dfe, 0xdf46652f, 0xa80f11f0, 0xfda24c2e, 0xdecd4715, 0x838b2711)
  const V46 := Vars(0x72ab4b91, 0x26628815, 0x9d4baf93, 0x17aa0dfe, 0xb7755da1, 0xa80f11f0, 0xfda24c2e, 0xdecd4715)
  const V47 := Vars(0xa14c14b0, 0x72ab4b91, 0x26628815, 0x9d4baf93, 0xd57b94a9, 0xb7755da1, 0xa80f11f0, 0xfda24c2e)
  const V48 := Vars(0x4172328d, 0xa14c14b0, 0x72ab4b91, 0x26628815, 0xfecf0bc6, 0xd57b94a9, 0xb7755da1, 0xa80f11f0)
  const V49 := Vars(0x05757ceb, 0x4172328d, 0xa14c14b0, 0x72ab4b91, 0xbd714038, 0xfecf0bc6, 0xd57b94a9, 0xb7755da1)
  const V50 := Vars(0xf11bfaa8, 0x05757ceb, 0x4172328d, 0xa14c14b0, 0x6e5c390c, 0xbd714038, 0xfecf0bc6, 0xd57b94a9)
  const V51 := Vars(0x7a0508a1, 0xf11bfaa8, 0x05757ceb, 0x4172328d, 0x52f1ccf7, 0x6e5c390c, 0xbd714038, 0xfecf0bc6)
  const V52 := Vars(0x886e7a22, 0x7a0508a1, 0xf11bfaa8, 0x05757ceb, 0x49231c1e, 0x52f1ccf7, 0x6e5c390c, 0xbd714038)
  const V53 := Vars(0x101fd28f, 0x886e7a22, 0x7a0508a1, 0xf11bfaa8, 0x529e7d00, 0x49231c1e, 0x52f1ccf7, 0x6e5c390c)
  const V54 := Vars(0xf5702fdb, 0x101fd28f, 0x886e7a22, 0x7a0508a1, 0x9f4787c3, 0x529e7d00, 0x49231c1e, 0x52f1ccf7)
  const V55 := Vars(0x3ec45cdb, 0xf5702fdb, 0x101fd28f, 0x886e7a22, 0xe50e1b4f, 0x9f4787c3, 0x529e7d00, 0x49231c1e)
  const V56 := Vars(0x38cc9913, 0x3ec45cdb, 0xf5702fdb, 0x101fd28f, 0x54cb266b, 0xe50e1b4f, 0x9f4787c3, 0x529e7d00)
  const V57 := Vars(0xfcd1887b, 0x38cc9913, 0x3ec45cdb, 0xf5702fdb, 0x9b5e906c, 0x54cb266b, 0xe50e1b4f, 0x9f4787c3)
  const V58 := Vars(0xc062d46f, 0xfcd1887b, 0x38cc9913, 0x3ec45cdb, 0x7e44008e, 0x9b5e906c, 0x54cb266b, 0xe50e1b4f)
  const V59 := Vars(0xffb70472, 0xc062d46f, 0xfcd1887b, 0x38cc9913, 0x6d83bfc6, 0x7e44008e, 0x9b5e906c, 0x54cb266b)
  const V60 := Vars(0xb6ae8fff, 0xffb70472, 0xc062d46f, 0xfcd1887b, 0xb21bad3d, 0x6d83bfc6, 0x7e44008e, 0x9b5e906c)
  const V61 := Vars(0xb85e2ce9, 0xb6ae8fff, 0xffb70472, 0xc062d46f, 0x961f4894, 0xb21bad3d, 0x6d83bfc6, 0x7e44008e)
  const V62 := Vars(0x04d24d6c, 0xb85e2ce9, 0xb6ae8fff, 0xffb70472, 0x948d25b6, 0x961f4894, 0xb21bad3d, 0x6d83bfc6)
  const V63 := Vars(0xd39a2165, 0x04d24d6c, 0xb85e2ce9, 0xb6ae8fff, 0xfb121210, 0x948d25b6, 0x961f4894, 0xb21bad3d)
  const V64 := Vars(0x506e3058, 0xd39a2165, 0x04d24d6c, 0xb85e2ce9, 0x5ef50f24, 0xfb121210, 0x948d25b6, 0x961f4894)

  lemma InitialIs()
    ensures Initial() == V0
  {
    ToWord(InitialHash(0), 0x6a09e667);
    ToWord(InitialHash(1), 0xbb67ae85);
    ToWord(InitialHash(2), 0x3c6ef372);
    ToWord(InitialHash(3), 0xa54ff53a);
    ToWord(InitialHash(4), 0x510e527f);
    ToWord(InitialHash(5), 0x9b05688c);
    ToWord(InitialHash(6), 0x1f83d9ab);
    ToWord(InitialHash(7), 0x5be0cd19);
  }

  lemma Rounds0()
    ensures After(2, V2)
  {
    hide After, Scheduled;
    Words0();
    StartIs();
    OneRound(0, V0, 0x428a2f98, 0x61626380, V1);
    OneRound(1, V1, 0x71374491, 0x00000000, V2);
  }

  lemma Rounds2()
    ensures After(4, V4)
  {
    hide After, Scheduled;
    Words0();
    Rounds0();
    OneRound(2, V2, 0xb5c0fbcf, 0x00000000, V3);
    OneRound(3, V3, 0xe9b5dba5, 0x00000000, V4);
  }

  lemma Rounds4()
    ensures After(6, V6)
  {
    hide After, Scheduled;
    Words0();
    Rounds2();
    OneRound(4, V4, 0x3956c25b, 0x00000000, V5);
    OneRound(5, V5, 0x59f111f1, 0x00000000, V6);
  }

  lemma Rounds6()
    ensures After(8, V8)
  {
    hide After, Scheduled;
    Words0();
    Rounds4();
    OneRound(6, V6, 0x923f82a4, 0x00000000, V7);
    OneRound(7, V7, 0xab1c5ed5, 0x00000000, V8);
  }

  lemma Rounds8()
    ensures After(10, V10)
  {
    hide After, Scheduled;
    Words0();
    Rounds6();
    OneRound(8, V8, 0xd807aa98, 0x00000000, V9);
    OneRound(9, V9, 0x12835b01, 0x00000000, V10);
  }

  lemma Rounds10()
    ensures After(12, V12)
  {
    hide After, Scheduled;
    Words0();
    Rounds8();
    OneRound(10, V10, 0x243185be, 0x00000000, V11);
    OneRound(11, V11, 0x550c7dc3, 0x00000000, V12);
  }

  lemma Rounds12()
    ensures After(14, V14)
  {
    hide After, Scheduled;
    Words0();
    Rounds10();
    OneRound(12, V12, 0x72be5d74, 0x00000000, V13);
    OneRound(13, V13, 0x80deb1fe, 0x00000000, V14);
  }

  lemma Rounds14()
    ensures After(16, V16)
  {
    hide After, Scheduled;
    Words0();
    Rounds12();
    OneRound(14, V14, 0x9bdc06a7, 0x00000000, V15);
    OneRound(15, V15, 0xc19bf174, 0x00000018, V16);
  }

  lemma Rounds16()
    ensures After(18, V18)
  {
    hide After, Scheduled;
    Words16();
    Rounds14();
    OneRound(16, V16, 0xe49b69c1, 0x61626380, V17);
    OneRound(17, V17, 0xefbe4786, 0x000f0000, V18);
  }

  lemma Rounds18()
    ensures After(20, V20)
  {
    hide After, Scheduled;
    Words16();
    Rounds16();
    OneRound(18, V18, 0x0fc19dc6, 0x7da86405, V19);
    OneRound(19, V19, 0x240ca1cc, 0x600003c6, V20);
  }

  lemma Rounds20()
    ensures After(22, V22)
  {
    hide After, Scheduled;
    Words16();
    Rounds18();
    OneRound(20, V20, 0x2de92c6f, 0x3e9d7b78, V21);
    OneRound(21, V21, 0x4a7484aa, 0x0183fc00, V22);
  }

  lemma Rounds22()
    ensures After(24, V24)
  {
    hide After, Scheduled;
    Words16();
    Rounds20();
    OneRound(22, V22, 0x5cb0a9dc, 0x12dcbfdb, V23);
    OneRound(23, V23, 0x76f988da, 0xe2e2c38e, V24);
  }

  lemma Rounds24()
    ensures After(26, V26)
  {
    hide After, Scheduled;
    Words24();
    Rounds22();
    OneRound(24, V24, 0x983e5152, 0xc8215c1a, V25);
    OneRound(25, V25, 0xa831c66d, 0xb73679a2, V26);
  }

  lemma Rounds26()
    ensures After(28, V28)
  {
    hide After, Scheduled;
    Words24();
    Rounds24();
    OneRound(26, V26, 0xb00327c8, 0xe5bc3909, V27);
    OneRound(27, V27, 0xbf597fc7, 0x32663c5b, V28);
  }

  lemma Rounds28()
    ensures After(30, V30)
  {
    hide After, Scheduled;
    Words24();
    Rounds26();
    OneRound(28, V28, 0xc6e00bf3, 0x9d209d67, V29);
    OneRound(29, V29, 0xd5a79147, 0xec8726cb, V30);
  }

  lemma Rounds30()
    ensures After(32, V32)
  {
    hide After, Scheduled;
    Words24();
    Rounds28();
    OneRound(30, V30, 0x06ca6351, 0x702138a4, V31);
    OneRound(31, V31, 0x14292967, 0xd3b7973b, V32);
  }

  lemma Rounds32()
    ensures After(34, V34)
  {
    hide After, Scheduled;
    Words32();
    Rounds30();
    OneRound(32, V32, 0x27b70a85, 0x93f5997f, V33);
    OneRound(33, V33, 0x2e1b2138, 0x3b68ba73, V34);
  }

  lemma Rounds34()
    ensures After(36, V36)
  {
    hide After, Scheduled;
    Words32();
    Rounds32();
    OneRound(34, V34, 0x4d2c6dfc, 0xaff4ffc1, V35);
    OneRound(35, V35, 0x53380d13, 0xf10a5c62, V36);
  }

  lemma Rounds36()
    ensures After(38, V38)
  {
    hide After, Scheduled;
    Words32();
    Rounds34();
    OneRound(36, V36, 0x650a7354, 0x0a8b3996, V37);
    OneRound(37, V37, 0x766a0abb, 0x72af830a, V38);
  }

  lemma Rounds38()
    ensures After(40, V40)
  {
    hide After, Scheduled;
    Words32();
    Rounds36();
    OneRound(38, V38, 0x81c2c92e, 0x9409e33e, V39);
    OneRound(39, V39, 0x92722c85, 0x24641522, V40);
  }

  lemma Rounds40()
    ensures After(42, V42)
  {
    hide After, Scheduled;
    Words40();
    Rounds38();
    OneRound(40, V40, 0xa2bfe8a1, 0x9f47bf94, V41);
    OneRound(41, V41, 0xa81a664b, 0xf0a64f5a, V42);
  }

  lemma Rounds42()
    ensures After(44, V44)
  {
    hide After, Scheduled;
    Words40();
    Rounds40();
    OneRound(42, V42, 0xc24b8b70, 0x3e246a79, V43);
    OneRound(43, V43, 0xc76c51a3, 0x27333ba3, V44);
  }

  lemma Rounds44()
    ensures After(46, V46)
  {
    hide After, Scheduled;
    Words40();
    Rounds42();
    OneRound(44, V44, 0xd192e819, 0x0c4763f2, V45);
    OneRound(45, V45, 0xd6990624, 0x840abf27, V46);
  }

  lemma Rounds46()
    ensures After(48, V48)
  {
    hide After, Scheduled;
    Words40();
    Rounds44();
    OneRound(46, V46, 0xf40e3585, 0x7a290d5d, V47);
    OneRound(47, V47, 0x106aa070, 0x065c43da, V48);
  }

  lemma Rounds48()
    ensures After(50, V50)
  {
    hide After, Scheduled;
    Words48();
    Rounds46();
    OneRound(48, V48, 0x19a4c116, 0xfb3e89cb, V49);
    OneRound(49, V49, 0x1e376c08, 0xcc7617db, V50);
  }

  lemma Rounds50()
    ensures After(52, V52)
  {
    hide After, Scheduled;
    Words48();
    Rounds48();
    OneRound(50, V50, 0x2748774c, 0xb9e66c34, V51);
    OneRound(51, V51, 0x34b0bcb5, 0xa9993667, V52);
  }

  lemma Rounds52()
    ensures After(54, V54)
  {
    hide After, Scheduled;
    Words48();
    Rounds50();
    OneRound(52, V52, 0x391c0cb3, 0x84badedd, V53);
    OneRound(53, V53, 0x4ed8aa4a, 0xc21462bc, V54);
  }

  lemma Rounds54()
    ensures After(56, V56)
  {
    hide After, Scheduled;
    Words48();
    Rounds52();
    OneRound(54, V54, 0x5b9cca4f, 0x1487472c, V55);
    OneRound(55, V55, 0x682e6ff3, 0xb20f7a99, V56);
  }

  lemma Rounds56()
    ensures After(58, V58)
  {
    hide After, Scheduled;
    Words56();
    Rounds54();
    OneRound(56, V56, 0x748f82ee, 0xef57b9cd, V57);
    OneRound(57, V57, 0x78a5636f, 0xebe6b238, V58);
  }

  lemma Rounds58()
    ensures After(60, V60)
  {
    hide After, Scheduled;
    Words56();
    Rounds56();
    OneRound(58, V58, 0x84c87814, 0x9fe3095e, V59);
    OneRound(59, V59, 0x8cc70208, 0x78bc8d4b, V60);
  }

  lemma Rounds60()
    ensures After(62, V62)
  {
    hide After, Scheduled;
    Words56();
    Rounds58();
    OneRound(60, V60, 0x90befffa, 0xa43fcf15, V61);
    OneRound(61, V61, 0xa4506ceb, 0x668b2ff8, V62);
  }

  lemma Rounds62()
    ensures After(64, V64)
  {
    hide After, Scheduled;
    Words56();
    Rounds60();
    OneRound(62, V62, 0xbef9a3f7, 0xeeaba2cc, V63);
    OneRound(63, V63, 0xc67178f2, 0x12b1edeb, V64);
  }

  lemma StartIs()
    ensures After(0, V0)
  {
    InitialIs();
    AbcPadded();
  }

  // ---- the digest -------------------------------------------------------------------------------------------

  const SUM := Vars(0xba7816bf, 0x8f01cfea, 0x414140de, 0x5dae2223, 0xb00361a3, 0x96177a9c, 0xb410ff61, 0xf20015ad)

  lemma AbcCompressed()
    ensures |BLOCK| == 64 && Compress(Initial(), BLOCK) == SUM
  {
    hide Rounds, Initial;
    Rounds62();
    InitialIs();
  }

  /** The bytes of a word with known value. */
  lemma BytesOf(w: word, b0: byte, b1: byte, b2: byte, b3: byte)
    requires w as nat == (b0 as nat) * 0x100_0000 + (b1 as nat) * 0x1_0000 + (b2 as nat) * 0x100 + b3 as nat
    ensures WordBytes(w) == [b0, b1, b2, b3]
  {
    var n := w as nat;
    BytesUnique(n, b0, b1, b2, b3);
  }

  lemma BytesUnique(n: nat, b0: byte, b1: byte, b2: byte, b3: byte)
    requires n == (b0 as nat) * 0x100_0000 + (b1 as nat) * 0x1_0000 + (b2 as nat) * 0x100 + b3 as nat
    ensures Bytes(n, 4) == [b0, b1, b2, b3]
  {
    var n1 := n / 256;
    assert n1 == (b0 as nat) * 0x1_0000 + (b1 as nat) * 0x100 + b2 as nat && n % 256 == b3;
    var n2 := n1 / 256;
    assert n2 == (b0 as nat) * 0x100 + b1 as nat && n1 % 256 == b2;
    assert n2 / 256 == b0 && n2 % 256 == b1;
    assert Bytes(n, 4) == Bytes(n1, 3) + [n % 256] && Bytes(n1, 3) == Bytes(n2, 2) + [n1 % 256];
    assert Bytes(n2, 2) == Bytes(b0, 1) + [b1] && Bytes(b0, 1) == [b0];
  }

  /** The published digest. */
  lemma AbcDigest()
    ensures Digest(ABC) == VarsBytes(SUM)
    ensures VarsBytes(SUM) == [
      0xba, 0x78, 0x16, 0xbf, 0x8f, 0x01, 0xcf, 0xea,
      0x41, 0x41, 0x40, 0xde, 0x5d, 0xae, 0x22, 0x23,
      0xb0, 0x03, 0x61, 0xa3, 0x96, 0x17, 0x7a, 0x9c,
      0xb4, 0x10, 0xff, 0x61, 0xf2, 0x00, 0x15, 0xad
    ]
  {
    AbcPadded();
    AbcCompressed();
    hide BLOCK, Pad, Compress, WordBytes, Initial;
    assert BLOCK[0..64] == BLOCK;
    assert HashPrefix(BLOCK, 1) == Compress(HashPrefix(BLOCK, 0), BLOCK[0..64]);
    BytesOf(0xba7816bf, 0xba, 0x78, 0x16, 0xbf);
    BytesOf(0x8f01cfea, 0x8f, 0x01, 0xcf, 0xea);
    BytesOf(0x414140de, 0x41, 0x41, 0x40, 0xde);
    BytesOf(0x5dae2223, 0x5d, 0xae, 0x22, 0x23);
    BytesOf(0xb00361a3, 0xb0, 0x03, 0x61, 0xa3);
    BytesOf(0x96177a9c, 0x96, 0x17, 0x7a, 0x9c);
    BytesOf(0xb410ff61, 0xb4, 0x10, 0xff, 0x61);
    BytesOf(0xf20015ad, 0xf2, 0x00, 0x15, 0xad);
  }
}
