/**
  The published answers: the digests of the standard's one-block and two-block
  examples, "abc" and the 56 letters, worked out round by round. A specification
  with one rotation, one round or one word wrong would not come to them.
 */
module Sha256Vectors {
  import opened Sha256Constants
  import opened Sha256Spec

  /** Eight words of a message schedule. */
  datatype Octet = Octet(w0: Word, w1: Word, w2: Word, w3: Word, w4: Word, w5: Word, w6: Word, w7: Word)

  /** Row r of a block's schedule. */
  predicate RowIs(block: seq<Byte>, r: nat, o: Octet)
    requires |block| == BLOCK
  {
    && Schedule(block, 8 * r) == o.w0 && Schedule(block, 8 * r + 1) == o.w1
    && Schedule(block, 8 * r + 2) == o.w2 && Schedule(block, 8 * r + 3) == o.w3
    && Schedule(block, 8 * r + 4) == o.w4 && Schedule(block, 8 * r + 5) == o.w5
    && Schedule(block, 8 * r + 6) == o.w6 && Schedule(block, 8 * r + 7) == o.w7
  }

  /** Row c follows from the two before it. */
  predicate Follows(a: Octet, b: Octet, c: Octet) {
    && c.w0 == Expand(b.w6, b.w1, a.w1, a.w0) && c.w1 == Expand(b.w7, b.w2, a.w2, a.w1)
    && c.w2 == Expand(c.w0, b.w3, a.w3, a.w2) && c.w3 == Expand(c.w1, b.w4, a.w4, a.w3)
    && c.w4 == Expand(c.w2, b.w5, a.w5, a.w4) && c.w5 == Expand(c.w3, b.w6, a.w6, a.w5)
    && c.w6 == Expand(c.w4, b.w7, a.w7, a.w6) && c.w7 == Expand(c.w5, c.w0, b.w0, a.w7)
  }

  lemma {:induction false} NextRow(block: seq<Byte>, r: nat, a: Octet, b: Octet, c: Octet)
    requires |block| == BLOCK && RowIs(block, r, a) && RowIs(block, r + 1, b) && Follows(a, b, c)
    ensures RowIs(block, r + 2, c)
  {
    hide Expand;
    var t := 8 * r + 16;
    Expanded(block, t);
    Expanded(block, t + 1);
    Expanded(block, t + 2);
    Expanded(block, t + 3);
    Expanded(block, t + 4);
    Expanded(block, t + 5);
    Expanded(block, t + 6);
    Expanded(block, t + 7);
  }

  lemma {:induction false} Expanded(block: seq<Byte>, t: nat)
    requires |block| == BLOCK && t >= 16
    ensures Schedule(block, t) == Expand(Schedule(block, t - 2), Schedule(block, t - 7),
                                         Schedule(block, t - 15), Schedule(block, t - 16))
  {
    hide Expand;
  }

  /** Rounds 8 r to 8 r + 7. */
  function Eight(v: Vars, r: nat, o: Octet): Vars
    requires r < 8
  {
    var v1 := Round(v, RoundConstant(8 * r), o.w0);
    var v2 := Round(v1, RoundConstant(8 * r + 1), o.w1);
    var v3 := Round(v2, RoundConstant(8 * r + 2), o.w2);
    var v4 := Round(v3, RoundConstant(8 * r + 3), o.w3);
    var v5 := Round(v4, RoundConstant(8 * r + 4), o.w4);
    var v6 := Round(v5, RoundConstant(8 * r + 5), o.w5);
    var v7 := Round(v6, RoundConstant(8 * r + 6), o.w6);
    Round(v7, RoundConstant(8 * r + 7), o.w7)
  }

  lemma {:induction false} NextEight(s: Vars, block: seq<Byte>, r: nat, o: Octet)
    requires |block| == BLOCK && r < 8 && RowIs(block, r, o)
    ensures Rounds(s, block, 8 * r + 8) == Eight(Rounds(s, block, 8 * r), r, o)
  {
    hide Rounds, Round, RoundConstant, Schedule;
    var t := 8 * r;
    NextRound(s, block, t);
    NextRound(s, block, t + 1);
    NextRound(s, block, t + 2);
    NextRound(s, block, t + 3);
    NextRound(s, block, t + 4);
    NextRound(s, block, t + 5);
    NextRound(s, block, t + 6);
    NextRound(s, block, t + 7);
  }

  lemma {:induction false} NextRound(s: Vars, block: seq<Byte>, t: nat)
    requires |block| == BLOCK && t < 64
    ensures Rounds(s, block, t + 1) == Round(Rounds(s, block, t), RoundConstant(t), Schedule(block, t))
  {
    hide Round, RoundConstant, Schedule;
  }

  lemma {:induction false} NoRounds(s: Vars, block: seq<Byte>)
    requires |block| == BLOCK
    ensures Rounds(s, block, 0) == s
  {
  }

  /** A round turns v into a, e and what was there. */
  lemma {:induction false} To(v: Vars, k: Word, w: Word, a: Word, e: Word) returns (n: Vars)
    requires a == Add(T1(v.e, v.f, v.g, v.h, k, w), T2(v.a, v.b, v.c))
    requires e == Add(v.d, T1(v.e, v.f, v.g, v.h, k, w))
    ensures n == Vars(a, v.a, v.b, v.c, e, v.e, v.f, v.g) == Round(v, k, w)
  {
    hide T1, T2, Add;
    n := Vars(a, v.a, v.b, v.c, e, v.e, v.f, v.g);
  }

  // ---- the round constants, as literals -----------------------------------------------

  lemma {:induction false} Constants0()
    ensures RoundConstant(0) == 0x428a2f98 && RoundConstant(1) == 0x71374491
    ensures RoundConstant(2) == 0xb5c0fbcf && RoundConstant(3) == 0xe9b5dba5
    ensures RoundConstant(4) == 0x3956c25b && RoundConstant(5) == 0x59f111f1
    ensures RoundConstant(6) == 0x923f82a4 && RoundConstant(7) == 0xab1c5ed5
  {
  }

  lemma {:induction false} Constants1()
    ensures RoundConstant(8) == 0xd807aa98 && RoundConstant(9) == 0x12835b01
    ensures RoundConstant(10) == 0x243185be && RoundConstant(11) == 0x550c7dc3
    ensures RoundConstant(12) == 0x72be5d74 && RoundConstant(13) == 0x80deb1fe
    ensures RoundConstant(14) == 0x9bdc06a7 && RoundConstant(15) == 0xc19bf174
  {
  }

  lemma {:induction false} Constants2()
    ensures RoundConstant(16) == 0xe49b69c1 && RoundConstant(17) == 0xefbe4786
    ensures RoundConstant(18) == 0x0fc19dc6 && RoundConstant(19) == 0x240ca1cc
    ensures RoundConstant(20) == 0x2de92c6f && RoundConstant(21) == 0x4a7484aa
    ensures RoundConstant(22) == 0x5cb0a9dc && RoundConstant(23) == 0x76f988da
  {
  }

  lemma {:induction false} Constants3()
    ensures RoundConstant(24) == 0x983e5152 && RoundConstant(25) == 0xa831c66d
    ensures RoundConstant(26) == 0xb00327c8 && RoundConstant(27) == 0xbf597fc7
    ensures RoundConstant(28) == 0xc6e00bf3 && RoundConstant(29) == 0xd5a79147
    ensures RoundConstant(30) == 0x06ca6351 && RoundConstant(31) == 0x14292967
  {
  }

  lemma {:induction false} Constants4()
    ensures RoundConstant(32) == 0x27b70a85 && RoundConstant(33) == 0x2e1b2138
    ensures RoundConstant(34) == 0x4d2c6dfc && RoundConstant(35) == 0x53380d13
    ensures RoundConstant(36) == 0x650a7354 && RoundConstant(37) == 0x766a0abb
    ensures RoundConstant(38) == 0x81c2c92e && RoundConstant(39) == 0x92722c85
  {
  }

  lemma {:induction false} Constants5()
    ensures RoundConstant(40) == 0xa2bfe8a1 && RoundConstant(41) == 0xa81a664b
    ensures RoundConstant(42) == 0xc24b8b70 && RoundConstant(43) == 0xc76c51a3
    ensures RoundConstant(44) == 0xd192e819 && RoundConstant(45) == 0xd6990624
    ensures RoundConstant(46) == 0xf40e3585 && RoundConstant(47) == 0x106aa070
  {
  }

  lemma {:induction false} Constants6()
    ensures RoundConstant(48) == 0x19a4c116 && RoundConstant(49) == 0x1e376c08
    ensures RoundConstant(50) == 0x2748774c && RoundConstant(51) == 0x34b0bcb5
    ensures RoundConstant(52) == 0x391c0cb3 && RoundConstant(53) == 0x4ed8aa4a
    ensures RoundConstant(54) == 0x5b9cca4f && RoundConstant(55) == 0x682e6ff3
  {
  }

  lemma {:induction false} Constants7()
    ensures RoundConstant(56) == 0x748f82ee && RoundConstant(57) == 0x78a5636f
    ensures RoundConstant(58) == 0x84c87814 && RoundConstant(59) == 0x8cc70208
    ensures RoundConstant(60) == 0x90befffa && RoundConstant(61) == 0xa4506ceb
    ensures RoundConstant(62) == 0xbef9a3f7 && RoundConstant(63) == 0xc67178f2
  {
  }

  // ---- "abc" -----------------------------------------------------------------------------

  const ABC_0: Vars := Vars(0x6a09e667, 0xbb67ae85, 0x3c6ef372, 0xa54ff53a,
                           0x510e527f, 0x9b05688c, 0x1f83d9ab, 0x5be0cd19)
  const ABC_1: Vars := Vars(0x85a07b5f, 0xe5030380, 0x2b4209f5, 0x04409a6a,
                           0x0c657a79, 0x9b27a401, 0x714260ad, 0x43ada245)
  const ABC_2: Vars := Vars(0xb0fa238e, 0xc0645fde, 0xd932eb16, 0x87912990,
                           0x07590dcd, 0x0b92f20c, 0x745a48de, 0x1e578218)
  const ABC_3: Vars := Vars(0xc5d53d8d, 0xa7a3623f, 0xc2606d6d, 0x9dc68b63,
                           0xaa47c347, 0x49f5114a, 0xe1257970, 0x8ada8930)
  const ABC_4: Vars := Vars(0x73b33bf5, 0xea992a22, 0xa0060b30, 0x363482c9,
                           0xba591112, 0x0109ab3a, 0xade79437, 0x6112a3b7)
  const ABC_5: Vars := Vars(0x79ea687a, 0x6dc57a8a, 0x34df1604, 0x41a65cb1,
                           0x1efbc0a0, 0xf0781bc8, 0xa507a53d, 0x0772a26b)
  const ABC_6: Vars := Vars(0x4172328d, 0xa14c14b0, 0x72ab4b91, 0x26628815,
                           0xfecf0bc6, 0xd57b94a9, 0xb7755da1, 0xa80f11f0)
  const ABC_7: Vars := Vars(0x38cc9913, 0x3ec45cdb, 0xf5702fdb, 0x101fd28f,
                           0x54cb266b, 0xe50e1b4f, 0x9f4787c3, 0x529e7d00)
  const ABC_8: Vars := Vars(0x506e3058, 0xd39a2165, 0x04d24d6c, 0xb85e2ce9,
                           0x5ef50f24, 0xfb121210, 0x948d25b6, 0x961f4894)

  const ABC_ROW_0 := Octet(0x61626380, 0x00000000, 0x00000000, 0x00000000,
                             0x00000000, 0x00000000, 0x00000000, 0x00000000)
  const ABC_ROW_1 := Octet(0x00000000, 0x00000000, 0x00000000, 0x00000000,
                             0x00000000, 0x00000000, 0x00000000, 0x00000018)
  const ABC_ROW_2 := Octet(0x61626380, 0x000f0000, 0x7da86405, 0x600003c6,
                             0x3e9d7b78, 0x0183fc00, 0x12dcbfdb, 0xe2e2c38e)
  const ABC_ROW_3 := Octet(0xc8215c1a, 0xb73679a2, 0xe5bc3909, 0x32663c5b,
                             0x9d209d67, 0xec8726cb, 0x702138a4, 0xd3b7973b)
  const ABC_ROW_4 := Octet(0x93f5997f, 0x3b68ba73, 0xaff4ffc1, 0xf10a5c62,
                             0x0a8b3996, 0x72af830a, 0x9409e33e, 0x24641522)
  const ABC_ROW_5 := Octet(0x9f47bf94, 0xf0a64f5a, 0x3e246a79, 0x27333ba3,
                             0x0c4763f2, 0x840abf27, 0x7a290d5d, 0x065c43da)
  const ABC_ROW_6 := Octet(0xfb3e89cb, 0xcc7617db, 0xb9e66c34, 0xa9993667,
                             0x84badedd, 0xc21462bc, 0x1487472c, 0xb20f7a99)
  const ABC_ROW_7 := Octet(0xef57b9cd, 0xebe6b238, 0x9fe3095e, 0x78bc8d4b,
                             0xa43fcf15, 0x668b2ff8, 0xeeaba2cc, 0x12b1edeb)

  lemma {:induction false} AbcEight0()
    ensures Eight(ABC_0, 0, ABC_ROW_0) == ABC_1
  {
    hide RoundConstant;
    Constants0();
    var v0 := ABC_0;
    var v1 := To(v0, 0x428a2f98, 0x61626380, 0x5d6aebcd, 0xfa2a4622);
    var v2 := To(v1, 0x71374491, 0x00000000, 0x5a6ad9ad, 0x78ce7989);
    var v3 := To(v2, 0xb5c0fbcf, 0x00000000, 0xc8c347a7, 0xf92939eb);
    var v4 := To(v3, 0xe9b5dba5, 0x00000000, 0xd550f666, 0x24e00850);
    var v5 := To(v4, 0x3956c25b, 0x00000000, 0x04409a6a, 0x43ada245);
    var v6 := To(v5, 0x59f111f1, 0x00000000, 0x2b4209f5, 0x714260ad);
    var v7 := To(v6, 0x923f82a4, 0x00000000, 0xe5030380, 0x9b27a401);
    var v8 := To(v7, 0xab1c5ed5, 0x00000000, 0x85a07b5f, 0x0c657a79);
  }

  lemma {:induction false} AbcEight1()
    ensures Eight(ABC_1, 1, ABC_ROW_1) == ABC_2
  {
    hide RoundConstant;
    Constants1();
    var v0 := ABC_1;
    var v1 := To(v0, 0xd807aa98, 0x00000000, 0x8e04ecb9, 0x32ca2d8c);
    var v2 := To(v1, 0x12835b01, 0x00000000, 0x8c87346b, 0x1cc92596);
    var v3 := To(v2, 0x243185be, 0x00000000, 0x4798a3f4, 0x436b23e8);
    var v4 := To(v3, 0x550c7dc3, 0x00000000, 0xf71fc5a9, 0x816fd6e9);
    var v5 := To(v4, 0x72be5d74, 0x00000000, 0x87912990, 0x1e578218);
    var v6 := To(v5, 0x80deb1fe, 0x00000000, 0xd932eb16, 0x745a48de);
    var v7 := To(v6, 0x9bdc06a7, 0x00000000, 0xc0645fde, 0x0b92f20c);
    var v8 := To(v7, 0xc19bf174, 0x00000018, 0xb0fa238e, 0x07590dcd);
  }

  lemma {:induction false} AbcEight2()
    ensures Eight(ABC_2, 2, ABC_ROW_2) == ABC_3
  {
    hide RoundConstant;
    Constants2();
    var v0 := ABC_2;
    var v1 := To(v0, 0xe49b69c1, 0x61626380, 0x21da9a9b, 0x8034229c);
    var v2 := To(v1, 0xefbe4786, 0x000f0000, 0xc2fbd9d1, 0x846ee454);
    var v3 := To(v2, 0x0fc19dc6, 0x7da86405, 0xfe777bbf, 0xcc899961);
    var v4 := To(v3, 0x240ca1cc, 0x600003c6, 0xe1f20c33, 0xb0638179);
    var v5 := To(v4, 0x2de92c6f, 0x3e9d7b78, 0x9dc68b63, 0x8ada8930);
    var v6 := To(v5, 0x4a7484aa, 0x0183fc00, 0xc2606d6d, 0xe1257970);
    var v7 := To(v6, 0x5cb0a9dc, 0x12dcbfdb, 0xa7a3623f, 0x49f5114a);
    var v8 := To(v7, 0x76f988da, 0xe2e2c38e, 0xc5d53d8d, 0xaa47c347);
  }

  lemma {:induction false} AbcEight3()
    ensures Eight(ABC_3, 3, ABC_ROW_3) == ABC_4
  {
    hide RoundConstant;
    Constants3();
    var v0 := ABC_3;
    var v1 := To(v0, 0x983e5152, 0xc8215c1a, 0x1c2c2838, 0x2823ef91);
    var v2 := To(v1, 0xa831c66d, 0xb73679a2, 0xcde8037d, 0x14383d8e);
    var v3 := To(v2, 0xb00327c8, 0xe5bc3909, 0xb62ec4bc, 0xc74c6516);
    var v4 := To(v3, 0xbf597fc7, 0x32663c5b, 0x77d37528, 0xedffbff8);
    var v5 := To(v4, 0xc6e00bf3, 0x9d209d67, 0x363482c9, 0x6112a3b7);
    var v6 := To(v5, 0xd5a79147, 0xec8726cb, 0xa0060b30, 0xade79437);
    var v7 := To(v6, 0x06ca6351, 0x702138a4, 0xea992a22, 0x0109ab3a);
    var v8 := To(v7, 0x14292967, 0xd3b7973b, 0x73b33bf5, 0xba591112);
  }

  lemma {:induction false} AbcEight4()
    ensures Eight(ABC_4, 4, ABC_ROW_4) == ABC_5
  {
    hide RoundConstant;
    Constants4();
    var v0 := ABC_4;
    var v1 := To(v0, 0x27b70a85, 0x93f5997f, 0x98e12507, 0x9cd9f5f6);
    var v2 := To(v1, 0x2e1b2138, 0x3b68ba73, 0xfe604df5, 0x59249dd3);
    var v3 := To(v2, 0x4d2c6dfc, 0xaff4ffc1, 0xa9a7738c, 0x085f3833);
    var v4 := To(v3, 0x53380d13, 0xf10a5c62, 0x65a0cfe4, 0xf4b002d6);
    var v5 := To(v4, 0x650a7354, 0x0a8b3996, 0x41a65cb1, 0x0772a26b);
    var v6 := To(v5, 0x766a0abb, 0x72af830a, 0x34df1604, 0xa507a53d);
    var v7 := To(v6, 0x81c2c92e, 0x9409e33e, 0x6dc57a8a, 0xf0781bc8);
    var v8 := To(v7, 0x92722c85, 0x24641522, 0x79ea687a, 0x1efbc0a0);
  }

  lemma {:induction false} AbcEight5()
    ensures Eight(ABC_5, 5, ABC_ROW_5) == ABC_6
  {
    hide RoundConstant;
    Constants5();
    var v0 := ABC_5;
    var v1 := To(v0, 0xa2bfe8a1, 0x9f47bf94, 0xd6670766, 0x26352d63);
    var v2 := To(v1, 0xa81a664b, 0xf0a64f5a, 0xdf46652f, 0x838b2711);
    var v3 := To(v2, 0xc24b8b70, 0x3e246a79, 0x17aa0dfe, 0xdecd4715);
    var v4 := To(v3, 0xc76c51a3, 0x27333ba3, 0x9d4baf93, 0xfda24c2e);
    var v5 := To(v4, 0xd192e819, 0x0c4763f2, 0x26628815, 0xa80f11f0);
    var v6 := To(v5, 0xd6990624, 0x840abf27, 0x72ab4b91, 0xb7755da1);
    var v7 := To(v6, 0xf40e3585, 0x7a290d5d, 0xa14c14b0, 0xd57b94a9);
    var v8 := To(v7, 0x106aa070, 0x065c43da, 0x4172328d, 0xfecf0bc6);
  }

  lemma {:induction false} AbcEight6()
    ensures Eight(ABC_6, 6, ABC_ROW_6) == ABC_7
  {
    hide RoundConstant;
    Constants6();
    var v0 := ABC_6;
    var v1 := To(v0, 0x19a4c116, 0xfb3e89cb, 0x05757ceb, 0xbd714038);
    var v2 := To(v1, 0x1e376c08, 0xcc7617db, 0xf11bfaa8, 0x6e5c390c);
    var v3 := To(v2, 0x2748774c, 0xb9e66c34, 0x7a0508a1, 0x52f1ccf7);
    var v4 := To(v3, 0x34b0bcb5, 0xa9993667, 0x886e7a22, 0x49231c1e);
    var v5 := To(v4, 0x391c0cb3, 0x84badedd, 0x101fd28f, 0x529e7d00);
    var v6 := To(v5, 0x4ed8aa4a, 0xc21462bc, 0xf5702fdb, 0x9f4787c3);
    var v7 := To(v6, 0x5b9cca4f, 0x1487472c, 0x3ec45cdb, 0xe50e1b4f);
    var v8 := To(v7, 0x682e6ff3, 0xb20f7a99, 0x38cc9913, 0x54cb266b);
  }

  lemma {:induction false} AbcEight7()
    ensures Eight(ABC_7, 7, ABC_ROW_7) == ABC_8
  {
    hide RoundConstant;
    Constants7();
    var v0 := ABC_7;
    var v1 := To(v0, 0x748f82ee, 0xef57b9cd, 0xfcd1887b, 0x9b5e906c);
    var v2 := To(v1, 0x78a5636f, 0xebe6b238, 0xc062d46f, 0x7e44008e);
    var v3 := To(v2, 0x84c87814, 0x9fe3095e, 0xffb70472, 0x6d83bfc6);
    var v4 := To(v3, 0x8cc70208, 0x78bc8d4b, 0xb6ae8fff, 0xb21bad3d);
    var v5 := To(v4, 0x90befffa, 0xa43fcf15, 0xb85e2ce9, 0x961f4894);
    var v6 := To(v5, 0xa4506ceb, 0x668b2ff8, 0x04d24d6c, 0x948d25b6);
    var v7 := To(v6, 0xbef9a3f7, 0xeeaba2cc, 0xd39a2165, 0xfb121210);
    var v8 := To(v7, 0xc67178f2, 0x12b1edeb, 0x506e3058, 0x5ef50f24);
  }

  lemma {:induction false} AbcRow2()
    ensures Follows(ABC_ROW_0, ABC_ROW_1, ABC_ROW_2)
  {
    assert Expand(0x00000000, 0x00000000, 0x00000000, 0x61626380) == 0x61626380;
    assert Expand(0x00000018, 0x00000000, 0x00000000, 0x00000000) == 0x000f0000;
    assert Expand(0x61626380, 0x00000000, 0x00000000, 0x00000000) == 0x7da86405;
    assert Expand(0x000f0000, 0x00000000, 0x00000000, 0x00000000) == 0x600003c6;
    assert Expand(0x7da86405, 0x00000000, 0x00000000, 0x00000000) == 0x3e9d7b78;
    assert Expand(0x600003c6, 0x00000000, 0x00000000, 0x00000000) == 0x0183fc00;
    assert Expand(0x3e9d7b78, 0x00000018, 0x00000000, 0x00000000) == 0x12dcbfdb;
    assert Expand(0x0183fc00, 0x61626380, 0x00000000, 0x00000000) == 0xe2e2c38e;
  }

  lemma {:induction false} AbcRow3()
    ensures Follows(ABC_ROW_1, ABC_ROW_2, ABC_ROW_3)
  {
    assert Expand(0x12dcbfdb, 0x000f0000, 0x00000000, 0x00000000) == 0xc8215c1a;
    assert Expand(0xe2e2c38e, 0x7da86405, 0x00000000, 0x00000000) == 0xb73679a2;
    assert Expand(0xc8215c1a, 0x600003c6, 0x00000000, 0x00000000) == 0xe5bc3909;
    assert Expand(0xb73679a2, 0x3e9d7b78, 0x00000000, 0x00000000) == 0x32663c5b;
    assert Expand(0xe5bc3909, 0x0183fc00, 0x00000000, 0x00000000) == 0x9d209d67;
    assert Expand(0x32663c5b, 0x12dcbfdb, 0x00000000, 0x00000000) == 0xec8726cb;
    assert Expand(0x9d209d67, 0xe2e2c38e, 0x00000018, 0x00000000) == 0x702138a4;
    assert Expand(0xec8726cb, 0xc8215c1a, 0x61626380, 0x00000018) == 0xd3b7973b;
  }

  lemma {:induction false} AbcRow4()
    ensures Follows(ABC_ROW_2, ABC_ROW_3, ABC_ROW_4)
  {
    assert Expand(0x702138a4, 0xb73679a2, 0x000f0000, 0x61626380) == 0x93f5997f;
    assert Expand(0xd3b7973b, 0xe5bc3909, 0x7da86405, 0x000f0000) == 0x3b68ba73;
    assert Expand(0x93f5997f, 0x32663c5b, 0x600003c6, 0x7da86405) == 0xaff4ffc1;
    assert Expand(0x3b68ba73, 0x9d209d67, 0x3e9d7b78, 0x600003c6) == 0xf10a5c62;
    assert Expand(0xaff4ffc1, 0xec8726cb, 0x0183fc00, 0x3e9d7b78) == 0x0a8b3996;
    assert Expand(0xf10a5c62, 0x702138a4, 0x12dcbfdb, 0x0183fc00) == 0x72af830a;
    assert Expand(0x0a8b3996, 0xd3b7973b, 0xe2e2c38e, 0x12dcbfdb) == 0x9409e33e;
    assert Expand(0x72af830a, 0x93f5997f, 0xc8215c1a, 0xe2e2c38e) == 0x24641522;
  }

  lemma {:induction false} AbcRow5()
    ensures Follows(ABC_ROW_3, ABC_ROW_4, ABC_ROW_5)
  {
    assert Expand(0x9409e33e, 0x3b68ba73, 0xb73679a2, 0xc8215c1a) == 0x9f47bf94;
    assert Expand(0x24641522, 0xaff4ffc1, 0xe5bc3909, 0xb73679a2) == 0xf0a64f5a;
    assert Expand(0x9f47bf94, 0xf10a5c62, 0x32663c5b, 0xe5bc3909) == 0x3e246a79;
    assert Expand(0xf0a64f5a, 0x0a8b3996, 0x9d209d67, 0x32663c5b) == 0x27333ba3;
    assert Expand(0x3e246a79, 0x72af830a, 0xec8726cb, 0x9d209d67) == 0x0c4763f2;
    assert Expand(0x27333ba3, 0x9409e33e, 0x702138a4, 0xec8726cb) == 0x840abf27;
    assert Expand(0x0c4763f2, 0x24641522, 0xd3b7973b, 0x702138a4) == 0x7a290d5d;
    assert Expand(0x840abf27, 0x9f47bf94, 0x93f5997f, 0xd3b7973b) == 0x065c43da;
  }

  lemma {:induction false} AbcRow6()
    ensures Follows(ABC_ROW_4, ABC_ROW_5, ABC_ROW_6)
  {
    assert Expand(0x7a290d5d, 0xf0a64f5a, 0x3b68ba73, 0x93f5997f) == 0xfb3e89cb;
    assert Expand(0x065c43da, 0x3e246a79, 0xaff4ffc1, 0x3b68ba73) == 0xcc7617db;
    assert Expand(0xfb3e89cb, 0x27333ba3, 0xf10a5c62, 0xaff4ffc1) == 0xb9e66c34;
    assert Expand(0xcc7617db, 0x0c4763f2, 0x0a8b3996, 0xf10a5c62) == 0xa9993667;
    assert Expand(0xb9e66c34, 0x840abf27, 0x72af830a, 0x0a8b3996) == 0x84badedd;
    assert Expand(0xa9993667, 0x7a290d5d, 0x9409e33e, 0x72af830a) == 0xc21462bc;
    assert Expand(0x84badedd, 0x065c43da, 0x24641522, 0x9409e33e) == 0x1487472c;
    assert Expand(0xc21462bc, 0xfb3e89cb, 0x9f47bf94, 0x24641522) == 0xb20f7a99;
  }

  lemma {:induction false} AbcRow7()
    ensures Follows(ABC_ROW_5, ABC_ROW_6, ABC_ROW_7)
  {
    assert Expand(0x1487472c, 0xcc7617db, 0xf0a64f5a, 0x9f47bf94) == 0xef57b9cd;
    assert Expand(0xb20f7a99, 0xb9e66c34, 0x3e246a79, 0xf0a64f5a) == 0xebe6b238;
    assert Expand(0xef57b9cd, 0xa9993667, 0x27333ba3, 0x3e246a79) == 0x9fe3095e;
    assert Expand(0xebe6b238, 0x84badedd, 0x0c4763f2, 0x27333ba3) == 0x78bc8d4b;
    assert Expand(0x9fe3095e, 0xc21462bc, 0x840abf27, 0x0c4763f2) == 0xa43fcf15;
    assert Expand(0x78bc8d4b, 0x1487472c, 0x7a290d5d, 0x840abf27) == 0x668b2ff8;
    assert Expand(0xa43fcf15, 0xb20f7a99, 0x065c43da, 0x7a290d5d) == 0xeeaba2cc;
    assert Expand(0x668b2ff8, 0xef57b9cd, 0xfb3e89cb, 0x065c43da) == 0x12b1edeb;
  }

  lemma {:induction false} AbcRounds(block: seq<Byte>)
    requires |block| == BLOCK && RowIs(block, 0, ABC_ROW_0) && RowIs(block, 1, ABC_ROW_1)
    ensures Rounds(ABC_0, block, 64) == ABC_8
  {
    hide *;
    NoRounds(ABC_0, block);
    AbcEight0();
    NextEight(ABC_0, block, 0, ABC_ROW_0);
    AbcEight1();
    NextEight(ABC_0, block, 1, ABC_ROW_1);
    AbcRow2();
    NextRow(block, 0, ABC_ROW_0, ABC_ROW_1, ABC_ROW_2);
    AbcEight2();
    NextEight(ABC_0, block, 2, ABC_ROW_2);
    AbcRow3();
    NextRow(block, 1, ABC_ROW_1, ABC_ROW_2, ABC_ROW_3);
    AbcEight3();
    NextEight(ABC_0, block, 3, ABC_ROW_3);
    AbcRow4();
    NextRow(block, 2, ABC_ROW_2, ABC_ROW_3, ABC_ROW_4);
    AbcEight4();
    NextEight(ABC_0, block, 4, ABC_ROW_4);
    AbcRow5();
    NextRow(block, 3, ABC_ROW_3, ABC_ROW_4, ABC_ROW_5);
    AbcEight5();
    NextEight(ABC_0, block, 5, ABC_ROW_5);
    AbcRow6();
    NextRow(block, 4, ABC_ROW_4, ABC_ROW_5, ABC_ROW_6);
    AbcEight6();
    NextEight(ABC_0, block, 6, ABC_ROW_6);
    AbcRow7();
    NextRow(block, 5, ABC_ROW_5, ABC_ROW_6, ABC_ROW_7);
    AbcEight7();
    NextEight(ABC_0, block, 7, ABC_ROW_7);
  }

  // ---- the 56 letters, first block -------------------------------------------------------

  const ONE_0: Vars := Vars(0x6a09e667, 0xbb67ae85, 0x3c6ef372, 0xa54ff53a,
                           0x510e527f, 0x9b05688c, 0x1f83d9ab, 0x5be0cd19)
  const ONE_1: Vars := Vars(0xd237e6db, 0x485835b7, 0x55c8ef48, 0xf921c212,
                           0xa401d211, 0x39a5b2ca, 0x7ff91c94, 0x05c4f88a)
  const ONE_2: Vars := Vars(0xc3486194, 0xdd16cbb3, 0xd68e6457, 0x101a4861,
                           0x1496a54f, 0x9162aded, 0x9243f8af, 0x839a0fc9)
  const ONE_3: Vars := Vars(0x59fce6b9, 0xae2e2d4f, 0x1b2b66b8, 0xd70ac17d,
                           0xa2c7d51d, 0xf074fc95, 0xd560b028, 0x7cc6b262)
  const ONE_4: Vars := Vars(0x5581ab07, 0xeb43f3ed, 0xdf7151a0, 0x74bcf468,
                           0xdf980085, 0x0635d880, 0x7629c961, 0x72abaecd)
  const ONE_5: Vars := Vars(0x7e4d30b8, 0x91ac9d5d, 0xa985b4be, 0x2c55d3a6,
                           0x9f5b9b6d, 0x68d8d590, 0xf72bf353, 0xb067c1af)
  const ONE_6: Vars := Vars(0x13d82741, 0x165be9cd, 0x18f0d19d, 0xde71e2f2,
                           0xa7802a4d, 0xa483f080, 0x6b88472c, 0xff61c636)
  const ONE_7: Vars := Vars(0x9e57c4a0, 0xf907b313, 0x1d6de87a, 0xb8d55619,
                           0xeec13548, 0x61a41711, 0x3443bed4, 0x1c806a61)
  const ONE_8: Vars := Vars(0x1bdc6f6f, 0x86126910, 0xf6f443f8, 0xbcfce922,
                           0x25d2430a, 0x2fc08f85, 0xacc75916, 0x962d8621)

  const ONE_ROW_0 := Octet(0x61626364, 0x62636465, 0x63646566, 0x64656667,
                             0x65666768, 0x66676869, 0x6768696a, 0x68696a6b)
  const ONE_ROW_1 := Octet(0x696a6b6c, 0x6a6b6c6d, 0x6b6c6d6e, 0x6c6d6e6f,
                             0x6d6e6f70, 0x6e6f7071, 0x80000000, 0x00000000)
  const ONE_ROW_2 := Octet(0xeb8012ad, 0xa7c3ae92, 0x76e93ba2, 0xba42e743,
                             0x92a92204, 0xd847e75e, 0x9e160036, 0xb280a7cb)
  const ONE_ROW_3 := Octet(0xddeb1516, 0xf36586f4, 0x969cd048, 0xe959d99d,
                             0x6accc0ec, 0xf54cb098, 0x2af1b2da, 0xee59c4c9)
  const ONE_ROW_4 := Octet(0xa835e16a, 0x1dff4429, 0xd6e15959, 0xc397cd6e,
                             0x6f1801ca, 0x21574205, 0x35ff7a84, 0x9743ee78)
  const ONE_ROW_5 := Octet(0xe44183e7, 0x0d09f00d, 0x9c89af54, 0x042d5bef,
                             0x71f134d0, 0x0f94f463, 0x7e49dc63, 0x6f65c997)
  const ONE_ROW_6 := Octet(0x0b706583, 0x179312ca, 0x503054e9, 0xba125c39,
                             0x7e9392c9, 0xd5cbaa1e, 0x78e0585d, 0xf6e7611c)
  const ONE_ROW_7 := Octet(0x8ac830ce, 0x8b47a303, 0xfd6e627f, 0x8c6e2c6a,
                             0x4001adf1, 0x1a3dd097, 0xa9df6f62, 0x6aa60a39)

  lemma {:induction false} OneEight0()
    ensures Eight(ONE_0, 0, ONE_ROW_0) == ONE_1
  {
    hide RoundConstant;
    Constants0();
    var v0 := ONE_0;
    var v1 := To(v0, 0x428a2f98, 0x61626364, 0x5d6aebb1, 0xfa2a4606);
    var v2 := To(v1, 0x71374491, 0x62636465, 0x2f2d5fcf, 0x4eb1cfce);
    var v3 := To(v2, 0xb5c0fbcf, 0x63646566, 0x97651825, 0x62d5c49e);
    var v4 := To(v3, 0xe9b5dba5, 0x64656667, 0x4a8d64d5, 0x6494841b);
    var v5 := To(v4, 0x3956c25b, 0x65666768, 0xf921c212, 0x05c4f88a);
    var v6 := To(v5, 0x59f111f1, 0x66676869, 0x55c8ef48, 0x7ff91c94);
    var v7 := To(v6, 0x923f82a4, 0x6768696a, 0x485835b7, 0x39a5b2ca);
    var v8 := To(v7, 0xab1c5ed5, 0x68696a6b, 0xd237e6db, 0xa401d211);
  }

  lemma {:induction false} OneEight1()
    ensures Eight(ONE_1, 1, ONE_ROW_1) == ONE_2
  {
    hide RoundConstant;
    Constants1();
    var v0 := ONE_1;
    var v1 := To(v0, 0xd807aa98, 0x696a6b6c, 0x359f2bce, 0xc09ffec4);
    var v2 := To(v1, 0x12835b01, 0x6a6b6c6d, 0x3a474b2b, 0x9037b3b8);
    var v3 := To(v2, 0x243185be, 0x6b6c6d6e, 0xb8e2b4cb, 0x443ed29e);
    var v4 := To(v3, 0x550c7dc3, 0x6c6d6e6f, 0x1762215c, 0xee1c97a8);
    var v5 := To(v4, 0x72be5d74, 0x6d6e6f70, 0x101a4861, 0x839a0fc9);
    var v6 := To(v5, 0x80deb1fe, 0x6e6f7071, 0xd68e6457, 0x9243f8af);
    var v7 := To(v6, 0x9bdc06a7, 0x80000000, 0xdd16cbb3, 0x9162aded);
    var v8 := To(v7, 0xc19bf174, 0x00000000, 0xc3486194, 0x1496a54f);
  }

  lemma {:induction false} OneEight2()
    ensures Eight(ONE_2, 2, ONE_ROW_2) == ONE_3
  {
    hide RoundConstant;
    Constants2();
    var v0 := ONE_2;
    var v1 := To(v0, 0xe49b69c1, 0xeb8012ad, 0xb9dcacb1, 0xd4f64250);
    var v2 := To(v1, 0xefbe4786, 0xa7c3ae92, 0x046a193e, 0x885370b6);
    var v3 := To(v2, 0x0fc19dc6, 0x76e93ba2, 0xf402f058, 0x6f433549);
    var v4 := To(v3, 0x240ca1cc, 0xba42e743, 0x2139187b, 0x7c304206);
    var v5 := To(v4, 0x2de92c6f, 0x92a92204, 0xd70ac17d, 0x7cc6b262);
    var v6 := To(v5, 0x4a7484aa, 0xd847e75e, 0x1b2b66b8, 0xd560b028);
    var v7 := To(v6, 0x5cb0a9dc, 0x9e160036, 0xae2e2d4f, 0xf074fc95);
    var v8 := To(v7, 0x76f988da, 0xb280a7cb, 0x59fce6b9, 0xa2c7d51d);
  }

  lemma {:induction false} OneEight3()
    ensures Eight(ONE_3, 3, ONE_ROW_3) == ONE_4
  {
    hide RoundConstant;
    Constants3();
    var v0 := ONE_3;
    var v1 := To(v0, 0x983e5152, 0xddeb1516, 0x4a885065, 0x763597fb);
    var v2 := To(v1, 0xa831c66d, 0xf36586f4, 0x573221da, 0x36e74eb4);
    var v3 := To(v2, 0xb00327c8, 0x969cd048, 0x128661da, 0x1162d575);
    var v4 := To(v3, 0xbf597fc7, 0xe959d99d, 0x73f858af, 0xe77c797f);
    var v5 := To(v4, 0xc6e00bf3, 0x6accc0ec, 0x74bcf468, 0x72abaecd);
    var v6 := To(v5, 0xd5a79147, 0xf54cb098, 0xdf7151a0, 0x7629c961);
    var v7 := To(v6, 0x06ca6351, 0x2af1b2da, 0xeb43f3ed, 0x0635d880);
    var v8 := To(v7, 0x14292967, 0xee59c4c9, 0x5581ab07, 0xdf980085);
  }

  lemma {:induction false} OneEight4()
    ensures Eight(ONE_4, 4, ONE_ROW_4) == ONE_5
  {
    hide RoundConstant;
    Constants4();
    var v0 := ONE_4;
    var v1 := To(v0, 0x27b70a85, 0xa835e16a, 0x9fc905c8, 0xa94d2af1);
    var v2 := To(v1, 0x2e1b2138, 0x1dff4429, 0x9ce5a62f, 0x6ef3b6bd);
    var v3 := To(v2, 0x4d2c6dfc, 0xd6e15959, 0x1df8e885, 0x2a9e048e);
    var v4 := To(v3, 0x53380d13, 0xc397cd6e, 0x0786dce8, 0xde2a21d1);
    var v5 := To(v4, 0x650a7354, 0x6f1801ca, 0x2c55d3a6, 0xb067c1af);
    var v6 := To(v5, 0x766a0abb, 0x21574205, 0xa985b4be, 0xf72bf353);
    var v7 := To(v6, 0x81c2c92e, 0x35ff7a84, 0x91ac9d5d, 0x68d8d590);
    var v8 := To(v7, 0x92722c85, 0x9743ee78, 0x7e4d30b8, 0x9f5b9b6d);
  }

  lemma {:induction false} OneEight5()
    ensures Eight(ONE_5, 5, ONE_ROW_5) == ONE_6
  {
    hide RoundConstant;
    Constants5();
    var v0 := ONE_5;
    var v1 := To(v0, 0xa2bfe8a1, 0xe44183e7, 0x7e056794, 0x423b26c0);
    var v2 := To(v1, 0xa81a664b, 0x0d09f00d, 0x508a16ab, 0x45459d97);
    var v3 := To(v2, 0xc24b8b70, 0x9c89af54, 0xb62c7013, 0x80a92a00);
    var v4 := To(v3, 0xc76c51a3, 0x042d5bef, 0x167361de, 0x41dd3844);
    var v5 := To(v4, 0xd192e819, 0x71f134d0, 0xde71e2f2, 0xff61c636);
    var v6 := To(v5, 0xd6990624, 0x0f94f463, 0x18f0d19d, 0x6b88472c);
    var v7 := To(v6, 0xf40e3585, 0x7e49dc63, 0x165be9cd, 0xa483f080);
    var v8 := To(v7, 0x106aa070, 0x6f65c997, 0x13d82741, 0xa7802a4d);
  }

  lemma {:induction false} OneEight6()
    ensures Eight(ONE_6, 6, ONE_ROW_6) == ONE_7
  {
    hide RoundConstant;
    Constants6();
    var v0 := ONE_6;
    var v1 := To(v0, 0x19a4c116, 0x0b706583, 0x017b9d99, 0xaeb10b60);
    var v2 := To(v1, 0x1e376c08, 0x179312ca, 0x543c99a1, 0x16f134b6);
    var v3 := To(v2, 0x2748774c, 0x503054e9, 0x758ca97a, 0x100cf2ea);
    var v4 := To(v3, 0x34b0bcb5, 0xba125c39, 0x81c1cde0, 0x5c47eb7b);
    var v5 := To(v4, 0x391c0cb3, 0x7e9392c9, 0xb8d55619, 0x1c806a61);
    var v6 := To(v5, 0x4ed8aa4a, 0xd5cbaa1e, 0x1d6de87a, 0x3443bed4);
    var v7 := To(v6, 0x5b9cca4f, 0x78e0585d, 0xf907b313, 0x61a41711);
    var v8 := To(v7, 0x682e6ff3, 0xf6e7611c, 0x9e57c4a0, 0xeec13548);
  }

  lemma {:induction false} OneEight7()
    ensures Eight(ONE_7, 7, ONE_ROW_7) == ONE_8
  {
    hide RoundConstant;
    Constants7();
    var v0 := ONE_7;
    var v1 := To(v0, 0x748f82ee, 0x8ac830ce, 0x71629856, 0x2f6c8c4e);
    var v2 := To(v1, 0x78a5636f, 0x8b47a303, 0x7c015a2c, 0xcb9d3dd0);
    var v3 := To(v2, 0x84c87814, 0xfd6e627f, 0x921fccb6, 0x43d8a034);
    var v4 := To(v3, 0x8cc70208, 0x8c6e2c6a, 0xe18f259a, 0x51e15869);
    var v5 := To(v4, 0x90befffa, 0x4001adf1, 0xbcfce922, 0x962d8621);
    var v6 := To(v5, 0xa4506ceb, 0x1a3dd097, 0xf6f443f8, 0xacc75916);
    var v7 := To(v6, 0xbef9a3f7, 0xa9df6f62, 0x86126910, 0x2fc08f85);
    var v8 := To(v7, 0xc67178f2, 0x6aa60a39, 0x1bdc6f6f, 0x25d2430a);
  }

  lemma {:induction false} OneRow2()
    ensures Follows(ONE_ROW_0, ONE_ROW_1, ONE_ROW_2)
  {
    assert Expand(0x80000000, 0x6a6b6c6d, 0x62636465, 0x61626364) == 0xeb8012ad;
    assert Expand(0x00000000, 0x6b6c6d6e, 0x63646566, 0x62636465) == 0xa7c3ae92;
    assert Expand(0xeb8012ad, 0x6c6d6e6f, 0x64656667, 0x63646566) == 0x76e93ba2;
    assert Expand(0xa7c3ae92, 0x6d6e6f70, 0x65666768, 0x64656667) == 0xba42e743;
    assert Expand(0x76e93ba2, 0x6e6f7071, 0x66676869, 0x65666768) == 0x92a92204;
    assert Expand(0xba42e743, 0x80000000, 0x6768696a, 0x66676869) == 0xd847e75e;
    assert Expand(0x92a92204, 0x00000000, 0x68696a6b, 0x6768696a) == 0x9e160036;
    assert Expand(0xd847e75e, 0xeb8012ad, 0x696a6b6c, 0x68696a6b) == 0xb280a7cb;
  }

  lemma {:induction false} OneRow3()
    ensures Follows(ONE_ROW_1, ONE_ROW_2, ONE_ROW_3)
  {
    assert Expand(0x9e160036, 0xa7c3ae92, 0x6a6b6c6d, 0x696a6b6c) == 0xddeb1516;
    assert Expand(0xb280a7cb, 0x76e93ba2, 0x6b6c6d6e, 0x6a6b6c6d) == 0xf36586f4;
    assert Expand(0xddeb1516, 0xba42e743, 0x6c6d6e6f, 0x6b6c6d6e) == 0x969cd048;
    assert Expand(0xf36586f4, 0x92a92204, 0x6d6e6f70, 0x6c6d6e6f) == 0xe959d99d;
    assert Expand(0x969cd048, 0xd847e75e, 0x6e6f7071, 0x6d6e6f70) == 0x6accc0ec;
    assert Expand(0xe959d99d, 0x9e160036, 0x80000000, 0x6e6f7071) == 0xf54cb098;
    assert Expand(0x6accc0ec, 0xb280a7cb, 0x00000000, 0x80000000) == 0x2af1b2da;
    assert Expand(0xf54cb098, 0xddeb1516, 0xeb8012ad, 0x00000000) == 0xee59c4c9;
  }

  lemma {:induction false} OneRow4()
    ensures Follows(ONE_ROW_2, ONE_ROW_3, ONE_ROW_4)
  {
    assert Expand(0x2af1b2da, 0xf36586f4, 0xa7c3ae92, 0xeb8012ad) == 0xa835e16a;
    assert Expand(0xee59c4c9, 0x969cd048, 0x76e93ba2, 0xa7c3ae92) == 0x1dff4429;
    assert Expand(0xa835e16a, 0xe959d99d, 0xba42e743, 0x76e93ba2) == 0xd6e15959;
    assert Expand(0x1dff4429, 0x6accc0ec, 0x92a92204, 0xba42e743) == 0xc397cd6e;
    assert Expand(0xd6e15959, 0xf54cb098, 0xd847e75e, 0x92a92204) == 0x6f1801ca;
    assert Expand(0xc397cd6e, 0x2af1b2da, 0x9e160036, 0xd847e75e) == 0x21574205;
    assert Expand(0x6f1801ca, 0xee59c4c9, 0xb280a7cb, 0x9e160036) == 0x35ff7a84;
    assert Expand(0x21574205, 0xa835e16a, 0xddeb1516, 0xb280a7cb) == 0x9743ee78;
  }

  lemma {:induction false} OneRow5()
    ensures Follows(ONE_ROW_3, ONE_ROW_4, ONE_ROW_5)
  {
    assert Expand(0x35ff7a84, 0x1dff4429, 0xf36586f4, 0xddeb1516) == 0xe44183e7;
    assert Expand(0x9743ee78, 0xd6e15959, 0x969cd048, 0xf36586f4) == 0x0d09f00d;
    assert Expand(0xe44183e7, 0xc397cd6e, 0xe959d99d, 0x969cd048) == 0x9c89af54;
    assert Expand(0x0d09f00d, 0x6f1801ca, 0x6accc0ec, 0xe959d99d) == 0x042d5bef;
    assert Expand(0x9c89af54, 0x21574205, 0xf54cb098, 0x6accc0ec) == 0x71f134d0;
    assert Expand(0x042d5bef, 0x35ff7a84, 0x2af1b2da, 0xf54cb098) == 0x0f94f463;
    assert Expand(0x71f134d0, 0x9743ee78, 0xee59c4c9, 0x2af1b2da) == 0x7e49dc63;
    assert Expand(0x0f94f463, 0xe44183e7, 0xa835e16a, 0xee59c4c9) == 0x6f65c997;
  }

  lemma {:induction false} OneRow6()
    ensures Follows(ONE_ROW_4, ONE_ROW_5, ONE_ROW_6)
  {
    assert Expand(0x7e49dc63, 0x0d09f00d, 0x1dff4429, 0xa835e16a) == 0x0b706583;
    assert Expand(0x6f65c997, 0x9c89af54, 0xd6e15959, 0x1dff4429) == 0x179312ca;
    assert Expand(0x0b706583, 0x042d5bef, 0xc397cd6e, 0xd6e15959) == 0x503054e9;
    assert Expand(0x179312ca, 0x71f134d0, 0x6f1801ca, 0xc397cd6e) == 0xba125c39;
    assert Expand(0x503054e9, 0x0f94f463, 0x21574205, 0x6f1801ca) == 0x7e9392c9;
    assert Expand(0xba125c39, 0x7e49dc63, 0x35ff7a84, 0x21574205) == 0xd5cbaa1e;
    assert Expand(0x7e9392c9, 0x6f65c997, 0x9743ee78, 0x35ff7a84) == 0x78e0585d;
    assert Expand(0xd5cbaa1e, 0x0b706583, 0xe44183e7, 0x9743ee78) == 0xf6e7611c;
  }

  lemma {:induction false} OneRow7()
    ensures Follows(ONE_ROW_5, ONE_ROW_6, ONE_ROW_7)
  {
    assert Expand(0x78e0585d, 0x179312ca, 0x0d09f00d, 0xe44183e7) == 0x8ac830ce;
    assert Expand(0xf6e7611c, 0x503054e9, 0x9c89af54, 0x0d09f00d) == 0x8b47a303;
    assert Expand(0x8ac830ce, 0xba125c39, 0x042d5bef, 0x9c89af54) == 0xfd6e627f;
    assert Expand(0x8b47a303, 0x7e9392c9, 0x71f134d0, 0x042d5bef) == 0x8c6e2c6a;
    assert Expand(0xfd6e627f, 0xd5cbaa1e, 0x0f94f463, 0x71f134d0) == 0x4001adf1;
    assert Expand(0x8c6e2c6a, 0x78e0585d, 0x7e49dc63, 0x0f94f463) == 0x1a3dd097;
    assert Expand(0x4001adf1, 0xf6e7611c, 0x6f65c997, 0x7e49dc63) == 0xa9df6f62;
    assert Expand(0x1a3dd097, 0x8ac830ce, 0x0b706583, 0x6f65c997) == 0x6aa60a39;
  }

  lemma {:induction false} OneRounds(block: seq<Byte>)
    requires |block| == BLOCK && RowIs(block, 0, ONE_ROW_0) && RowIs(block, 1, ONE_ROW_1)
    ensures Rounds(ONE_0, block, 64) == ONE_8
  {
    hide *;
    NoRounds(ONE_0, block);
    OneEight0();
    NextEight(ONE_0, block, 0, ONE_ROW_0);
    OneEight1();
    NextEight(ONE_0, block, 1, ONE_ROW_1);
    OneRow2();
    NextRow(block, 0, ONE_ROW_0, ONE_ROW_1, ONE_ROW_2);
    OneEight2();
    NextEight(ONE_0, block, 2, ONE_ROW_2);
    OneRow3();
    NextRow(block, 1, ONE_ROW_1, ONE_ROW_2, ONE_ROW_3);
    OneEight3();
    NextEight(ONE_0, block, 3, ONE_ROW_3);
    OneRow4();
    NextRow(block, 2, ONE_ROW_2, ONE_ROW_3, ONE_ROW_4);
    OneEight4();
    NextEight(ONE_0, block, 4, ONE_ROW_4);
    OneRow5();
    NextRow(block, 3, ONE_ROW_3, ONE_ROW_4, ONE_ROW_5);
    OneEight5();
    NextEight(ONE_0, block, 5, ONE_ROW_5);
    OneRow6();
    NextRow(block, 4, ONE_ROW_4, ONE_ROW_5, ONE_ROW_6);
    OneEight6();
    NextEight(ONE_0, block, 6, ONE_ROW_6);
    OneRow7();
    NextRow(block, 5, ONE_ROW_5, ONE_ROW_6, ONE_ROW_7);
    OneEight7();
    NextEight(ONE_0, block, 7, ONE_ROW_7);
  }

  // ---- the 56 letters, second block ------------------------------------------------------

  const TWO_0: Vars := Vars(0x85e655d6, 0x417a1795, 0x3363376a, 0x624cde5c,
                           0x76e09589, 0xcac5f811, 0xcc4b32c1, 0xf20e533a)
  const TWO_1: Vars := Vars(0xbf9a93a0, 0x89bba3f1, 0x3eeb6c06, 0x185a5d79,
                           0x059abdd1, 0x0a34df03, 0xfe20cda6, 0x8dff3001)
  const TWO_2: Vars := Vars(0x16a8cc79, 0x0cea5cbc, 0xd74080fa, 0x35ee996d,
                           0x0fcb1f6f, 0x60356548, 0x68aa893f, 0x5c24e2a2)
  const TWO_3: Vars := Vars(0xa4195b91, 0xf13ae55b, 0xd44dc81a, 0x20aad899,
                           0xeddbd6ed, 0x966aa287, 0x5bace62d, 0xcc4769f2)
  const TWO_4: Vars := Vars(0xb0eab1c5, 0x02ef3a5f, 0x1cfa5eb0, 0xd958b529,
                           0xf6d93952, 0x5da10665, 0x6c49db9f, 0xc2fa99b1)
  const TWO_5: Vars := Vars(0x221b8a5a, 0xadca7a96, 0xd949682b, 0x2f11c939,
                           0x0b82c5eb, 0xc6cce4ff, 0x32d99008, 0xfed4ce1d)
  const TWO_6: Vars := Vars(0xd7354d5b, 0x0b3303a7, 0x104a7db4, 0x0f154e11,
                           0xaad55b6b, 0xbbe1c39a, 0x5348e8f6, 0x6f9517cb)
  const TWO_7: Vars := Vars(0x92952710, 0xd9f0c115, 0xec02560a, 0x4eca6fa0,
                           0x226806d6, 0x624150c4, 0x7151df8e, 0x989ed071)
  const TWO_8: Vars := Vars(0x9ea7148b, 0x908c2123, 0xb25cef29, 0xa9f181dd,
                           0x2c5c4ed0, 0x9a392956, 0x2aa1bb13, 0x27ccb387)

  const TWO_ROW_0 := Octet(0x00000000, 0x00000000, 0x00000000, 0x00000000,
                             0x00000000, 0x00000000, 0x00000000, 0x00000000)
  const TWO_ROW_1 := Octet(0x00000000, 0x00000000, 0x00000000, 0x00000000,
                             0x00000000, 0x00000000, 0x00000000, 0x000001c0)
  const TWO_ROW_2 := Octet(0x00000000, 0x00d80000, 0x00000000, 0x00003677,
                             0x00000000, 0x1df5600d, 0x000001c0, 0x1c00501c)
  const TWO_ROW_3 := Octet(0x01b00000, 0x220a8d94, 0x0000a365, 0x177017e7,
                             0x63d38035, 0x090ab713, 0x4c7539ca, 0x0f19a8c9)
  const TWO_ROW_4 := Octet(0x5df4b0c4, 0xe257036a, 0xc97bb6f1, 0xc5b46f4d,
                             0xf8253c4e, 0xa558d189, 0x78696285, 0xed07117f)
  const TWO_ROW_5 := Octet(0x107358f6, 0x390ae496, 0x565010a2, 0xc51d7d44,
                             0x9e74c972, 0x6614b561, 0x30fc129d, 0x9ac684a8)
  const TWO_ROW_6 := Octet(0x2b658dbd, 0xe290f793, 0x9eebb24c, 0x9713b5de,
                             0x41061ab7, 0xe022e23b, 0x0772079e, 0x7de22d9c)
  const TWO_ROW_7 := Octet(0xc8b83778, 0x75a79849, 0xd93dbddb, 0x0a036c9d,
                             0xcb4f6ac6, 0x823f97e2, 0xea2f2a7a, 0xb9018b52)

  lemma {:induction false} TwoEight0()
    ensures Eight(TWO_0, 0, TWO_ROW_0) == TWO_1
  {
    hide RoundConstant;
    Constants0();
    var v0 := TWO_0;
    var v1 := To(v0, 0x428a2f98, 0x00000000, 0x7c20c838, 0x4670ae6e);
    var v2 := To(v1, 0x71374491, 0x00000000, 0x7c3c0f86, 0x8c51be64);
    var v3 := To(v2, 0xb5c0fbcf, 0x00000000, 0xfd1eebdc, 0xaf71b9ea);
    var v4 := To(v3, 0xe9b5dba5, 0x00000000, 0xf268faa9, 0xe20362ef);
    var v5 := To(v4, 0x3956c25b, 0x00000000, 0x185a5d79, 0x8dff3001);
    var v6 := To(v5, 0x59f111f1, 0x00000000, 0x3eeb6c06, 0xfe20cda6);
    var v7 := To(v6, 0x923f82a4, 0x00000000, 0x89bba3f1, 0x0a34df03);
    var v8 := To(v7, 0xab1c5ed5, 0x00000000, 0xbf9a93a0, 0x059abdd1);
  }

  lemma {:induction false} TwoEight1()
    ensures Eight(TWO_1, 1, TWO_ROW_1) == TWO_2
  {
    hide RoundConstant;
    Constants1();
    var v0 := TWO_1;
    var v1 := To(v0, 0xd807aa98, 0x00000000, 0x2c096744, 0xabfa465b);
    var v2 := To(v1, 0x12835b01, 0x00000000, 0x2d964e86, 0xaa27ed82);
    var v3 := To(v2, 0x243185be, 0x00000000, 0x5b35025b, 0x10e77723);
    var v4 := To(v3, 0x550c7dc3, 0x00000000, 0x5eb4ec40, 0xe11b4548);
    var v5 := To(v4, 0x72be5d74, 0x00000000, 0x35ee996d, 0x5c24e2a2);
    var v6 := To(v5, 0x80deb1fe, 0x00000000, 0xd74080fa, 0x68aa893f);
    var v7 := To(v6, 0x9bdc06a7, 0x00000000, 0x0cea5cbc, 0x60356548);
    var v8 := To(v7, 0xc19bf174, 0x000001c0, 0x16a8cc79, 0x0fcb1f6f);
  }

  lemma {:induction false} TwoEight2()
    ensures Eight(TWO_2, 2, TWO_ROW_2) == TWO_3
  {
    hide RoundConstant;
    Constants2();
    var v0 := TWO_2;
    var v1 := To(v0, 0xe49b69c1, 0x00000000, 0xf16f634e, 0x8b21cdc1);
    var v2 := To(v1, 0xefbe4786, 0x00d80000, 0x23dcb6c2, 0xca9182d3);
    var v3 := To(v2, 0x0fc19dc6, 0x00000000, 0xdcff40fd, 0x69bf7b95);
    var v4 := To(v3, 0x240ca1cc, 0x00003677, 0x76f1a2bc, 0x0dc84bb1);
    var v5 := To(v4, 0x2de92c6f, 0x00000000, 0x20aad899, 0xcc4769f2);
    var v6 := To(v5, 0x4a7484aa, 0x1df5600d, 0xd44dc81a, 0x5bace62d);
    var v7 := To(v6, 0x5cb0a9dc, 0x000001c0, 0xf13ae55b, 0x966aa287);
    var v8 := To(v7, 0x76f988da, 0x1c00501c, 0xa4195b91, 0xeddbd6ed);
  }

  lemma {:induction false} TwoEight3()
    ensures Eight(TWO_3, 3, TWO_ROW_3) == TWO_4
  {
    hide RoundConstant;
    Constants3();
    var v0 := TWO_3;
    var v1 := To(v0, 0x983e5152, 0x01b00000, 0x4984fa79, 0xa530d939);
    var v2 := To(v1, 0xa831c66d, 0x220a8d94, 0xaa6cb982, 0x0b5eeea4);
    var v3 := To(v2, 0xb00327c8, 0x0000a365, 0x9450fbbc, 0x09166dda);
    var v4 := To(v3, 0xbf597fc7, 0x177017e7, 0x0d936bab, 0x6e495d4b);
    var v5 := To(v4, 0xc6e00bf3, 0x63d38035, 0xd958b529, 0xc2fa99b1);
    var v6 := To(v5, 0xd5a79147, 0x090ab713, 0x1cfa5eb0, 0x6c49db9f);
    var v7 := To(v6, 0x06ca6351, 0x4c7539ca, 0x02ef3a5f, 0x5da10665);
    var v8 := To(v7, 0x14292967, 0x0f19a8c9, 0xb0eab1c5, 0xf6d93952);
  }

  lemma {:induction false} TwoEight4()
    ensures Eight(TWO_4, 4, TWO_ROW_4) == TWO_5
  {
    hide RoundConstant;
    Constants4();
    var v0 := TWO_4;
    var v1 := To(v0, 0x27b70a85, 0x5df4b0c4, 0x0bfba73c, 0x8b99e3a9);
    var v2 := To(v1, 0x2e1b2138, 0xe257036a, 0x4bd1df96, 0x905e44ac);
    var v3 := To(v2, 0x4d2c6dfc, 0xc97bb6f1, 0x9907f1b6, 0x66c3043d);
    var v4 := To(v3, 0x53380d13, 0xc5b46f4d, 0xecde4e0d, 0x5dc119e6);
    var v5 := To(v4, 0x650a7354, 0xf8253c4e, 0x2f11c939, 0xfed4ce1d);
    var v6 := To(v5, 0x766a0abb, 0xa558d189, 0xd949682b, 0x32d99008);
    var v7 := To(v6, 0x81c2c92e, 0x78696285, 0xadca7a96, 0xc6cce4ff);
    var v8 := To(v7, 0x92722c85, 0xed07117f, 0x221b8a5a, 0x0b82c5eb);
  }

  lemma {:induction false} TwoEight5()
    ensures Eight(TWO_5, 5, TWO_ROW_5) == TWO_6
  {
    hide RoundConstant;
    Constants5();
    var v0 := TWO_5;
    var v1 := To(v0, 0xa2bfe8a1, 0x107358f6, 0x12d97845, 0xe4213ca2);
    var v2 := To(v1, 0xa81a664b, 0x390ae496, 0x2c794876, 0xff6759ba);
    var v3 := To(v2, 0xc24b8b70, 0x565010a2, 0x8300fca2, 0xe0e3457c);
    var v4 := To(v3, 0xc76c51a3, 0xc51d7d44, 0xf2ad6322, 0xcc48c7f3);
    var v5 := To(v4, 0xd192e819, 0x9e74c972, 0x0f154e11, 0x6f9517cb);
    var v6 := To(v5, 0xd6990624, 0x6614b561, 0x104a7db4, 0x5348e8f6);
    var v7 := To(v6, 0xf40e3585, 0x30fc129d, 0x0b3303a7, 0xbbe1c39a);
    var v8 := To(v7, 0x106aa070, 0x9ac684a8, 0xd7354d5b, 0xaad55b6b);
  }

  lemma {:induction false} TwoEight6()
    ensures Eight(TWO_6, 6, TWO_ROW_6) == TWO_7
  {
    hide RoundConstant;
    Constants6();
    var v0 := TWO_6;
    var v1 := To(v0, 0x19a4c116, 0x2b658dbd, 0xb736d7a6, 0x68f25260);
    var v2 := To(v1, 0x1e376c08, 0xe290f793, 0x2748e5ec, 0xd4b58576);
    var v3 := To(v2, 0x2748774c, 0x9eebb24c, 0xd8aabcf9, 0x27844711);
    var v4 := To(v3, 0x34b0bcb5, 0x9713b5de, 0x1a6bcf6a, 0xff5e99d0);
    var v5 := To(v4, 0x391c0cb3, 0x41061ab7, 0x4eca6fa0, 0x989ed071);
    var v6 := To(v5, 0x4ed8aa4a, 0xe022e23b, 0xec02560a, 0x7151df8e);
    var v7 := To(v6, 0x5b9cca4f, 0x0772079e, 0xd9f0c115, 0x624150c4);
    var v8 := To(v7, 0x682e6ff3, 0x7de22d9c, 0x92952710, 0x226806d6);
  }

  lemma {:induction false} TwoEight7()
    ensures Eight(TWO_7, 7, TWO_ROW_7) == TWO_8
  {
    hide RoundConstant;
    Constants7();
    var v0 := TWO_7;
    var v1 := To(v0, 0x748f82ee, 0xc8b83778, 0x20d4d0e4, 0x4e515a4d);
    var v2 := To(v1, 0x78a5636f, 0x75a79849, 0x4348eb1f, 0xc21eddf9);
    var v3 := To(v2, 0x84c87814, 0xd93dbddb, 0x286fe5f0, 0x54076664);
    var v4 := To(v3, 0x8cc70208, 0x0a036c9d, 0x1c4cddd9, 0xf487a853);
    var v5 := To(v4, 0x90befffa, 0xcb4f6ac6, 0xa9f181dd, 0x27ccb387);
    var v6 := To(v5, 0xa4506ceb, 0x823f97e2, 0xb25cef29, 0x2aa1bb13);
    var v7 := To(v6, 0xbef9a3f7, 0xea2f2a7a, 0x908c2123, 0x9a392956);
    var v8 := To(v7, 0xc67178f2, 0xb9018b52, 0x9ea7148b, 0x2c5c4ed0);
  }

  lemma {:induction false} TwoRow2()
    ensures Follows(TWO_ROW_0, TWO_ROW_1, TWO_ROW_2)
  {
    assert Expand(0x00000000, 0x00000000, 0x00000000, 0x00000000) == 0x00000000;
    assert Expand(0x000001c0, 0x00000000, 0x00000000, 0x00000000) == 0x00d80000;
    assert Expand(0x00000000, 0x00000000, 0x00000000, 0x00000000) == 0x00000000;
    assert Expand(0x00d80000, 0x00000000, 0x00000000, 0x00000000) == 0x00003677;
    assert Expand(0x00000000, 0x00000000, 0x00000000, 0x00000000) == 0x00000000;
    assert Expand(0x00003677, 0x00000000, 0x00000000, 0x00000000) == 0x1df5600d;
    assert Expand(0x00000000, 0x000001c0, 0x00000000, 0x00000000) == 0x000001c0;
    assert Expand(0x1df5600d, 0x00000000, 0x00000000, 0x00000000) == 0x1c00501c;
  }

  lemma {:induction false} TwoRow3()
    ensures Follows(TWO_ROW_1, TWO_ROW_2, TWO_ROW_3)
  {
    assert Expand(0x000001c0, 0x00d80000, 0x00000000, 0x00000000) == 0x01b00000;
    assert Expand(0x1c00501c, 0x00000000, 0x00000000, 0x00000000) == 0x220a8d94;
    assert Expand(0x01b00000, 0x00003677, 0x00000000, 0x00000000) == 0x0000a365;
    assert Expand(0x220a8d94, 0x00000000, 0x00000000, 0x00000000) == 0x177017e7;
    assert Expand(0x0000a365, 0x1df5600d, 0x00000000, 0x00000000) == 0x63d38035;
    assert Expand(0x177017e7, 0x000001c0, 0x00000000, 0x00000000) == 0x090ab713;
    assert Expand(0x63d38035, 0x1c00501c, 0x000001c0, 0x00000000) == 0x4c7539ca;
    assert Expand(0x090ab713, 0x01b00000, 0x00000000, 0x000001c0) == 0x0f19a8c9;
  }

  lemma {:induction false} TwoRow4()
    ensures Follows(TWO_ROW_2, TWO_ROW_3, TWO_ROW_4)
  {
    assert Expand(0x4c7539ca, 0x220a8d94, 0x00d80000, 0x00000000) == 0x5df4b0c4;
    assert Expand(0x0f19a8c9, 0x0000a365, 0x00000000, 0x00d80000) == 0xe257036a;
    assert Expand(0x5df4b0c4, 0x177017e7, 0x00003677, 0x00000000) == 0xc97bb6f1;
    assert Expand(0xe257036a, 0x63d38035, 0x00000000, 0x00003677) == 0xc5b46f4d;
    assert Expand(0xc97bb6f1, 0x090ab713, 0x1df5600d, 0x00000000) == 0xf8253c4e;
    assert Expand(0xc5b46f4d, 0x4c7539ca, 0x000001c0, 0x1df5600d) == 0xa558d189;
    assert Expand(0xf8253c4e, 0x0f19a8c9, 0x1c00501c, 0x000001c0) == 0x78696285;
    assert Expand(0xa558d189, 0x5df4b0c4, 0x01b00000, 0x1c00501c) == 0xed07117f;
  }

  lemma {:induction false} TwoRow5()
    ensures Follows(TWO_ROW_3, TWO_ROW_4, TWO_ROW_5)
  {
    assert Expand(0x78696285, 0xe257036a, 0x220a8d94, 0x01b00000) == 0x107358f6;
    assert Expand(0xed07117f, 0xc97bb6f1, 0x0000a365, 0x220a8d94) == 0x390ae496;
    assert Expand(0x107358f6, 0xc5b46f4d, 0x177017e7, 0x0000a365) == 0x565010a2;
    assert Expand(0x390ae496, 0xf8253c4e, 0x63d38035, 0x177017e7) == 0xc51d7d44;
    assert Expand(0x565010a2, 0xa558d189, 0x090ab713, 0x63d38035) == 0x9e74c972;
    assert Expand(0xc51d7d44, 0x78696285, 0x4c7539ca, 0x090ab713) == 0x6614b561;
    assert Expand(0x9e74c972, 0xed07117f, 0x0f19a8c9, 0x4c7539ca) == 0x30fc129d;
    assert Expand(0x6614b561, 0x107358f6, 0x5df4b0c4, 0x0f19a8c9) == 0x9ac684a8;
  }

  lemma {:induction false} TwoRow6()
    ensures Follows(TWO_ROW_4, TWO_ROW_5, TWO_ROW_6)
  {
    assert Expand(0x30fc129d, 0x390ae496, 0xe257036a, 0x5df4b0c4) == 0x2b658dbd;
    assert Expand(0x9ac684a8, 0x565010a2, 0xc97bb6f1, 0xe257036a) == 0xe290f793;
    assert Expand(0x2b658dbd, 0xc51d7d44, 0xc5b46f4d, 0xc97bb6f1) == 0x9eebb24c;
    assert Expand(0xe290f793, 0x9e74c972, 0xf8253c4e, 0xc5b46f4d) == 0x9713b5de;
    assert Expand(0x9eebb24c, 0x6614b561, 0xa558d189, 0xf8253c4e) == 0x41061ab7;
    assert Expand(0x9713b5de, 0x30fc129d, 0x78696285, 0xa558d189) == 0xe022e23b;
    assert Expand(0x41061ab7, 0x9ac684a8, 0xed07117f, 0x78696285) == 0x0772079e;
    assert Expand(0xe022e23b, 0x2b658dbd, 0x107358f6, 0xed07117f) == 0x7de22d9c;
  }

  lemma {:induction false} TwoRow7()
    ensures Follows(TWO_ROW_5, TWO_ROW_6, TWO_ROW_7)
  {
    assert Expand(0x0772079e, 0xe290f793, 0x390ae496, 0x107358f6) == 0xc8b83778;
    assert Expand(0x7de22d9c, 0x9eebb24c, 0x565010a2, 0x390ae496) == 0x75a79849;
    assert Expand(0xc8b83778, 0x9713b5de, 0xc51d7d44, 0x565010a2) == 0xd93dbddb;
    assert Expand(0x75a79849, 0x41061ab7, 0x9e74c972, 0xc51d7d44) == 0x0a036c9d;
    assert Expand(0xd93dbddb, 0xe022e23b, 0x6614b561, 0x9e74c972) == 0xcb4f6ac6;
    assert Expand(0x0a036c9d, 0x0772079e, 0x30fc129d, 0x6614b561) == 0x823f97e2;
    assert Expand(0xcb4f6ac6, 0x7de22d9c, 0x9ac684a8, 0x30fc129d) == 0xea2f2a7a;
    assert Expand(0x823f97e2, 0xc8b83778, 0x2b658dbd, 0x9ac684a8) == 0xb9018b52;
  }

  lemma {:induction false} TwoRounds(block: seq<Byte>)
    requires |block| == BLOCK && RowIs(block, 0, TWO_ROW_0) && RowIs(block, 1, TWO_ROW_1)
    ensures Rounds(TWO_0, block, 64) == TWO_8
  {
    hide *;
    NoRounds(TWO_0, block);
    TwoEight0();
    NextEight(TWO_0, block, 0, TWO_ROW_0);
    TwoEight1();
    NextEight(TWO_0, block, 1, TWO_ROW_1);
    TwoRow2();
    NextRow(block, 0, TWO_ROW_0, TWO_ROW_1, TWO_ROW_2);
    TwoEight2();
    NextEight(TWO_0, block, 2, TWO_ROW_2);
    TwoRow3();
    NextRow(block, 1, TWO_ROW_1, TWO_ROW_2, TWO_ROW_3);
    TwoEight3();
    NextEight(TWO_0, block, 3, TWO_ROW_3);
    TwoRow4();
    NextRow(block, 2, TWO_ROW_2, TWO_ROW_3, TWO_ROW_4);
    TwoEight4();
    NextEight(TWO_0, block, 4, TWO_ROW_4);
    TwoRow5();
    NextRow(block, 3, TWO_ROW_3, TWO_ROW_4, TWO_ROW_5);
    TwoEight5();
    NextEight(TWO_0, block, 5, TWO_ROW_5);
    TwoRow6();
    NextRow(block, 4, TWO_ROW_4, TWO_ROW_5, TWO_ROW_6);
    TwoEight6();
    NextEight(TWO_0, block, 6, TWO_ROW_6);
    TwoRow7();
    NextRow(block, 5, TWO_ROW_5, TWO_ROW_6, TWO_ROW_7);
    TwoEight7();
    NextEight(TWO_0, block, 7, TWO_ROW_7);
  }

  // ---- the messages, padded -----------------------------------------------------------

  const ABC: seq<Byte> := [0x61, 0x62, 0x63]

  /** abcdbcdecdefdefgefghfghighijhijkijkljklmklmnlmnomnopnopq. */
  const LETTERS: seq<Byte> :=
    [0x61, 0x62, 0x63, 0x64, 0x62, 0x63, 0x64, 0x65, 0x63, 0x64, 0x65, 0x66, 0x64, 0x65] +
    [0x66, 0x67, 0x65, 0x66, 0x67, 0x68, 0x66, 0x67, 0x68, 0x69, 0x67, 0x68, 0x69, 0x6a] +
    [0x68, 0x69, 0x6a, 0x6b, 0x69, 0x6a, 0x6b, 0x6c, 0x6a, 0x6b, 0x6c, 0x6d, 0x6b, 0x6c] +
    [0x6d, 0x6e, 0x6c, 0x6d, 0x6e, 0x6f, 0x6d, 0x6e, 0x6f, 0x70, 0x6e, 0x6f, 0x70, 0x71]

  /** Byte i of a padded message. */
  function PaddedByte(message: seq<Byte>, i: nat): Byte
    requires i < |Pad(message)|
  {
    var n, zeros := |message|, ZeroBytes(|message|);
    if i < n then message[i]
    else if i == n then 0x80
    else if i < n + 1 + zeros then 0
    else LengthBytes(BitLength(n))[i - n - 1 - zeros]
  }

  lemma {:induction false} PaddedBytes(message: seq<Byte>)
    ensures |Pad(message)| == |message| + 9 + ZeroBytes(|message|)
    ensures forall i | 0 <= i < |Pad(message)| :: Pad(message)[i] == PaddedByte(message, i)
  {
    hide LengthBytes, BitLength;
  }

  lemma {:induction false} LengthsAre()
    ensures LengthBytes(BitLength(3)) == [0, 0, 0, 0, 0, 0, 0, 0x18]
    ensures LengthBytes(BitLength(56)) == [0, 0, 0, 0, 0, 0, 0x01, 0xc0]
  {
    hide LengthBytes, Number64;
    assert (3 * 8) % 0x1_0000_0000_0000_0000 == 24 && (56 * 8) % 0x1_0000_0000_0000_0000 == 448;
    NumbersAre();
    ShortLength(24, 0, 0x18);
    ShortLength(448, 0x01, 0xc0);
  }

  lemma {:induction false} NumbersAre()
    ensures Number64(24) == 24 && Number64(448) == 448
  {
  }

  lemma {:induction false} ShortLength(bits: bv64, high: Byte, low: Byte)
    requires bits == ((high as bv64) << 8) | (low as bv64)
    ensures LengthBytes(bits) == [0, 0, 0, 0, 0, 0, high, low]
  {
  }

  /** The word that four bytes of the block make. */
  lemma {:induction false} WordAt(block: seq<Byte>, t: nat, b0: Byte, b1: Byte, b2: Byte, b3: Byte, w: Word)
    requires |block| == BLOCK && t < 16
    requires block[t * 4] == b0 && block[t * 4 + 1] == b1 && block[t * 4 + 2] == b2 && block[t * 4 + 3] == b3
    requires BigEndian(b0, b1, b2, b3) == w
    ensures Schedule(block, t) == w
  {
    hide BigEndian;
  }

  lemma {:induction false} AbcLoaded0()
    ensures |Pad(ABC)| == 64 && RowIs(Pad(ABC), 0, ABC_ROW_0)
  {
    hide Pad, LengthBytes, BitLength, Schedule;
    PaddedBytes(ABC);
    LengthsAre();
    var block := Pad(ABC);
    WordAt(block, 0, 0x61, 0x62, 0x63, 0x80, 0x61626380);
    WordAt(block, 1, 0x00, 0x00, 0x00, 0x00, 0x00000000);
    WordAt(block, 2, 0x00, 0x00, 0x00, 0x00, 0x00000000);
    WordAt(block, 3, 0x00, 0x00, 0x00, 0x00, 0x00000000);
    WordAt(block, 4, 0x00, 0x00, 0x00, 0x00, 0x00000000);
    WordAt(block, 5, 0x00, 0x00, 0x00, 0x00, 0x00000000);
    WordAt(block, 6, 0x00, 0x00, 0x00, 0x00, 0x00000000);
    WordAt(block, 7, 0x00, 0x00, 0x00, 0x00, 0x00000000);
  }

  lemma {:induction false} AbcLoaded1()
    ensures |Pad(ABC)| == 64 && RowIs(Pad(ABC), 1, ABC_ROW_1)
  {
    hide Pad, LengthBytes, BitLength, Schedule;
    PaddedBytes(ABC);
    LengthsAre();
    var block := Pad(ABC);
    WordAt(block, 8, 0x00, 0x00, 0x00, 0x00, 0x00000000);
    WordAt(block, 9, 0x00, 0x00, 0x00, 0x00, 0x00000000);
    WordAt(block, 10, 0x00, 0x00, 0x00, 0x00, 0x00000000);
    WordAt(block, 11, 0x00, 0x00, 0x00, 0x00, 0x00000000);
    WordAt(block, 12, 0x00, 0x00, 0x00, 0x00, 0x00000000);
    WordAt(block, 13, 0x00, 0x00, 0x00, 0x00, 0x00000000);
    WordAt(block, 14, 0x00, 0x00, 0x00, 0x00, 0x00000000);
    WordAt(block, 15, 0x00, 0x00, 0x00, 0x18, 0x00000018);
  }

  lemma {:induction false} OneLoaded0()
    ensures |Pad(LETTERS)| == 128 && RowIs(Pad(LETTERS)[..64], 0, ONE_ROW_0)
  {
    hide Pad, LengthBytes, BitLength, Schedule;
    PaddedBytes(LETTERS);
    LengthsAre();
    var block := Pad(LETTERS)[..64];
    WordAt(block, 0, 0x61, 0x62, 0x63, 0x64, 0x61626364);
    WordAt(block, 1, 0x62, 0x63, 0x64, 0x65, 0x62636465);
    WordAt(block, 2, 0x63, 0x64, 0x65, 0x66, 0x63646566);
    WordAt(block, 3, 0x64, 0x65, 0x66, 0x67, 0x64656667);
    WordAt(block, 4, 0x65, 0x66, 0x67, 0x68, 0x65666768);
    WordAt(block, 5, 0x66, 0x67, 0x68, 0x69, 0x66676869);
    WordAt(block, 6, 0x67, 0x68, 0x69, 0x6a, 0x6768696a);
    WordAt(block, 7, 0x68, 0x69, 0x6a, 0x6b, 0x68696a6b);
  }

  lemma {:induction false} OneLoaded1()
    ensures |Pad(LETTERS)| == 128 && RowIs(Pad(LETTERS)[..64], 1, ONE_ROW_1)
  {
    hide Pad, LengthBytes, BitLength, Schedule;
    PaddedBytes(LETTERS);
    LengthsAre();
    var block := Pad(LETTERS)[..64];
    WordAt(block, 8, 0x69, 0x6a, 0x6b, 0x6c, 0x696a6b6c);
    WordAt(block, 9, 0x6a, 0x6b, 0x6c, 0x6d, 0x6a6b6c6d);
    WordAt(block, 10, 0x6b, 0x6c, 0x6d, 0x6e, 0x6b6c6d6e);
    WordAt(block, 11, 0x6c, 0x6d, 0x6e, 0x6f, 0x6c6d6e6f);
    WordAt(block, 12, 0x6d, 0x6e, 0x6f, 0x70, 0x6d6e6f70);
    WordAt(block, 13, 0x6e, 0x6f, 0x70, 0x71, 0x6e6f7071);
    WordAt(block, 14, 0x80, 0x00, 0x00, 0x00, 0x80000000);
    WordAt(block, 15, 0x00, 0x00, 0x00, 0x00, 0x00000000);
  }

  lemma {:induction false} TwoLoaded0()
    ensures |Pad(LETTERS)| == 128 && RowIs(Pad(LETTERS)[64..], 0, TWO_ROW_0)
  {
    hide Pad, LengthBytes, BitLength, Schedule;
    PaddedBytes(LETTERS);
    LengthsAre();
    var block := Pad(LETTERS)[64..];
    WordAt(block, 0, 0x00, 0x00, 0x00, 0x00, 0x00000000);
    WordAt(block, 1, 0x00, 0x00, 0x00, 0x00, 0x00000000);
    WordAt(block, 2, 0x00, 0x00, 0x00, 0x00, 0x00000000);
    WordAt(block, 3, 0x00, 0x00, 0x00, 0x00, 0x00000000);
    WordAt(block, 4, 0x00, 0x00, 0x00, 0x00, 0x00000000);
    WordAt(block, 5, 0x00, 0x00, 0x00, 0x00, 0x00000000);
    WordAt(block, 6, 0x00, 0x00, 0x00, 0x00, 0x00000000);
    WordAt(block, 7, 0x00, 0x00, 0x00, 0x00, 0x00000000);
  }

  lemma {:induction false} TwoLoaded1()
    ensures |Pad(LETTERS)| == 128 && RowIs(Pad(LETTERS)[64..], 1, TWO_ROW_1)
  {
    hide Pad, LengthBytes, BitLength, Schedule;
    PaddedBytes(LETTERS);
    LengthsAre();
    var block := Pad(LETTERS)[64..];
    WordAt(block, 8, 0x00, 0x00, 0x00, 0x00, 0x00000000);
    WordAt(block, 9, 0x00, 0x00, 0x00, 0x00, 0x00000000);
    WordAt(block, 10, 0x00, 0x00, 0x00, 0x00, 0x00000000);
    WordAt(block, 11, 0x00, 0x00, 0x00, 0x00, 0x00000000);
    WordAt(block, 12, 0x00, 0x00, 0x00, 0x00, 0x00000000);
    WordAt(block, 13, 0x00, 0x00, 0x00, 0x00, 0x00000000);
    WordAt(block, 14, 0x00, 0x00, 0x00, 0x00, 0x00000000);
    WordAt(block, 15, 0x00, 0x00, 0x01, 0xc0, 0x000001c0);
  }

  // ---- the digests -----------------------------------------------------------------------

  const ABC_HASH: seq<Word> := [0xba7816bf, 0x8f01cfea, 0x414140de, 0x5dae2223,
            0xb00361a3, 0x96177a9c, 0xb410ff61, 0xf20015ad]

  const ONE_HASH: seq<Word> := [0x85e655d6, 0x417a1795, 0x3363376a, 0x624cde5c,
            0x76e09589, 0xcac5f811, 0xcc4b32c1, 0xf20e533a]

  const LETTERS_HASH: seq<Word> := [0x248d6a61, 0xd20638b8, 0xe5c02693, 0x0c3e6039,
            0xa33ce459, 0x64ff2167, 0xf6ecedd4, 0x19db06c1]

  lemma {:induction false} AbcCompressed()
    ensures |Pad(ABC)| == 64 && Compress(H0, Pad(ABC)) == ABC_HASH
  {
    hide Rounds, RowIs, Pad;
    AbcLoaded0();
    AbcLoaded1();
    AbcRounds(Pad(ABC));
  }

  lemma {:induction false} OneCompressed()
    ensures |Pad(LETTERS)| == 128 && Compress(H0, Pad(LETTERS)[..64]) == ONE_HASH
  {
    hide Rounds, RowIs, Pad;
    OneLoaded0();
    OneLoaded1();
    OneRounds(Pad(LETTERS)[..64]);
  }

  lemma {:induction false} TwoCompressed()
    ensures |Pad(LETTERS)| == 128 && Compress(ONE_HASH, Pad(LETTERS)[64..]) == LETTERS_HASH
  {
    hide Rounds, RowIs, Pad;
    TwoLoaded0();
    TwoLoaded1();
    TwoRounds(Pad(LETTERS)[64..]);
  }

  /** The digest of "abc". */
  lemma {:induction false} HashOfAbc()
    ensures Hash(ABC) == ABC_HASH
  {
    hide Compress, Pad;
    AbcCompressed();
    HashOneBlock(H0, Pad(ABC));
  }

  /** The digest of the 56 letters, whose length takes a block of its own. */
  lemma {:induction false} HashOfLetters()
    ensures Hash(LETTERS) == LETTERS_HASH
  {
    hide Compress, Pad, HashBlocks;
    OneCompressed();
    TwoCompressed();
    var one, two := Pad(LETTERS)[..64], Pad(LETTERS)[64..];
    assert Pad(LETTERS) == one + two;
    HashBlocksConcat(H0, one, two);
    HashOneBlock(H0, one);
    HashOneBlock(ONE_HASH, two);
  }

  // ---- the digits ------------------------------------------------------------------------

  lemma {:induction false} HexOfAbc()
    ensures Hex(Hash(ABC)) == ("ba7816bf" + "8f01cfea" + "414140de" + "5dae2223") +
                              ("b00361a3" + "96177a9c" + "b410ff61" + "f20015ad")
  {
    hide Hash, Hex, WordHex;
    HashOfAbc();
    DigitsOfAbc();
    assert ABC_HASH == ABC_HASH[..4] + ABC_HASH[4..];
    HexConcat(ABC_HASH[..4], ABC_HASH[4..]);
    FourWords(ABC_HASH[..4]);
    FourWords(ABC_HASH[4..]);
  }

  lemma {:induction false} DigitsOfAbc()
    ensures WordHex(0xba7816bf) == "ba7816bf" && WordHex(0x8f01cfea) == "8f01cfea"
    ensures WordHex(0x414140de) == "414140de" && WordHex(0x5dae2223) == "5dae2223"
    ensures WordHex(0xb00361a3) == "b00361a3" && WordHex(0x96177a9c) == "96177a9c"
    ensures WordHex(0xb410ff61) == "b410ff61" && WordHex(0xf20015ad) == "f20015ad"
  {
  }

  lemma {:induction false} FourWords(w: seq<Word>)
    requires |w| == 4
    ensures Hex(w) == WordHex(w[0]) + WordHex(w[1]) + WordHex(w[2]) + WordHex(w[3])
  {
    hide WordHex;
    assert w[1..][1..] == w[2..] && w[2..][1..] == w[3..] && w[3..][1..] == [];
    assert Hex(w[3..]) == WordHex(w[3]);
    assert Hex(w[2..]) == WordHex(w[2]) + WordHex(w[3]);
    assert Hex(w[1..]) == WordHex(w[1]) + WordHex(w[2]) + WordHex(w[3]);
  }

  lemma {:induction false} HexConcat(a: seq<Word>, b: seq<Word>)
    ensures Hex(a + b) == Hex(a) + Hex(b)
  {
    hide WordHex;
    if a == [] {
      assert a + b == b;
    } else {
      assert (a + b)[1..] == a[1..] + b;
      HexConcat(a[1..], b);
    }
  }
}
