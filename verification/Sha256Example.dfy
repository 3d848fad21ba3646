/** The example of FIPS 180-4: the hash of "abc", round by round.  Exchange two registers, a rotation, a
    constant or a byte anywhere, and this digest does not come out. */
module Sha256Example {
  import opened Basics
  import opened Sha256

  /** Eight constants, eight schedule words, from number `t` on. */
  predicate Constants(t: nat, k0: Word, k1: Word, k2: Word, k3: Word, k4: Word, k5: Word, k6: Word, k7: Word)
    requires t <= 56
  {
    && K(t) == k0 && K(t + 1) == k1 && K(t + 2) == k2 && K(t + 3) == k3
    && K(t + 4) == k4 && K(t + 5) == k5 && K(t + 6) == k6 && K(t + 7) == k7
  }

  predicate Words(p: seq<Byte>, t: nat, w0: Word, w1: Word, w2: Word, w3: Word, w4: Word, w5: Word, w6: Word, w7: Word)
    requires |p| == 64 && t <= 56
  {
    && Schedule(p, t) == w0 && Schedule(p, t + 1) == w1 && Schedule(p, t + 2) == w2 && Schedule(p, t + 3) == w3
    && Schedule(p, t + 4) == w4 && Schedule(p, t + 5) == w5 && Schedule(p, t + 6) == w6 && Schedule(p, t + 7) == w7
  }

  /** One more schedule word. */
  lemma Spread(p: seq<Byte>, t: nat, w16: Word, w15: Word, w7: Word, w2: Word, w: Word)
    requires |p| == 64 && 16 <= t < 64
    requires Schedule(p, t - 16) == w16 && Schedule(p, t - 15) == w15
    requires Schedule(p, t - 7) == w7 && Schedule(p, t - 2) == w2
    requires Plus(Plus(Plus(SmallSigma1(w2), w7), SmallSigma0(w15)), w16) == w
    ensures Schedule(p, t) == w
  {
    hide SmallSigma0, SmallSigma1, Plus, BigEndian;
  }

  /** One more round: a and e come in, the others move on. */
  lemma Turn(p: seq<Byte>, h: Vars, t: nat, v: Vars, k: Word, w: Word, a: Word, e: Word) returns (n: Vars)
    requires |p| == 64 && t < 64 && Rounds(p, h, t) == v && K(t) == k && Schedule(p, t) == w
    requires Round(v, k, w) == Vars(a, v.a, v.b, v.c, e, v.e, v.f, v.g)
    ensures n == Vars(a, v.a, v.b, v.c, e, v.e, v.f, v.g) && Rounds(p, h, t + 1) == n
  {
    hide Round, Schedule, K;
    n := Round(v, k, w);
  }

  // ---- The block and its schedule -----------------------------------------------------

  const ABC: seq<Byte> := [0x61, 0x62, 0x63]

  predicate IsBlock(p: seq<Byte>) {
    && |p| == 64 && p[0] == 0x61 && p[1] == 0x62 && p[2] == 0x63 && p[3] == 0x80
    && (forall i :: 4 <= i < 63 ==> p[i] == 0) && p[63] == 24
  }

  lemma BlockWords(p: seq<Byte>)
    requires IsBlock(p)
    ensures Words(p, 0, 0x61626380, 0x00000000, 0x00000000, 0x00000000, 0x00000000, 0x00000000, 0x00000000, 0x00000000)
    ensures Words(p, 8, 0x00000000, 0x00000000, 0x00000000, 0x00000000, 0x00000000, 0x00000000, 0x00000000, 0x00000018)
  {
  }

  lemma WordsFrom16(p: seq<Byte>)
    requires |p| == 64 && Words(p, 0, 0x61626380, 0x00000000, 0x00000000, 0x00000000, 0x00000000, 0x00000000,
                                0x00000000, 0x00000000)
    requires Words(p, 8, 0x00000000, 0x00000000, 0x00000000, 0x00000000, 0x00000000, 0x00000000, 0x00000000, 0x00000018)
    ensures Words(p, 16, 0x61626380, 0x000f0000, 0x7da86405, 0x600003c6, 0x3e9d7b78, 0x0183fc00, 0x12dcbfdb, 0xe2e2c38e)
    ensures Words(p, 24, 0xc8215c1a, 0xb73679a2, 0xe5bc3909, 0x32663c5b, 0x9d209d67, 0xec8726cb, 0x702138a4, 0xd3b7973b)
  {
    hide Schedule;
    Spread(p, 16, 0x61626380, 0x00000000, 0x00000000, 0x00000000, 0x61626380);
    Spread(p, 17, 0x00000000, 0x00000000, 0x00000000, 0x00000018, 0x000f0000);
    Spread(p, 18, 0x00000000, 0x00000000, 0x00000000, 0x61626380, 0x7da86405);
    Spread(p, 19, 0x00000000, 0x00000000, 0x00000000, 0x000f0000, 0x600003c6);
    Spread(p, 20, 0x00000000, 0x00000000, 0x00000000, 0x7da86405, 0x3e9d7b78);
    Spread(p, 21, 0x00000000, 0x00000000, 0x00000000, 0x600003c6, 0x0183fc00);
    Spread(p, 22, 0x00000000, 0x00000000, 0x00000018, 0x3e9d7b78, 0x12dcbfdb);
    Spread(p, 23, 0x00000000, 0x00000000, 0x61626380, 0x0183fc00, 0xe2e2c38e);
    Spread(p, 24, 0x00000000, 0x00000000, 0x000f0000, 0x12dcbfdb, 0xc8215c1a);
    Spread(p, 25, 0x00000000, 0x00000000, 0x7da86405, 0xe2e2c38e, 0xb73679a2);
    Spread(p, 26, 0x00000000, 0x00000000, 0x600003c6, 0xc8215c1a, 0xe5bc3909);
    Spread(p, 27, 0x00000000, 0x00000000, 0x3e9d7b78, 0xb73679a2, 0x32663c5b);
    Spread(p, 28, 0x00000000, 0x00000000, 0x0183fc00, 0xe5bc3909, 0x9d209d67);
    Spread(p, 29, 0x00000000, 0x00000000, 0x12dcbfdb, 0x32663c5b, 0xec8726cb);
    Spread(p, 30, 0x00000000, 0x00000018, 0xe2e2c38e, 0x9d209d67, 0x702138a4);
    Spread(p, 31, 0x00000018, 0x61626380, 0xc8215c1a, 0xec8726cb, 0xd3b7973b);
  }

  lemma WordsFrom32(p: seq<Byte>)
    requires |p| == 64 && Words(p, 16, 0x61626380, 0x000f0000, 0x7da86405, 0x600003c6, 0x3e9d7b78, 0x0183fc00,
                                0x12dcbfdb, 0xe2e2c38e)
    requires Words(p, 24, 0xc8215c1a, 0xb73679a2, 0xe5bc3909, 0x32663c5b, 0x9d209d67, 0xec8726cb, 0x702138a4,
                   0xd3b7973b)
    ensures Words(p, 32, 0x93f5997f, 0x3b68ba73, 0xaff4ffc1, 0xf10a5c62, 0x0a8b3996, 0x72af830a, 0x9409e33e, 0x24641522)
    ensures Words(p, 40, 0x9f47bf94, 0xf0a64f5a, 0x3e246a79, 0x27333ba3, 0x0c4763f2, 0x840abf27, 0x7a290d5d, 0x065c43da)
  {
    hide Schedule;
    Spread(p, 32, 0x61626380, 0x000f0000, 0xb73679a2, 0x702138a4, 0x93f5997f);
    Spread(p, 33, 0x000f0000, 0x7da86405, 0xe5bc3909, 0xd3b7973b, 0x3b68ba73);
    Spread(p, 34, 0x7da86405, 0x600003c6, 0x32663c5b, 0x93f5997f, 0xaff4ffc1);
    Spread(p, 35, 0x600003c6, 0x3e9d7b78, 0x9d209d67, 0x3b68ba73, 0xf10a5c62);
    Spread(p, 36, 0x3e9d7b78, 0x0183fc00, 0xec8726cb, 0xaff4ffc1, 0x0a8b3996);
    Spread(p, 37, 0x0183fc00, 0x12dcbfdb, 0x702138a4, 0xf10a5c62, 0x72af830a);
    Spread(p, 38, 0x12dcbfdb, 0xe2e2c38e, 0xd3b7973b, 0x0a8b3996, 0x9409e33e);
    Spread(p, 39, 0xe2e2c38e, 0xc8215c1a, 0x93f5997f, 0x72af830a, 0x24641522);
    Spread(p, 40, 0xc8215c1a, 0xb73679a2, 0x3b68ba73, 0x9409e33e, 0x9f47bf94);
    Spread(p, 41, 0xb73679a2, 0xe5bc3909, 0xaff4ffc1, 0x24641522, 0xf0a64f5a);
    Spread(p, 42, 0xe5bc3909, 0x32663c5b, 0xf10a5c62, 0x9f47bf94, 0x3e246a79);
    Spread(p, 43, 0x32663c5b, 0x9d209d67, 0x0a8b3996, 0xf0a64f5a, 0x27333ba3);
    Spread(p, 44, 0x9d209d67, 0xec8726cb, 0x72af830a, 0x3e246a79, 0x0c4763f2);
    Spread(p, 45, 0xec8726cb, 0x702138a4, 0x9409e33e, 0x27333ba3, 0x840abf27);
    Spread(p, 46, 0x702138a4, 0xd3b7973b, 0x24641522, 0x0c4763f2, 0x7a290d5d);
    Spread(p, 47, 0xd3b7973b, 0x93f5997f, 0x9f47bf94, 0x840abf27, 0x065c43da);
  }

  lemma WordsFrom48(p: seq<Byte>)
    requires |p| == 64 && Words(p, 32, 0x93f5997f, 0x3b68ba73, 0xaff4ffc1, 0xf10a5c62, 0x0a8b3996, 0x72af830a,
                                0x9409e33e, 0x24641522)
    requires Words(p, 40, 0x9f47bf94, 0xf0a64f5a, 0x3e246a79, 0x27333ba3, 0x0c4763f2, 0x840abf27, 0x7a290d5d,
                   0x065c43da)
    ensures Words(p, 48, 0xfb3e89cb, 0xcc7617db, 0xb9e66c34, 0xa9993667, 0x84badedd, 0xc21462bc, 0x1487472c, 0xb20f7a99)
    ensures Words(p, 56, 0xef57b9cd, 0xebe6b238, 0x9fe3095e, 0x78bc8d4b, 0xa43fcf15, 0x668b2ff8, 0xeeaba2cc, 0x12b1edeb)
  {
    hide Schedule;
    Spread(p, 48, 0x93f5997f, 0x3b68ba73, 0xf0a64f5a, 0x7a290d5d, 0xfb3e89cb);
    Spread(p, 49, 0x3b68ba73, 0xaff4ffc1, 0x3e246a79, 0x065c43da, 0xcc7617db);
    Spread(p, 50, 0xaff4ffc1, 0xf10a5c62, 0x27333ba3, 0xfb3e89cb, 0xb9e66c34);
    Spread(p, 51, 0xf10a5c62, 0x0a8b3996, 0x0c4763f2, 0xcc7617db, 0xa9993667);
    Spread(p, 52, 0x0a8b3996, 0x72af830a, 0x840abf27, 0xb9e66c34, 0x84badedd);
    Spread(p, 53, 0x72af830a, 0x9409e33e, 0x7a290d5d, 0xa9993667, 0xc21462bc);
    Spread(p, 54, 0x9409e33e, 0x24641522, 0x065c43da, 0x84badedd, 0x1487472c);
    Spread(p, 55, 0x24641522, 0x9f47bf94, 0xfb3e89cb, 0xc21462bc, 0xb20f7a99);
    Spread(p, 56, 0x9f47bf94, 0xf0a64f5a, 0xcc7617db, 0x1487472c, 0xef57b9cd);
    Spread(p, 57, 0xf0a64f5a, 0x3e246a79, 0xb9e66c34, 0xb20f7a99, 0xebe6b238);
    Spread(p, 58, 0x3e246a79, 0x27333ba3, 0xa9993667, 0xef57b9cd, 0x9fe3095e);
    Spread(p, 59, 0x27333ba3, 0x0c4763f2, 0x84badedd, 0xebe6b238, 0x78bc8d4b);
    Spread(p, 60, 0x0c4763f2, 0x840abf27, 0xc21462bc, 0x9fe3095e, 0xa43fcf15);
    Spread(p, 61, 0x840abf27, 0x7a290d5d, 0x1487472c, 0x78bc8d4b, 0x668b2ff8);
    Spread(p, 62, 0x7a290d5d, 0x065c43da, 0xb20f7a99, 0xa43fcf15, 0xeeaba2cc);
    Spread(p, 63, 0x065c43da, 0xfb3e89cb, 0xef57b9cd, 0x668b2ff8, 0x12b1edeb);
  }

  // ---- Sixty-four rounds -------------------------------------------------------------

  lemma FirstConstants()
    ensures Constants(0, 0x428a2f98, 0x71374491, 0xb5c0fbcf, 0xe9b5dba5, 0x3956c25b, 0x59f111f1, 0x923f82a4, 0xab1c5ed5)
  {
  }

  lemma FirstRounds(p: seq<Byte>, h: Vars)
    requires |p| == 64 && Words(p, 0, 0x61626380, 0x00000000, 0x00000000, 0x00000000, 0x00000000, 0x00000000,
                                0x00000000, 0x00000000)
    requires Rounds(p, h, 0)
          == Vars(0x6a09e667, 0xbb67ae85, 0x3c6ef372, 0xa54ff53a, 0x510e527f, 0x9b05688c, 0x1f83d9ab, 0x5be0cd19)
    ensures Rounds(p, h, 8)
         == Vars(0x85a07b5f, 0xe5030380, 0x2b4209f5, 0x04409a6a, 0x0c657a79, 0x9b27a401, 0x714260ad, 0x43ada245)
  {
    hide Schedule, K, Rounds;
    FirstConstants();
    var v := Rounds(p, h, 0);
    v := Turn(p, h, 0, v, 0x428a2f98, 0x61626380, 0x5d6aebcd, 0xfa2a4622);
    v := Turn(p, h, 1, v, 0x71374491, 0x00000000, 0x5a6ad9ad, 0x78ce7989);
    v := Turn(p, h, 2, v, 0xb5c0fbcf, 0x00000000, 0xc8c347a7, 0xf92939eb);
    v := Turn(p, h, 3, v, 0xe9b5dba5, 0x00000000, 0xd550f666, 0x24e00850);
    v := Turn(p, h, 4, v, 0x3956c25b, 0x00000000, 0x04409a6a, 0x43ada245);
    v := Turn(p, h, 5, v, 0x59f111f1, 0x00000000, 0x2b4209f5, 0x714260ad);
    v := Turn(p, h, 6, v, 0x923f82a4, 0x00000000, 0xe5030380, 0x9b27a401);
    v := Turn(p, h, 7, v, 0xab1c5ed5, 0x00000000, 0x85a07b5f, 0x0c657a79);
  }

  lemma SecondConstants()
    ensures Constants(8, 0xd807aa98, 0x12835b01, 0x243185be, 0x550c7dc3, 0x72be5d74, 0x80deb1fe, 0x9bdc06a7, 0xc19bf174)
  {
  }

  lemma SecondRounds(p: seq<Byte>, h: Vars)
    requires |p| == 64 && Words(p, 8, 0x00000000, 0x00000000, 0x00000000, 0x00000000, 0x00000000, 0x00000000,
                                0x00000000, 0x00000018)
    requires Rounds(p, h, 8)
          == Vars(0x85a07b5f, 0xe5030380, 0x2b4209f5, 0x04409a6a, 0x0c657a79, 0x9b27a401, 0x714260ad, 0x43ada245)
    ensures Rounds(p, h, 16)
         == Vars(0xb0fa238e, 0xc0645fde, 0xd932eb16, 0x87912990, 0x07590dcd, 0x0b92f20c, 0x745a48de, 0x1e578218)
  {
    hide Schedule, K, Rounds;
    SecondConstants();
    var v := Rounds(p, h, 8);
    v := Turn(p, h, 8, v, 0xd807aa98, 0x00000000, 0x8e04ecb9, 0x32ca2d8c);
    v := Turn(p, h, 9, v, 0x12835b01, 0x00000000, 0x8c87346b, 0x1cc92596);
    v := Turn(p, h, 10, v, 0x243185be, 0x00000000, 0x4798a3f4, 0x436b23e8);
    v := Turn(p, h, 11, v, 0x550c7dc3, 0x00000000, 0xf71fc5a9, 0x816fd6e9);
    v := Turn(p, h, 12, v, 0x72be5d74, 0x00000000, 0x87912990, 0x1e578218);
    v := Turn(p, h, 13, v, 0x80deb1fe, 0x00000000, 0xd932eb16, 0x745a48de);
    v := Turn(p, h, 14, v, 0x9bdc06a7, 0x00000000, 0xc0645fde, 0x0b92f20c);
    v := Turn(p, h, 15, v, 0xc19bf174, 0x00000018, 0xb0fa238e, 0x07590dcd);
  }

  lemma ThirdConstants()
    ensures Constants(16, 0xe49b69c1, 0xefbe4786, 0x0fc19dc6, 0x240ca1cc, 0x2de92c6f, 0x4a7484aa, 0x5cb0a9dc,
                      0x76f988da)
  {
  }

  lemma ThirdRounds(p: seq<Byte>, h: Vars)
    requires |p| == 64 && Words(p, 16, 0x61626380, 0x000f0000, 0x7da86405, 0x600003c6, 0x3e9d7b78, 0x0183fc00,
                                0x12dcbfdb, 0xe2e2c38e)
    requires Rounds(p, h, 16)
          == Vars(0xb0fa238e, 0xc0645fde, 0xd932eb16, 0x87912990, 0x07590dcd, 0x0b92f20c, 0x745a48de, 0x1e578218)
    ensures Rounds(p, h, 24)
         == Vars(0xc5d53d8d, 0xa7a3623f, 0xc2606d6d, 0x9dc68b63, 0xaa47c347, 0x49f5114a, 0xe1257970, 0x8ada8930)
  {
    hide Schedule, K, Rounds;
    ThirdConstants();
    var v := Rounds(p, h, 16);
    v := Turn(p, h, 16, v, 0xe49b69c1, 0x61626380, 0x21da9a9b, 0x8034229c);
    v := Turn(p, h, 17, v, 0xefbe4786, 0x000f0000, 0xc2fbd9d1, 0x846ee454);
    v := Turn(p, h, 18, v, 0x0fc19dc6, 0x7da86405, 0xfe777bbf, 0xcc899961);
    v := Turn(p, h, 19, v, 0x240ca1cc, 0x600003c6, 0xe1f20c33, 0xb0638179);
    v := Turn(p, h, 20, v, 0x2de92c6f, 0x3e9d7b78, 0x9dc68b63, 0x8ada8930);
    v := Turn(p, h, 21, v, 0x4a7484aa, 0x0183fc00, 0xc2606d6d, 0xe1257970);
    v := Turn(p, h, 22, v, 0x5cb0a9dc, 0x12dcbfdb, 0xa7a3623f, 0x49f5114a);
    v := Turn(p, h, 23, v, 0x76f988da, 0xe2e2c38e, 0xc5d53d8d, 0xaa47c347);
  }

  lemma FourthConstants()
    ensures Constants(24, 0x983e5152, 0xa831c66d, 0xb00327c8, 0xbf597fc7, 0xc6e00bf3, 0xd5a79147, 0x06ca6351,
                      0x14292967)
  {
  }

  lemma FourthRounds(p: seq<Byte>, h: Vars)
    requires |p| == 64 && Words(p, 24, 0xc8215c1a, 0xb73679a2, 0xe5bc3909, 0x32663c5b, 0x9d209d67, 0xec8726cb,
                                0x702138a4, 0xd3b7973b)
    requires Rounds(p, h, 24)
          == Vars(0xc5d53d8d, 0xa7a3623f, 0xc2606d6d, 0x9dc68b63, 0xaa47c347, 0x49f5114a, 0xe1257970, 0x8ada8930)
    ensures Rounds(p, h, 32)
         == Vars(0x73b33bf5, 0xea992a22, 0xa0060b30, 0x363482c9, 0xba591112, 0x0109ab3a, 0xade79437, 0x6112a3b7)
  {
    hide Schedule, K, Rounds;
    FourthConstants();
    var v := Rounds(p, h, 24);
    v := Turn(p, h, 24, v, 0x983e5152, 0xc8215c1a, 0x1c2c2838, 0x2823ef91);
    v := Turn(p, h, 25, v, 0xa831c66d, 0xb73679a2, 0xcde8037d, 0x14383d8e);
    v := Turn(p, h, 26, v, 0xb00327c8, 0xe5bc3909, 0xb62ec4bc, 0xc74c6516);
    v := Turn(p, h, 27, v, 0xbf597fc7, 0x32663c5b, 0x77d37528, 0xedffbff8);
    v := Turn(p, h, 28, v, 0xc6e00bf3, 0x9d209d67, 0x363482c9, 0x6112a3b7);
    v := Turn(p, h, 29, v, 0xd5a79147, 0xec8726cb, 0xa0060b30, 0xade79437);
    v := Turn(p, h, 30, v, 0x06ca6351, 0x702138a4, 0xea992a22, 0x0109ab3a);
    v := Turn(p, h, 31, v, 0x14292967, 0xd3b7973b, 0x73b33bf5, 0xba591112);
  }

  lemma FifthConstants()
    ensures Constants(32, 0x27b70a85, 0x2e1b2138, 0x4d2c6dfc, 0x53380d13, 0x650a7354, 0x766a0abb, 0x81c2c92e,
                      0x92722c85)
  {
  }

  lemma FifthRounds(p: seq<Byte>, h: Vars)
    requires |p| == 64 && Words(p, 32, 0x93f5997f, 0x3b68ba73, 0xaff4ffc1, 0xf10a5c62, 0x0a8b3996, 0x72af830a,
                                0x9409e33e, 0x24641522)
    requires Rounds(p, h, 32)
          == Vars(0x73b33bf5, 0xea992a22, 0xa0060b30, 0x363482c9, 0xba591112, 0x0109ab3a, 0xade79437, 0x6112a3b7)
    ensures Rounds(p, h, 40)
         == Vars(0x79ea687a, 0x6dc57a8a, 0x34df1604, 0x41a65cb1, 0x1efbc0a0, 0xf0781bc8, 0xa507a53d, 0x0772a26b)
  {
    hide Schedule, K, Rounds;
    FifthConstants();
    var v := Rounds(p, h, 32);
    v := Turn(p, h, 32, v, 0x27b70a85, 0x93f5997f, 0x98e12507, 0x9cd9f5f6);
    v := Turn(p, h, 33, v, 0x2e1b2138, 0x3b68ba73, 0xfe604df5, 0x59249dd3);
    v := Turn(p, h, 34, v, 0x4d2c6dfc, 0xaff4ffc1, 0xa9a7738c, 0x085f3833);
    v := Turn(p, h, 35, v, 0x53380d13, 0xf10a5c62, 0x65a0cfe4, 0xf4b002d6);
    v := Turn(p, h, 36, v, 0x650a7354, 0x0a8b3996, 0x41a65cb1, 0x0772a26b);
    v := Turn(p, h, 37, v, 0x766a0abb, 0x72af830a, 0x34df1604, 0xa507a53d);
    v := Turn(p, h, 38, v, 0x81c2c92e, 0x9409e33e, 0x6dc57a8a, 0xf0781bc8);
    v := Turn(p, h, 39, v, 0x92722c85, 0x24641522, 0x79ea687a, 0x1efbc0a0);
  }

  lemma SixthConstants()
    ensures Constants(40, 0xa2bfe8a1, 0xa81a664b, 0xc24b8b70, 0xc76c51a3, 0xd192e819, 0xd6990624, 0xf40e3585,
                      0x106aa070)
  {
  }

  lemma SixthRounds(p: seq<Byte>, h: Vars)
    requires |p| == 64 && Words(p, 40, 0x9f47bf94, 0xf0a64f5a, 0x3e246a79, 0x27333ba3, 0x0c4763f2, 0x840abf27,
                                0x7a290d5d, 0x065c43da)
    requires Rounds(p, h, 40)
          == Vars(0x79ea687a, 0x6dc57a8a, 0x34df1604, 0x41a65cb1, 0x1efbc0a0, 0xf0781bc8, 0xa507a53d, 0x0772a26b)
    ensures Rounds(p, h, 48)
         == Vars(0x4172328d, 0xa14c14b0, 0x72ab4b91, 0x26628815, 0xfecf0bc6, 0xd57b94a9, 0xb7755da1, 0xa80f11f0)
  {
    hide Schedule, K, Rounds;
    SixthConstants();
    var v := Rounds(p, h, 40);
    v := Turn(p, h, 40, v, 0xa2bfe8a1, 0x9f47bf94, 0xd6670766, 0x26352d63);
    v := Turn(p, h, 41, v, 0xa81a664b, 0xf0a64f5a, 0xdf46652f, 0x838b2711);
    v := Turn(p, h, 42, v, 0xc24b8b70, 0x3e246a79, 0x17aa0dfe, 0xdecd4715);
    v := Turn(p, h, 43, v, 0xc76c51a3, 0x27333ba3, 0x9d4baf93, 0xfda24c2e);
    v := Turn(p, h, 44, v, 0xd192e819, 0x0c4763f2, 0x26628815, 0xa80f11f0);
    v := Turn(p, h, 45, v, 0xd6990624, 0x840abf27, 0x72ab4b91, 0xb7755da1);
    v := Turn(p, h, 46, v, 0xf40e3585, 0x7a290d5d, 0xa14c14b0, 0xd57b94a9);
    v := Turn(p, h, 47, v, 0x106aa070, 0x065c43da, 0x4172328d, 0xfecf0bc6);
  }

  lemma SeventhConstants()
    ensures Constants(48, 0x19a4c116, 0x1e376c08, 0x2748774c, 0x34b0bcb5, 0x391c0cb3, 0x4ed8aa4a, 0x5b9cca4f,
                      0x682e6ff3)
  {
  }

  lemma SeventhRounds(p: seq<Byte>, h: Vars)
    requires |p| == 64 && Words(p, 48, 0xfb3e89cb, 0xcc7617db, 0xb9e66c34, 0xa9993667, 0x84badedd, 0xc21462bc,
                                0x1487472c, 0xb20f7a99)
    requires Rounds(p, h, 48)
          == Vars(0x4172328d, 0xa14c14b0, 0x72ab4b91, 0x26628815, 0xfecf0bc6, 0xd57b94a9, 0xb7755da1, 0xa80f11f0)
    ensures Rounds(p, h, 56)
         == Vars(0x38cc9913, 0x3ec45cdb, 0xf5702fdb, 0x101fd28f, 0x54cb266b, 0xe50e1b4f, 0x9f4787c3, 0x529e7d00)
  {
    hide Schedule, K, Rounds;
    SeventhConstants();
    var v := Rounds(p, h, 48);
    v := Turn(p, h, 48, v, 0x19a4c116, 0xfb3e89cb, 0x05757ceb, 0xbd714038);
    v := Turn(p, h, 49, v, 0x1e376c08, 0xcc7617db, 0xf11bfaa8, 0x6e5c390c);
    v := Turn(p, h, 50, v, 0x2748774c, 0xb9e66c34, 0x7a0508a1, 0x52f1ccf7);
    v := Turn(p, h, 51, v, 0x34b0bcb5, 0xa9993667, 0x886e7a22, 0x49231c1e);
    v := Turn(p, h, 52, v, 0x391c0cb3, 0x84badedd, 0x101fd28f, 0x529e7d00);
    v := Turn(p, h, 53, v, 0x4ed8aa4a, 0xc21462bc, 0xf5702fdb, 0x9f4787c3);
    v := Turn(p, h, 54, v, 0x5b9cca4f, 0x1487472c, 0x3ec45cdb, 0xe50e1b4f);
    v := Turn(p, h, 55, v, 0x682e6ff3, 0xb20f7a99, 0x38cc9913, 0x54cb266b);
  }

  lemma EighthConstants()
    ensures Constants(56, 0x748f82ee, 0x78a5636f, 0x84c87814, 0x8cc70208, 0x90befffa, 0xa4506ceb, 0xbef9a3f7,
                      0xc67178f2)
  {
  }

  lemma EighthRounds(p: seq<Byte>, h: Vars)
    requires |p| == 64 && Words(p, 56, 0xef57b9cd, 0xebe6b238, 0x9fe3095e, 0x78bc8d4b, 0xa43fcf15, 0x668b2ff8,
                                0xeeaba2cc, 0x12b1edeb)
    requires Rounds(p, h, 56)
          == Vars(0x38cc9913, 0x3ec45cdb, 0xf5702fdb, 0x101fd28f, 0x54cb266b, 0xe50e1b4f, 0x9f4787c3, 0x529e7d00)
    ensures Rounds(p, h, 64)
         == Vars(0x506e3058, 0xd39a2165, 0x04d24d6c, 0xb85e2ce9, 0x5ef50f24, 0xfb121210, 0x948d25b6, 0x961f4894)
  {
    hide Schedule, K, Rounds;
    EighthConstants();
    var v := Rounds(p, h, 56);
    v := Turn(p, h, 56, v, 0x748f82ee, 0xef57b9cd, 0xfcd1887b, 0x9b5e906c);
    v := Turn(p, h, 57, v, 0x78a5636f, 0xebe6b238, 0xc062d46f, 0x7e44008e);
    v := Turn(p, h, 58, v, 0x84c87814, 0x9fe3095e, 0xffb70472, 0x6d83bfc6);
    v := Turn(p, h, 59, v, 0x8cc70208, 0x78bc8d4b, 0xb6ae8fff, 0xb21bad3d);
    v := Turn(p, h, 60, v, 0x90befffa, 0xa43fcf15, 0xb85e2ce9, 0x961f4894);
    v := Turn(p, h, 61, v, 0xa4506ceb, 0x668b2ff8, 0x04d24d6c, 0x948d25b6);
    v := Turn(p, h, 62, v, 0xbef9a3f7, 0xeeaba2cc, 0xd39a2165, 0xfb121210);
    v := Turn(p, h, 63, v, 0xc67178f2, 0x12b1edeb, 0x506e3058, 0x5ef50f24);
  }

  // ---- The digest ---------------------------------------------------------------------

  lemma AllRounds(p: seq<Byte>, h: Vars)
    requires IsBlock(p) && h == Vars(0x6a09e667, 0xbb67ae85, 0x3c6ef372, 0xa54ff53a, 0x510e527f, 0x9b05688c,
                                     0x1f83d9ab, 0x5be0cd19)
    ensures Rounds(p, h, 64)
         == Vars(0x506e3058, 0xd39a2165, 0x04d24d6c, 0xb85e2ce9, 0x5ef50f24, 0xfb121210, 0x948d25b6, 0x961f4894)
  {
    hide Schedule, Words, Round, K;
    BlockWords(p);
    WordsFrom16(p);
    WordsFrom32(p);
    WordsFrom48(p);
    FirstRounds(p, h);
    SecondRounds(p, h);
    ThirdRounds(p, h);
    FourthRounds(p, h);
    FifthRounds(p, h);
    SixthRounds(p, h);
    SeventhRounds(p, h);
    EighthRounds(p, h);
  }

  lemma Compressed(p: seq<Byte>)
    requires IsBlock(p)
    ensures Compress(InitialHash(), p) == [0xba7816bf, 0x8f01cfea, 0x414140de, 0x5dae2223, 0xb00361a3, 0x96177a9c,
                                           0xb410ff61, 0xf20015ad]
  {
    hide Rounds;
    var h := InitialHash();
    AllRounds(p, Vars(h[0], h[1], h[2], h[3], h[4], h[5], h[6], h[7]));
  }

  lemma BitsOfAbc()
    ensures ZeroCount(3) == 52 && BitsOf(3) == 24
  {
    assert 8 * 3 % TWO_64 == 24;
  }

  lemma LengthOfAbc()
    ensures Be64(24) == [0, 0, 0, 0, 0, 0, 0, 24]
  {
  }

  lemma Padded()
    ensures IsBlock(Pad(ABC))
  {
    hide Be64, BitsOf, ZeroCount;
    BitsOfAbc();
    LengthOfAbc();
    assert Pad(ABC) == ABC + [0x80] + Zeros(52) + [0, 0, 0, 0, 0, 0, 0, 24];
  }

  lemma OneWord(h: seq<Word>, i: nat)
    requires i < |h|
    ensures DigestBytes(h[..i + 1]) == DigestBytes(h[..i]) + WordBytes(h[i]) && DigestBytes([]) == []
  {
    hide WordBytes;
    assert h[..i + 1][..i] == h[..i];
  }

  lemma Digested(h: seq<Word>)
    requires |h| == 8
    ensures DigestBytes(h) == [] + WordBytes(h[0]) + WordBytes(h[1]) + WordBytes(h[2]) + WordBytes(h[3])
                            + WordBytes(h[4]) + WordBytes(h[5]) + WordBytes(h[6]) + WordBytes(h[7])
  {
    hide WordBytes, DigestBytes;
    OneWord(h, 0);
    OneWord(h, 1);
    OneWord(h, 2);
    OneWord(h, 3);
    OneWord(h, 4);
    OneWord(h, 5);
    OneWord(h, 6);
    OneWord(h, 7);
    assert h[..0] == [] && h[..8] == h;
  }

  /** The published digest. */
  lemma HashOfAbc()
    ensures Hash(ABC) == [0xba, 0x78, 0x16, 0xbf, 0x8f, 0x01, 0xcf, 0xea, 0x41, 0x41, 0x40, 0xde, 0x5d, 0xae, 0x22,
                          0x23,
                          0xb0, 0x03, 0x61, 0xa3, 0x96, 0x17, 0x7a, 0x9c, 0xb4, 0x10, 0xff, 0x61, 0xf2, 0x00, 0x15,
                              0xad]
  {
    hide Compress, Pad, DigestBytes;
    Padded();
    var p := Pad(ABC);
    Compressed(p);
    assert p[|p| - 64..] == p && p[..|p| - 64] == [];
    Digested(Fold(p));
  }
}
