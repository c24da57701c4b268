/**
 The one-block example of FIPS 180-2 (appendix B.1): the message "abc", with every word of its schedule and every
 turn of its 64 rounds.
 */
module Sha256Example {
  import opened Arithmetic
  import opened Sha256

  const abc: seq<byte> := [0x61, 0x62, 0x63]

  // The words of the schedule.
  function W(t: nat): bv32 {
    match t
    case 0 => 0x61626380 case 1 => 0x00000000 case 2 => 0x00000000 case 3 => 0x00000000 case 4 => 0x00000000
    case 5 => 0x00000000 case 6 => 0x00000000 case 7 => 0x00000000 case 8 => 0x00000000 case 9 => 0x00000000
    case 10 => 0x00000000 case 11 => 0x00000000 case 12 => 0x00000000 case 13 => 0x00000000 case 14 => 0x00000000
    case 15 => 0x00000018 case 16 => 0x61626380 case 17 => 0x000f0000 case 18 => 0x7da86405 case 19 => 0x600003c6
    case 20 => 0x3e9d7b78 case 21 => 0x0183fc00 case 22 => 0x12dcbfdb case 23 => 0xe2e2c38e case 24 => 0xc8215c1a
    case 25 => 0xb73679a2 case 26 => 0xe5bc3909 case 27 => 0x32663c5b case 28 => 0x9d209d67 case 29 => 0xec8726cb
    case 30 => 0x702138a4 case 31 => 0xd3b7973b case 32 => 0x93f5997f case 33 => 0x3b68ba73 case 34 => 0xaff4ffc1
    case 35 => 0xf10a5c62 case 36 => 0x0a8b3996 case 37 => 0x72af830a case 38 => 0x9409e33e case 39 => 0x24641522
    case 40 => 0x9f47bf94 case 41 => 0xf0a64f5a case 42 => 0x3e246a79 case 43 => 0x27333ba3 case 44 => 0x0c4763f2
    case 45 => 0x840abf27 case 46 => 0x7a290d5d case 47 => 0x065c43da case 48 => 0xfb3e89cb case 49 => 0xcc7617db
    case 50 => 0xb9e66c34 case 51 => 0xa9993667 case 52 => 0x84badedd case 53 => 0xc21462bc case 54 => 0x1487472c
    case 55 => 0xb20f7a99 case 56 => 0xef57b9cd case 57 => 0xebe6b238 case 58 => 0x9fe3095e case 59 => 0x78bc8d4b
    case 60 => 0xa43fcf15 case 61 => 0x668b2ff8 case 62 => 0xeeaba2cc case 63 => 0x12b1edeb case _ => 0
  }

  // The registers a and e after each round; each of the others is one of these, up to three rounds later.
  function A(t: nat): bv32 {
    match t
    case 0 => 0xa54ff53a case 1 => 0x3c6ef372 case 2 => 0xbb67ae85 case 3 => 0x6a09e667 case 4 => 0x5d6aebcd
    case 5 => 0x5a6ad9ad case 6 => 0xc8c347a7 case 7 => 0xd550f666 case 8 => 0x04409a6a case 9 => 0x2b4209f5
    case 10 => 0xe5030380 case 11 => 0x85a07b5f case 12 => 0x8e04ecb9 case 13 => 0x8c87346b case 14 => 0x4798a3f4
    case 15 => 0xf71fc5a9 case 16 => 0x87912990 case 17 => 0xd932eb16 case 18 => 0xc0645fde case 19 => 0xb0fa238e
    case 20 => 0x21da9a9b case 21 => 0xc2fbd9d1 case 22 => 0xfe777bbf case 23 => 0xe1f20c33 case 24 => 0x9dc68b63
    case 25 => 0xc2606d6d case 26 => 0xa7a3623f case 27 => 0xc5d53d8d case 28 => 0x1c2c2838 case 29 => 0xcde8037d
    case 30 => 0xb62ec4bc case 31 => 0x77d37528 case 32 => 0x363482c9 case 33 => 0xa0060b30 case 34 => 0xea992a22
    case 35 => 0x73b33bf5 case 36 => 0x98e12507 case 37 => 0xfe604df5 case 38 => 0xa9a7738c case 39 => 0x65a0cfe4
    case 40 => 0x41a65cb1 case 41 => 0x34df1604 case 42 => 0x6dc57a8a case 43 => 0x79ea687a case 44 => 0xd6670766
    case 45 => 0xdf46652f case 46 => 0x17aa0dfe case 47 => 0x9d4baf93 case 48 => 0x26628815 case 49 => 0x72ab4b91
    case 50 => 0xa14c14b0 case 51 => 0x4172328d case 52 => 0x05757ceb case 53 => 0xf11bfaa8 case 54 => 0x7a0508a1
    case 55 => 0x886e7a22 case 56 => 0x101fd28f case 57 => 0xf5702fdb case 58 => 0x3ec45cdb case 59 => 0x38cc9913
    case 60 => 0xfcd1887b case 61 => 0xc062d46f case 62 => 0xffb70472 case 63 => 0xb6ae8fff case 64 => 0xb85e2ce9
    case 65 => 0x04d24d6c case 66 => 0xd39a2165 case 67 => 0x506e3058 case _ => 0
  }

  function E(t: nat): bv32 {
    match t
    case 0 => 0x5be0cd19 case 1 => 0x1f83d9ab case 2 => 0x9b05688c case 3 => 0x510e527f case 4 => 0xfa2a4622
    case 5 => 0x78ce7989 case 6 => 0xf92939eb case 7 => 0x24e00850 case 8 => 0x43ada245 case 9 => 0x714260ad
    case 10 => 0x9b27a401 case 11 => 0x0c657a79 case 12 => 0x32ca2d8c case 13 => 0x1cc92596 case 14 => 0x436b23e8
    case 15 => 0x816fd6e9 case 16 => 0x1e578218 case 17 => 0x745a48de case 18 => 0x0b92f20c case 19 => 0x07590dcd
    case 20 => 0x8034229c case 21 => 0x846ee454 case 22 => 0xcc899961 case 23 => 0xb0638179 case 24 => 0x8ada8930
    case 25 => 0xe1257970 case 26 => 0x49f5114a case 27 => 0xaa47c347 case 28 => 0x2823ef91 case 29 => 0x14383d8e
    case 30 => 0xc74c6516 case 31 => 0xedffbff8 case 32 => 0x6112a3b7 case 33 => 0xade79437 case 34 => 0x0109ab3a
    case 35 => 0xba591112 case 36 => 0x9cd9f5f6 case 37 => 0x59249dd3 case 38 => 0x085f3833 case 39 => 0xf4b002d6
    case 40 => 0x0772a26b case 41 => 0xa507a53d case 42 => 0xf0781bc8 case 43 => 0x1efbc0a0 case 44 => 0x26352d63
    case 45 => 0x838b2711 case 46 => 0xdecd4715 case 47 => 0xfda24c2e case 48 => 0xa80f11f0 case 49 => 0xb7755da1
    case 50 => 0xd57b94a9 case 51 => 0xfecf0bc6 case 52 => 0xbd714038 case 53 => 0x6e5c390c case 54 => 0x52f1ccf7
    case 55 => 0x49231c1e case 56 => 0x529e7d00 case 57 => 0x9f4787c3 case 58 => 0xe50e1b4f case 59 => 0x54cb266b
    case 60 => 0x9b5e906c case 61 => 0x7e44008e case 62 => 0x6d83bfc6 case 63 => 0xb21bad3d case 64 => 0x961f4894
    case 65 => 0x948d25b6 case 66 => 0xfb121210 case 67 => 0x5ef50f24 case _ => 0
  }

  function Registered(t: nat): Registers {
    Registers(A(t + 3), A(t + 2), A(t + 1), A(t), E(t + 3), E(t + 2), E(t + 1), E(t))
  }

  predicate Turn(t: nat) { t < 64 && Round(Registered(t), K(t), W(t)) == Registered(t + 1) }
  predicate Follows(t: nat) { t >= 16 && W(t) == NextWord(W(t - 2), W(t - 7), W(t - 15), W(t - 16)) }

  lemma Turns0(t: nat) requires 0 <= t < 4 ensures Turn(t) { }
  lemma Turns1(t: nat) requires 4 <= t < 8 ensures Turn(t) { }
  lemma Turns2(t: nat) requires 8 <= t < 12 ensures Turn(t) { }
  lemma Turns3(t: nat) requires 12 <= t < 16 ensures Turn(t) { }
  lemma Turns4(t: nat) requires 16 <= t < 20 ensures Turn(t) { }
  lemma Turns5(t: nat) requires 20 <= t < 24 ensures Turn(t) { }
  lemma Turns6(t: nat) requires 24 <= t < 28 ensures Turn(t) { }
  lemma Turns7(t: nat) requires 28 <= t < 32 ensures Turn(t) { }
  lemma Turns8(t: nat) requires 32 <= t < 36 ensures Turn(t) { }
  lemma Turns9(t: nat) requires 36 <= t < 40 ensures Turn(t) { }
  lemma Turns10(t: nat) requires 40 <= t < 44 ensures Turn(t) { }
  lemma Turns11(t: nat) requires 44 <= t < 48 ensures Turn(t) { }
  lemma Turns12(t: nat) requires 48 <= t < 52 ensures Turn(t) { }
  lemma Turns13(t: nat) requires 52 <= t < 56 ensures Turn(t) { }
  lemma Turns14(t: nat) requires 56 <= t < 60 ensures Turn(t) { }
  lemma Turns15(t: nat) requires 60 <= t < 64 ensures Turn(t) { }

  lemma Words0(t: nat) requires 16 <= t < 24 ensures Follows(t) { }
  lemma Words1(t: nat) requires 24 <= t < 32 ensures Follows(t) { }
  lemma Words2(t: nat) requires 32 <= t < 36 ensures Follows(t) { }
  lemma Words3(t: nat) requires 36 <= t < 40 ensures Follows(t) { }
  lemma Words4(t: nat) requires 40 <= t < 44 ensures Follows(t) { }
  lemma Words5(t: nat) requires 44 <= t < 48 ensures Follows(t) { }
  lemma Words6(t: nat) requires 48 <= t < 52 ensures Follows(t) { }
  lemma Words7(t: nat) requires 52 <= t < 56 ensures Follows(t) { }
  lemma Words8(t: nat) requires 56 <= t < 60 ensures Follows(t) { }
  lemma Words9(t: nat) requires 60 <= t < 64 ensures Follows(t) { }

  lemma Turns(t: nat)
    requires t < 64
    ensures Turn(t)
  {
    if t < 4 { Turns0(t); } else if t < 8 { Turns1(t); } else if t < 12 { Turns2(t); } else if t < 16 { Turns3(t); }
    else if t < 20 { Turns4(t); } else if t < 24 { Turns5(t); } else if t < 28 { Turns6(t); } else if t < 32 { Turns7(t); }
    else if t < 36 { Turns8(t); } else if t < 40 { Turns9(t); } else if t < 44 { Turns10(t); } else if t < 48 { Turns11(t); }
    else if t < 52 { Turns12(t); } else if t < 56 { Turns13(t); } else if t < 60 { Turns14(t); } else { Turns15(t); }
  }

  lemma Words(t: nat)
    requires 16 <= t < 64
    ensures Follows(t)
  {
    if t < 24 { Words0(t); } else if t < 32 { Words1(t); } else if t < 36 { Words2(t); } else if t < 40 { Words3(t); }
    else if t < 44 { Words4(t); } else if t < 48 { Words5(t); } else if t < 52 { Words6(t); } else if t < 56 { Words7(t); }
    else if t < 60 { Words8(t); } else { Words9(t); }
  }

  // The padded message.
  const block: seq<byte> := abc + [0x80] + Zeros(52) + [0, 0, 0, 0, 0, 0, 0, 24]

  lemma Padded()
    ensures |block| == 64 && PadWith(abc, 24) == block && Parse(block) == [block]
  {
    assert ZeroCount(3) == 52;
    LengthOf24();
    assert block[..64] == block;
  }

  lemma LengthOf24()
    ensures LengthField(24) == [0, 0, 0, 0, 0, 0, 0, 24]
  {
    forall j | 0 <= j < 7 ensures LengthField(24)[j] == 0 { UpperByte(7 - j); }
    LengthByte7();
  }

  lemma LengthByte7()
    ensures LengthField(24)[7] == 24
  {
    assert Pow256(0) == 1;
  }

  lemma UpperByte(k: nat)
    requires k > 0
    ensures 24 / Pow256(k) % 256 == 0
  {
    assert Pow256(k) == 256 * Pow256(k - 1);
    DivUnique(24, Pow256(k), 0, 24);
  }

  lemma Loaded(t: nat)
    requires |block| == 64 && t < 16
    ensures Word(block, t) == W(t)
  {
  }

  lemma {:induction false} Scheduled(t: nat)
    requires |block| == 64 && t < 64
    ensures Word(block, t) == W(t)
  {
    if t < 16 {
      Loaded(t);
    } else {
      Scheduled(t - 2);
      Scheduled(t - 7);
      Scheduled(t - 15);
      Scheduled(t - 16);
      Words(t);
    }
  }

  lemma {:induction false} Rounded(t: nat)
    requires |block| == 64 && t <= 64
    ensures Rounds(Registered(0), block, t) == Registered(t)
  {
    if t > 0 {
      Rounded(t - 1);
      Scheduled(t - 1);
      Turns(t - 1);
    }
  }

  const answer: seq<bv32> := [
    0xba7816bf, 0x8f01cfea, 0x414140de, 0x5dae2223, 0xb00361a3, 0x96177a9c, 0xb410ff61, 0xf20015ad
  ]

  // The hash value the standard prints.
  lemma HashOfAbc()
    ensures Sha256Of(abc) == answer
  {
    Padded();
    Rounded(64);
    LoadsUpper();
    LoadsLower();
    Fed(H0, block, Registered(64), answer);
    assert [block][..0] == [] && Digest([]) == H0;
  }

  lemma LoadsUpper()
    ensures Load(H0) == Registered(0)
    ensures Add(H0[0], A(67)) == answer[0] && Add(H0[1], A(66)) == answer[1]
    ensures Add(H0[2], A(65)) == answer[2] && Add(H0[3], A(64)) == answer[3]
  {
    assert A(67) == 0x506e3058 && A(66) == 0xd39a2165 && A(65) == 0x04d24d6c && A(64) == 0xb85e2ce9;
  }

  lemma LoadsLower()
    ensures Add(H0[4], E(67)) == answer[4] && Add(H0[5], E(66)) == answer[5]
    ensures Add(H0[6], E(65)) == answer[6] && Add(H0[7], E(64)) == answer[7]
  {
    assert E(67) == 0x5ef50f24 && E(66) == 0xfb121210 && E(65) == 0x948d25b6 && E(64) == 0x961f4894;
  }
}
