/**
 Streaming SHA-256 of model_loader.cpp against FIPS 180-4: message padding (section
 5.1.1), parsing into blocks (5.2.1) and block processing (6.2.2).
 */
module Sha256 {
  import opened Arithmetic

  type byte = bv8

  // ----- FIPS 180-4 -----

  // Section 4.2.2: the t-th prime, and the first 32 bits of the fractional part of its cube root, in four parts.
  function RoundTable0(t: nat): (nat, bv32)
    requires t < 16
  {
    match t
    case 0 => (2, 0x428a2f98) case 1 => (3, 0x71374491) case 2 => (5, 0xb5c0fbcf) case 3 => (7, 0xe9b5dba5)
    case 4 => (11, 0x3956c25b) case 5 => (13, 0x59f111f1) case 6 => (17, 0x923f82a4) case 7 => (19, 0xab1c5ed5)
    case 8 => (23, 0xd807aa98) case 9 => (29, 0x12835b01) case 10 => (31, 0x243185be) case 11 => (37, 0x550c7dc3)
    case 12 => (41, 0x72be5d74) case 13 => (43, 0x80deb1fe) case 14 => (47, 0x9bdc06a7) case 15 => (53, 0xc19bf174)
  }

  function RoundTable1(t: nat): (nat, bv32)
    requires t < 16
  {
    match t
    case 0 => (59, 0xe49b69c1) case 1 => (61, 0xefbe4786) case 2 => (67, 0x0fc19dc6) case 3 => (71, 0x240ca1cc)
    case 4 => (73, 0x2de92c6f) case 5 => (79, 0x4a7484aa) case 6 => (83, 0x5cb0a9dc) case 7 => (89, 0x76f988da)
    case 8 => (97, 0x983e5152) case 9 => (101, 0xa831c66d) case 10 => (103, 0xb00327c8) case 11 => (107, 0xbf597fc7)
    case 12 => (109, 0xc6e00bf3) case 13 => (113, 0xd5a79147) case 14 => (127, 0x06ca6351) case 15 => (131, 0x14292967)
  }

  function RoundTable2(t: nat): (nat, bv32)
    requires t < 16
  {
    match t
    case 0 => (137, 0x27b70a85) case 1 => (139, 0x2e1b2138) case 2 => (149, 0x4d2c6dfc) case 3 => (151, 0x53380d13)
    case 4 => (157, 0x650a7354) case 5 => (163, 0x766a0abb) case 6 => (167, 0x81c2c92e) case 7 => (173, 0x92722c85)
    case 8 => (179, 0xa2bfe8a1) case 9 => (181, 0xa81a664b) case 10 => (191, 0xc24b8b70) case 11 => (193, 0xc76c51a3)
    case 12 => (197, 0xd192e819) case 13 => (199, 0xd6990624) case 14 => (211, 0xf40e3585) case 15 => (223, 0x106aa070)
  }

  function RoundTable3(t: nat): (nat, bv32)
    requires t < 16
  {
    match t
    case 0 => (227, 0x19a4c116) case 1 => (229, 0x1e376c08) case 2 => (233, 0x2748774c) case 3 => (239, 0x34b0bcb5)
    case 4 => (241, 0x391c0cb3) case 5 => (251, 0x4ed8aa4a) case 6 => (257, 0x5b9cca4f) case 7 => (263, 0x682e6ff3)
    case 8 => (269, 0x748f82ee) case 9 => (271, 0x78a5636f) case 10 => (277, 0x84c87814) case 11 => (281, 0x8cc70208)
    case 12 => (283, 0x90befffa) case 13 => (293, 0xa4506ceb) case 14 => (307, 0xbef9a3f7) case 15 => (311, 0xc67178f2)
  }

  function RoundTable(t: nat): (nat, bv32)
    requires t < 64
  {
    if t < 16 then RoundTable0(t)
    else if t < 32 then RoundTable1(t - 16)
    else if t < 48 then RoundTable2(t - 32)
    else RoundTable3(t - 48)
  }

  function K(t: nat): bv32
    requires t < 64
  {
    RoundTable(t).1
  }

  // Section 5.3.3: the same of the square roots of the first eight.
  const H0: seq<bv32> := [
    0x6a09e667, 0xbb67ae85, 0x3c6ef372, 0xa54ff53a, 0x510e527f, 0x9b05688c, 0x1f83d9ab, 0x5be0cd19
  ]

  // Section 3.2: addition modulo 2^32.
  function Add(x: bv32, y: bv32): bv32 { x + y }
  function Sum(a: bv32, b: bv32, c: bv32, d: bv32): bv32 { Add(Add(Add(a, b), c), d) }
  // Section 4.1.2.
  function Ch(x: bv32, y: bv32, z: bv32): bv32 { (x & y) ^ (!x & z) }
  function Maj(x: bv32, y: bv32, z: bv32): bv32 { (x & y) ^ (x & z) ^ (y & z) }
  function BigSigma0(x: bv32): bv32 { x.RotateRight(2) ^ x.RotateRight(13) ^ x.RotateRight(22) }
  function BigSigma1(x: bv32): bv32 { x.RotateRight(6) ^ x.RotateRight(11) ^ x.RotateRight(25) }
  function SmallSigma0(x: bv32): bv32 { x.RotateRight(7) ^ x.RotateRight(18) ^ (x >> 3) }
  function SmallSigma1(x: bv32): bv32 { x.RotateRight(17) ^ x.RotateRight(19) ^ (x >> 10) }

  // Section 5.2.1: four bytes as a word, most significant first.
  function BigEndian(b0: byte, b1: byte, b2: byte, b3: byte): bv32 {
    (b0 as bv32 << 24) | (b1 as bv32 << 16) | (b2 as bv32 << 8) | b3 as bv32
  }

  function NextWord(w2: bv32, w7: bv32, w15: bv32, w16: bv32): bv32 { Sum(SmallSigma1(w2), w7, SmallSigma0(w15), w16) }

  // Section 6.2.2, step 1: the message schedule.
  function Word(block: seq<byte>, t: nat): bv32
    requires |block| == 64
  {
    if t < 16 then BigEndian(block[4 * t], block[4 * t + 1], block[4 * t + 2], block[4 * t + 3])
    else NextWord(Word(block, t - 2), Word(block, t - 7), Word(block, t - 15), Word(block, t - 16))
  }

  datatype Registers = Registers(a: bv32, b: bv32, c: bv32, d: bv32, e: bv32, f: bv32, g: bv32, h: bv32)

  // Step 3, once.
  function Round(r: Registers, k: bv32, w: bv32): Registers {
    var t1 := Add(Add(Add(Add(r.h, BigSigma1(r.e)), Ch(r.e, r.f, r.g)), k), w);
    var t2 := Add(BigSigma0(r.a), Maj(r.a, r.b, r.c));
    Registers(Add(t1, t2), r.a, r.b, r.c, Add(r.d, t1), r.e, r.f, r.g)
  }

  function Rounds(r: Registers, block: seq<byte>, t: nat): Registers
    requires |block| == 64 && t <= 64
  {
    if t == 0 then r else Round(Rounds(r, block, t - 1), K(t - 1), Word(block, t - 1))
  }

  function Load(h: seq<bv32>): Registers
    requires |h| == 8
  {
    Registers(h[0], h[1], h[2], h[3], h[4], h[5], h[6], h[7])
  }

  // Steps 2 to 4 for one block.
  function Compress(h: seq<bv32>, block: seq<byte>): (r: seq<bv32>)
    requires |h| == 8 && |block| == 64
    ensures |r| == 8
  {
    var x := Rounds(Load(h), block, 64);
    [Add(h[0], x.a), Add(h[1], x.b), Add(h[2], x.c), Add(h[3], x.d), Add(h[4], x.e), Add(h[5], x.f), Add(h[6], x.g), Add(h[7], x.h)]
  }

  predicate AllBlocks(blocks: seq<seq<byte>>) { forall i :: 0 <= i < |blocks| ==> |blocks[i]| == 64 }

  function Digest(blocks: seq<seq<byte>>): (r: seq<bv32>)
    requires AllBlocks(blocks)
    ensures |r| == 8
  {
    if blocks == [] then H0 else Compress(Digest(blocks[..|blocks| - 1]), blocks[|blocks| - 1])
  }

  function Parse(s: seq<byte>): (blocks: seq<seq<byte>>)
    ensures AllBlocks(blocks)
  {
    if |s| < 64 then [] else [s[..64]] + Parse(s[64..])
  }

  function Zeros(n: nat): seq<byte> { seq(n, _ => 0) }

  // The number of zero bytes between the 0x80 byte and the length.
  function ZeroCount(n: nat): nat { (119 - n % 64) % 64 }

  function Pow256(k: nat): (p: nat)
    ensures p > 0
  {
    if k == 0 then 1 else 256 * Pow256(k - 1)
  }

  // A number as eight bytes, most significant first.
  function LengthField(bits: nat): (s: seq<byte>)
    ensures |s| == 8
  {
    seq(8, j requires 0 <= j < 8 => (bits / Pow256(7 - j) % 256) as byte)
  }

  function PadWith(m: seq<byte>, bits: nat): seq<byte> { m + [0x80] + Zeros(ZeroCount(|m|)) + LengthField(bits) }

  // The hash value of a message.
  function Sha256Of(m: seq<byte>): seq<bv32>
    requires 8 * |m| < TWO_64
  {
    Digest(Parse(PadWith(m, 8 * |m|)))
  }

  predicate LeavesLength(n: nat, zeros: nat) { (n + 1 + zeros) % 64 == 56 }

  // Section 5.1.1: the zero bytes are the fewest that leave eight bytes of the last block.
  lemma PaddingIsLeast(n: nat)
    ensures LeavesLength(n, ZeroCount(n)) && forall j :: 0 <= j < ZeroCount(n) ==> !LeavesLength(n, j)
  {
    var q, r := n / 64, n % 64;
    assert n == 64 * q + r;
  }

  // c / 2^32 is the root of p to 32 fractional bits.
  predicate CubeRoot(p: nat, c: nat) { c * c * c <= p * 0x1_0000_0000_0000_0000_0000_0000 < (c + 1) * (c + 1) * (c + 1) }
  predicate SquareRoot(p: nat, c: nat) { c * c <= p * 0x1_0000_0000_0000_0000 < (c + 1) * (c + 1) }
  function CubeRootWhole(p: nat): nat {
    if p < 8 then 1 else if p < 27 then 2 else if p < 64 then 3 else if p < 125 then 4 else if p < 216 then 5 else 6
  }
  function SquareRootWhole(p: nat): nat { if p < 4 then 1 else if p < 9 then 2 else if p < 16 then 3 else 4 }

  predicate IsRoot(entry: (nat, bv32)) { CubeRoot(entry.0, CubeRootWhole(entry.0) * 0x1_0000_0000 + entry.1 as nat) }

  lemma Roots0(t: nat)
    requires t < 16
    ensures IsRoot(RoundTable0(t))
  {
  }

  lemma Roots1(t: nat)
    requires t < 16
    ensures IsRoot(RoundTable1(t))
  {
  }

  lemma Roots2(t: nat)
    requires t < 16
    ensures IsRoot(RoundTable2(t))
  {
  }

  lemma Roots3(t: nat)
    requires t < 16
    ensures IsRoot(RoundTable3(t))
  {
  }

  // The round constants are the cube roots of their primes, and the initial values square roots of the first eight.
  lemma RoundConstants(t: nat)
    requires t < 64
    ensures IsRoot(RoundTable(t))
  {
    if t < 16 { Roots0(t); } else if t < 32 { Roots1(t - 16); } else if t < 48 { Roots2(t - 32); } else { Roots3(t - 48); }
  }

  lemma InitialValues(i: nat)
    requires i < 8
    ensures SquareRoot(RoundTable(i).0, SquareRootWhole(RoundTable(i).0) * 0x1_0000_0000 + H0[i] as nat)
  {
  }

  // The word of four bytes, as a number.
  lemma WordIsPositional(b0: byte, b1: byte, b2: byte, b3: byte)
    ensures BigEndian(b0, b1, b2, b3) as nat
            == b0 as nat * 0x100_0000 + b1 as nat * 0x1_0000 + b2 as nat * 0x100 + b3 as nat
  {
    UpperBytes(b0, b1);
    var upper := (b0 as bv32 << 24) | (b1 as bv32 << 16);
    assert upper & 0xffff == 0;
    ThirdByte(upper, b2);
    assert (upper | (b2 as bv32 << 8)) & 0xff == 0;
    LastByte(upper | (b2 as bv32 << 8), b3);
  }

  lemma UpperBytes(b0: byte, b1: byte)
    ensures ((b0 as bv32 << 24) | (b1 as bv32 << 16)) as nat == b0 as nat * 0x100_0000 + b1 as nat * 0x1_0000
  {
  }

  lemma ThirdByte(upper: bv32, b: byte)
    requires upper & 0xffff == 0
    ensures (upper | (b as bv32 << 8)) as nat == upper as nat + b as nat * 0x100
  {
  }

  lemma LastByte(upper: bv32, b: byte)
    requires upper & 0xff == 0
    ensures (upper | (b as bv32)) as nat == upper as nat + b as nat
  {
  }

  // Additions lose the carry out of the word, and nothing else.
  lemma AddsModulo(x: bv32, y: bv32)
    ensures Add(x, y) as bv64 == (x as bv64 + y as bv64) & 0xffff_ffff
  {
  }

  // The bits of x that the mask m selects are all ones, or all zeros.
  predicate Ones(x: bv32, m: bv32) { m & x == m }
  predicate None(x: bv32, m: bv32) { m & x == 0 }

  // Ch takes its bits from y where x has ones and from z where it has zeros.
  lemma ChChooses(x: bv32, y: bv32, z: bv32, m: bv32)
    ensures Ones(x, m) ==> Ch(x, y, z) & m == y & m
    ensures None(x, m) ==> Ch(x, y, z) & m == z & m
  {
  }

  // Maj has the bits on which at least two of the three agree.
  lemma MajIsMajority(x: bv32, y: bv32, z: bv32, m: bv32)
    ensures TwoOf(Ones(x, m), Ones(y, m), Ones(z, m)) ==> Ones(Maj(x, y, z), m)
    ensures TwoOf(None(x, m), None(y, m), None(z, m)) ==> None(Maj(x, y, z), m)
  {
    if TwoOf(Ones(x, m), Ones(y, m), Ones(z, m)) { MajOnes(x, y, z, m); }
    if TwoOf(None(x, m), None(y, m), None(z, m)) { MajZeros(x, y, z, m); }
  }

  predicate TwoOf(x: bool, y: bool, z: bool) { (x && y) || (y && z) || (z && x) }

  lemma MajOnes(x: bv32, y: bv32, z: bv32, m: bv32)
    requires TwoOf(Ones(x, m), Ones(y, m), Ones(z, m))
    ensures Ones(Maj(x, y, z), m)
  {
    MajTurns(x, y, z);
    MajTurns(y, z, x);
    if !Ones(x, m) { TwoOnes(y, z, x, m); } else if Ones(y, m) { TwoOnes(x, y, z, m); } else { TwoOnes(z, x, y, m); }
  }

  lemma MajZeros(x: bv32, y: bv32, z: bv32, m: bv32)
    requires TwoOf(None(x, m), None(y, m), None(z, m))
    ensures None(Maj(x, y, z), m)
  {
    MajTurns(x, y, z);
    MajTurns(y, z, x);
    if !None(x, m) { TwoZeros(y, z, x, m); } else if None(y, m) { TwoZeros(x, y, z, m); } else { TwoZeros(z, x, y, m); }
  }

  lemma MajTurns(x: bv32, y: bv32, z: bv32)
    ensures Maj(x, y, z) == Maj(y, z, x)
  {
  }

  lemma TwoOnes(x: bv32, y: bv32, z: bv32, m: bv32)
    requires Ones(x, m) && Ones(y, m)
    ensures Ones(Maj(x, y, z), m)
  {
  }

  lemma TwoZeros(x: bv32, y: bv32, z: bv32, m: bv32)
    requires None(x, m) && None(y, m)
    ensures None(Maj(x, y, z), m)
  {
  }

  // The number that the first k of its bytes write, the most significant byte first.
  function Number(s: seq<byte>, k: nat): nat
    requires k <= |s|
  {
    if k == 0 then 0 else Number(s, k - 1) * 256 + s[k - 1] as nat
  }

  // The length field reads back as the number it was made from.
  lemma LengthReadsBack(bits: nat)
    requires bits < TWO_64
    ensures Number(LengthField(bits), 8) == bits
  {
    var s := LengthField(bits);
    forall j | 0 <= j < 8 ensures HasByte(s, bits, j) { LengthByte(bits, j); }
    LengthUpTo(s, bits, 8);
    assert Pow256(0) == 1;
  }

  predicate HasByte(s: seq<byte>, bits: nat, j: nat) {
    j < 8 <= |s| && s[j] as nat == bits / Pow256(7 - j) % 256 % 256
  }

  lemma {:induction false} LengthUpTo(s: seq<byte>, bits: nat, k: nat)
    requires bits < TWO_64 && k <= 8 == |s| && forall j :: 0 <= j < 8 ==> HasByte(s, bits, j)
    ensures Number(s, k) == bits / Pow256(8 - k)
  {
    if k == 0 {
      EightBytes();
      DivUnique(bits, Pow256(8), 0, bits);
    } else {
      LengthUpTo(s, bits, k - 1);
      assert HasByte(s, bits, k - 1);
      assert Pow256(8 - (k - 1)) == 256 * Pow256(8 - k);
      NextByte(bits, Pow256(8 - k), Number(s, k - 1), s[k - 1] as nat);
    }
  }

  lemma EightBytes()
    ensures Pow256(8) == TWO_64
  {
    assert Pow256(4) == 0x1_0000_0000;
  }

  lemma LengthByte(bits: nat, j: nat)
    requires j < 8
    ensures HasByte(LengthField(bits), bits, j)
  {
    ByteReadsBack(bits / Pow256(7 - j) % 256);
  }

  lemma NextByte(n: nat, p: nat, upper: nat, byte: nat)
    requires p > 0 && upper == n / (256 * p) && byte == n / p % 256 % 256
    ensures upper * 256 + byte == n / p
  {
    var q, r, t := n / p / 256, n / p % 256, n % p;
    DivUnique(n, p, n / p, t);
    Regroup(q, r, p, t);
    MulLe(r + 1, 256, p);
    DivUnique(n, 256 * p, q, r * p + t);
  }

  lemma Regroup(q: nat, r: nat, p: nat, t: nat)
    ensures (256 * q + r) * p + t == q * (256 * p) + (r * p + t)
    ensures r * p + p == (r + 1) * p
  {
  }

  // ----- blocks and messages -----

  function Concat(blocks: seq<seq<byte>>): seq<byte> { if blocks == [] then [] else blocks[0] + Concat(blocks[1..]) }

  lemma {:induction false} ConcatSnoc(blocks: seq<seq<byte>>, last: seq<byte>)
    ensures Concat(blocks + [last]) == Concat(blocks) + last
  {
    if blocks == [] {
      assert Concat([last]) == last + Concat([last][1..]);
    } else {
      ConcatSnoc(blocks[1..], last);
      assert (blocks + [last])[1..] == blocks[1..] + [last];
      assert blocks[0] + (Concat(blocks[1..]) + last) == (blocks[0] + Concat(blocks[1..])) + last;
    }
  }

  lemma {:induction false} ParseConcat(blocks: seq<seq<byte>>)
    requires AllBlocks(blocks)
    ensures Parse(Concat(blocks)) == blocks && |Concat(blocks)| == 64 * |blocks|
  {
    if blocks != [] {
      ParseConcat(blocks[1..]);
      var s := Concat(blocks);
      assert s[..64] == blocks[0] && s[64..] == Concat(blocks[1..]);
    }
  }

  // `part` is what remains of `m` after its whole blocks.
  ghost predicate SplitsInto(m: seq<byte>, blocks: seq<seq<byte>>, part: seq<byte>) {
    AllBlocks(blocks) && m == Concat(blocks) + part && |part| < 64
  }

  lemma SplitSize(m: seq<byte>, blocks: seq<seq<byte>>, part: seq<byte>)
    requires SplitsInto(m, blocks, part)
    ensures |m| % 64 == |part|
  {
    ParseConcat(blocks);
  }

  lemma OneMoreBlock(blocks: seq<seq<byte>>, last: seq<byte>)
    requires AllBlocks(blocks) && |last| == 64
    ensures Parse(Concat(blocks) + last) == blocks + [last] && Concat(blocks) + last == Concat(blocks + [last])
  {
    ConcatSnoc(blocks, last);
    ParseConcat(blocks + [last]);
  }

  // The last block of a padded message whose remainder leaves room for the length.
  lemma ShortTail(m: seq<byte>, blocks: seq<seq<byte>>, part: seq<byte>, bits: nat)
    requires SplitsInto(m, blocks, part) && |part| < 56
    ensures Parse(PadWith(m, bits)) == blocks + [part + [0x80] + Zeros(55 - |part|) + LengthField(bits)]
  {
    SplitSize(m, blocks, part);
    var zeros, length := Zeros(55 - |part|), LengthField(bits);
    assert ZeroCount(|m|) == 55 - |part|;
    var last := part + [0x80] + zeros + length;
    OneMoreBlock(blocks, last);
    Associate(Concat(blocks), part, [0x80], zeros, length);
  }

  // The last two blocks of one whose remainder does not.
  lemma LongTail(m: seq<byte>, blocks: seq<seq<byte>>, part: seq<byte>, bits: nat)
    requires SplitsInto(m, blocks, part) && |part| >= 56
    ensures Parse(PadWith(m, bits)) == blocks + [part + [0x80] + Zeros(63 - |part|)] + [Zeros(56) + LengthField(bits)]
  {
    SplitSize(m, blocks, part);
    var zeros, length := Zeros(63 - |part|), LengthField(bits);
    assert ZeroCount(|m|) == 119 - |part|;
    assert Zeros(119 - |part|) == zeros + Zeros(56);
    var first, last := part + [0x80] + zeros, Zeros(56) + length;
    OneMoreBlock(blocks, first);
    OneMoreBlock(blocks + [first], last);
    Associate(Concat(blocks), part, [0x80], zeros, Zeros(56) + length);
    assert m + [0x80] + (zeros + Zeros(56)) + length == m + [0x80] + zeros + (Zeros(56) + length);
    assert Concat(blocks) + (part + [0x80] + zeros + last) == Concat(blocks) + first + last;
  }

  // Both cases, as FinalHex leaves them: the blocks it has closed, and the first 56 bytes of the last.
  lemma PaddedBlocks(m: seq<byte>, blocks: seq<seq<byte>>, part: seq<byte>, bits: nat, closed: seq<seq<byte>>, upper: seq<byte>)
    requires SplitsInto(m, blocks, part)
    requires |part| < 56 ==> closed == blocks && upper == part + [0x80] + Zeros(55 - |part|)
    requires |part| >= 56 ==> closed == blocks + [part + [0x80] + Zeros(63 - |part|)] && upper == Zeros(56)
    ensures Parse(PadWith(m, bits)) == closed + [upper + LengthField(bits)]
  {
    if |part| < 56 { ShortTail(m, blocks, part, bits); } else { LongTail(m, blocks, part, bits); }
  }

  lemma Associate(a: seq<byte>, b: seq<byte>, c: seq<byte>, d: seq<byte>, e: seq<byte>)
    ensures a + b + c + d + e == a + (b + c + d + e)
  {
  }

  // ----- the code's arithmetic -----

  // RotateRight is inlined: a rotation is two shifts.
  function CodeSmall0(x: bv32): bv32 { ((x >> 7) | (x << 25)) ^ ((x >> 18) | (x << 14)) ^ (x >> 3) }
  function CodeSmall1(x: bv32): bv32 { ((x >> 17) | (x << 15)) ^ ((x >> 19) | (x << 13)) ^ (x >> 10) }
  function CodeBig0(x: bv32): bv32 { ((x >> 2) | (x << 30)) ^ ((x >> 13) | (x << 19)) ^ ((x >> 22) | (x << 10)) }
  function CodeBig1(x: bv32): bv32 { ((x >> 6) | (x << 26)) ^ ((x >> 11) | (x << 21)) ^ ((x >> 25) | (x << 7)) }

  lemma Rotations(x: bv32)
    ensures CodeSmall0(x) == SmallSigma0(x) && CodeSmall1(x) == SmallSigma1(x)
    ensures CodeBig0(x) == BigSigma0(x) && CodeBig1(x) == BigSigma1(x)
  {
  }

  lemma SumOrder(a: bv32, b: bv32, c: bv32, d: bv32)
    ensures Sum(a, b, c, d) == Sum(d, c, b, a)
  {
    AddCommutes(Add(Add(a, b), c), d);
    AddCommutes(Add(a, b), c);
    AddCommutes(a, b);
    AddAssociates(d, c, Add(b, a));
    AddAssociates(Add(d, c), b, a);
  }

  lemma AddCommutes(x: bv32, y: bv32)
    ensures Add(x, y) == Add(y, x)
  {
  }

  lemma AddAssociates(x: bv32, y: bv32, z: bv32)
    ensures Add(x, Add(y, z)) == Add(Add(x, y), z)
  {
    assert x + (y + z) == (x + y) + z;
    assert Add(y, z) == y + z && Add(x, y) == x + y;
    assert Add(x, y + z) == x + (y + z) && Add(x + y, z) == (x + y) + z;
  }

  // The body of the schedule loop.
  method ScheduleStep(w2: bv32, w7: bv32, w15: bv32, w16: bv32) returns (w: bv32)
    ensures w == NextWord(w2, w7, w15, w16)
  {
    Rotations(w15);
    Rotations(w2);
    var s0 := CodeSmall0(w15);
    var s1 := CodeSmall1(w2);
    SumOrder(w16, s0, w7, s1);
    w := Sum(w16, s0, w7, s1);
  }

  // The first two loops of Transform.
  method Schedule(block: seq<byte>) returns (words: array<bv32>)
    requires |block| == 64
    ensures fresh(words) && words.Length == 64 && forall t :: 0 <= t < 64 ==> words[t] == Word(block, t)
  {
    words := new bv32[64];
    var index := 0;
    while index < 16
      invariant 0 <= index <= 16
      invariant forall t :: 0 <= t < index ==> words[t] == Word(block, t)
    {
      var offset := index * 4;
      words[index] := BigEndian(block[offset], block[offset + 1], block[offset + 2], block[offset + 3]);
      index := index + 1;
    }
    while index < 64
      invariant 16 <= index <= 64
      invariant forall t :: 0 <= t < index ==> words[t] == Word(block, t)
    {
      var w := ScheduleStep(words[index - 2], words[index - 7], words[index - 15], words[index - 16]);
      words[index] := w;
      index := index + 1;
    }
  }

  // One turn of the round loop.
  method RoundStep(r: Registers, k: bv32, w: bv32) returns (next: Registers)
    ensures next == Round(r, k, w)
  {
    Rotations(r.a);
    Rotations(r.e);
    var a, b, c, d, e, f, g, h := r.a, r.b, r.c, r.d, r.e, r.f, r.g, r.h;
    var sum1 := CodeBig1(e);
    var choose := Ch(e, f, g);
    var temp1 := Add(Add(Add(Add(h, sum1), choose), k), w);
    var sum0 := CodeBig0(a);
    var majority := Maj(a, b, c);
    var temp2 := Add(sum0, majority);
    h := g;
    g := f;
    f := e;
    e := Add(d, temp1);
    d := c;
    c := b;
    b := a;
    a := Add(temp1, temp2);
    next := Registers(a, b, c, d, e, f, g, h);
  }

  // The round loop of Transform.
  method RunRounds(h: seq<bv32>, block: seq<byte>) returns (r: Registers)
    requires |h| == 8 && |block| == 64
    ensures r == Rounds(Load(h), block, 64)
  {
    var words := Schedule(block);
    r := Load(h);
    var index := 0;
    while index < 64
      invariant 0 <= index <= 64
      invariant r == Rounds(Load(h), block, index)
      invariant forall t :: 0 <= t < 64 ==> words[t] == Word(block, t)
    {
      r := RoundStep(r, K(index), words[index]);
      index := index + 1;
    }
  }

  lemma Fed(h: seq<bv32>, block: seq<byte>, r: Registers, after: seq<bv32>)
    requires |h| == 8 && |block| == 64 && r == Rounds(Load(h), block, 64) && |after| == 8
    requires after[0] == Add(h[0], r.a) && after[1] == Add(h[1], r.b) && after[2] == Add(h[2], r.c)
    requires after[3] == Add(h[3], r.d) && after[4] == Add(h[4], r.e) && after[5] == Add(h[5], r.f)
    requires after[6] == Add(h[6], r.g) && after[7] == Add(h[7], r.h)
    ensures after == Compress(h, block)
  {
  }

  lemma Grow(m: seq<byte>, blocks: seq<seq<byte>>, part: seq<byte>, more: seq<byte>)
    requires SplitsInto(m, blocks, part) && |part| + |more| <= 64
    ensures |part| + |more| < 64 ==> SplitsInto(m + more, blocks, part + more)
    ensures |part| + |more| == 64 ==> SplitsInto(m + more, blocks + [part + more], [])
  {
    assert Concat(blocks) + part + more == Concat(blocks) + (part + more);
    ConcatSnoc(blocks, part + more);
    assert Concat(blocks + [part + more]) + [] == Concat(blocks + [part + more]);
  }

  lemma ExactLength(m: seq<byte>)
    requires 8 * |m| < TWO_64
    ensures Digest(Parse(PadWith(m, 8 * |m| % TWO_64))) == Sha256Of(m)
  {
    assert 8 * |m| % TWO_64 == 8 * |m|;
  }

  lemma CountWraps(n: nat, k: nat)
    ensures (n % TWO_64 + k) % TWO_64 == (n + k) % TWO_64
  {
  }

  lemma BitsWrap(n: nat)
    ensures n % TWO_64 * 8 % TWO_64 == 8 * n % TWO_64
  {
    var q, r := n / TWO_64, n % TWO_64;
    DivUnique(8 * n, TWO_64, 8 * q + 8 * r / TWO_64, 8 * r % TWO_64);
  }

  // The streaming part does not look inside the compression function: it works on any `step`, of which
  // IsCompress is used only where Applied is mentioned.
  type BlockStep = (seq<bv32>, seq<byte>) -> seq<bv32>

  predicate Applied(h: seq<bv32>, block: seq<byte>) { |h| == 8 && |block| == 64 }

  ghost predicate IsCompress(step: BlockStep) {
    && (forall h, b :: |h| == 8 && |b| == 64 ==> |step(h, b)| == 8)
    && (forall h, b {:trigger Applied(h, b)} :: Applied(h, b) ==> step(h, b) == Compress(h, b))
  }

  ghost function Chain(step: BlockStep, blocks: seq<seq<byte>>): seq<bv32> {
    if blocks == [] then H0 else step(Chain(step, blocks[..|blocks| - 1]), blocks[|blocks| - 1])
  }

  lemma ChainSnoc(step: BlockStep, blocks: seq<seq<byte>>, last: seq<byte>)
    ensures Chain(step, blocks + [last]) == step(Chain(step, blocks), last)
  {
  }

  lemma {:induction false} ChainIsDigest(step: BlockStep, blocks: seq<seq<byte>>)
    requires IsCompress(step) && AllBlocks(blocks)
    ensures Chain(step, blocks) == Digest(blocks)
  {
    if blocks != [] {
      ChainIsDigest(step, blocks[..|blocks| - 1]);
      assert Applied(Digest(blocks[..|blocks| - 1]), blocks[|blocks| - 1]);
    }
  }

  // ----- hexadecimal -----

  function HexDigit(d: bv4): char {
    match d
    case 0 => '0' case 1 => '1' case 2 => '2' case 3 => '3' case 4 => '4' case 5 => '5' case 6 => '6' case 7 => '7'
    case 8 => '8' case 9 => '9' case 10 => 'a' case 11 => 'b' case 12 => 'c' case 13 => 'd' case 14 => 'e' case _ => 'f'
  }

  lemma DigitInOrder(d: bv4)
    ensures HexDigit(d) == "0123456789abcdef"[d as nat]
  {
  }

  // A word as eight digits, highest first.
  function HexWord(w: bv32): (s: string)
    ensures |s| == 8
  {
    [HexDigit((w >> 28) as bv4), HexDigit(((w >> 24) & 0xf) as bv4), HexDigit(((w >> 20) & 0xf) as bv4),
     HexDigit(((w >> 16) & 0xf) as bv4), HexDigit(((w >> 12) & 0xf) as bv4), HexDigit(((w >> 8) & 0xf) as bv4),
     HexDigit(((w >> 4) & 0xf) as bv4), HexDigit((w & 0xf) as bv4)]
  }

  function Hex(words: seq<bv32>): (s: string)
    ensures |s| == 8 * |words|
  {
    if words == [] then "" else Hex(words[..|words| - 1]) + HexWord(words[|words| - 1])
  }

  // The word whose nibbles these are.
  function Join(n7: bv4, n6: bv4, n5: bv4, n4: bv4, n3: bv4, n2: bv4, n1: bv4, n0: bv4): bv32 {
    (n7 as bv32 << 28) | (n6 as bv32 << 24) | (n5 as bv32 << 20) | (n4 as bv32 << 16)
    | (n3 as bv32 << 12) | (n2 as bv32 << 8) | (n1 as bv32 << 4) | n0 as bv32
  }

  // Every nibble prints in its place, the highest first.
  lemma HexIsPositional(n7: bv4, n6: bv4, n5: bv4, n4: bv4, n3: bv4, n2: bv4, n1: bv4, n0: bv4)
    ensures HexWord(Join(n7, n6, n5, n4, n3, n2, n1, n0))
            == [HexDigit(n7), HexDigit(n6), HexDigit(n5), HexDigit(n4), HexDigit(n3), HexDigit(n2), HexDigit(n1), HexDigit(n0)]
  {
  }

  // ValidSha256: what a manifest may state as a digest.
  predicate LowerHex(c: char) { '0' <= c <= '9' || 'a' <= c <= 'f' }
  predicate AllLowerHex(s: string) { forall i :: 0 <= i < |s| ==> LowerHex(s[i]) }
  predicate ValidSha256(s: string) { |s| == 64 && AllLowerHex(s) }

  lemma DigitIsHex(d: bv4)
    ensures LowerHex(HexDigit(d))
  {
  }

  lemma WordIsHex(w: bv32)
    ensures AllLowerHex(HexWord(w))
  {
    DigitIsHex((w >> 28) as bv4);
    DigitIsHex(((w >> 24) & 0xf) as bv4);
    DigitIsHex(((w >> 20) & 0xf) as bv4);
    DigitIsHex(((w >> 16) & 0xf) as bv4);
    DigitIsHex(((w >> 12) & 0xf) as bv4);
    DigitIsHex(((w >> 8) & 0xf) as bv4);
    DigitIsHex(((w >> 4) & 0xf) as bv4);
    DigitIsHex((w & 0xf) as bv4);
  }

  lemma {:induction false} HexShape(words: seq<bv32>)
    ensures AllLowerHex(Hex(words))
  {
    if words != [] {
      HexShape(words[..|words| - 1]);
      WordIsHex(words[|words| - 1]);
    }
  }

  class Hasher {
    const state: array<bv32>
    const block: array<byte>
    var blockSize: nat
    var totalBytes: nat
    ghost const step: BlockStep
    // The message so far, cut into whole blocks and the part in `block`.
    ghost var message: seq<byte>
    ghost var blocks: seq<seq<byte>>

    ghost predicate Shaped()
      reads this
    {
      state.Length == 8 && block.Length == 64 && IsCompress(step)
    }

    ghost predicate Valid()
      reads this, state, block
    {
      && Shaped() && blockSize < 64 && SplitsInto(message, blocks, block[..blockSize])
      && state[..] == Chain(step, blocks) && totalBytes == |message| % TWO_64
    }

    constructor ()
      ensures Valid() && message == [] && fresh(state) && fresh(block)
    {
      state := new bv32[8](i requires 0 <= i < 8 => H0[i]);
      block := new byte[64](_ => 0);
      blockSize, totalBytes, message, blocks := 0, 0, [], [];
      step := (h, b) => if |h| == 8 && |b| == 64 then Compress(h, b) else h;
      new;
      assert state[..] == H0;
    }

    method Transform()
      requires Shaped()
      modifies state
      ensures state[..] == step(old(state[..]), block[..])
    {
      ghost var h := state[..];
      var r := RunRounds(state[..], block[..]);
      AddRegisters(r);
      Fed(h, block[..], r, state[..]);
      assert Applied(h, block[..]);
    }

    method AddRegisters(r: Registers)
      requires state.Length == 8
      modifies state
      ensures state[0] == Add(old(state[0]), r.a) && state[1] == Add(old(state[1]), r.b)
      ensures state[2] == Add(old(state[2]), r.c) && state[3] == Add(old(state[3]), r.d)
      ensures state[4] == Add(old(state[4]), r.e) && state[5] == Add(old(state[5]), r.f)
      ensures state[6] == Add(old(state[6]), r.g) && state[7] == Add(old(state[7]), r.h)
    {
      state[0] := Add(state[0], r.a);
      state[1] := Add(state[1], r.b);
      state[2] := Add(state[2], r.c);
      state[3] := Add(state[3], r.d);
      state[4] := Add(state[4], r.e);
      state[5] := Add(state[5], r.f);
      state[6] := Add(state[6], r.g);
      state[7] := Add(state[7], r.h);
    }

    // Everything Valid says but the byte count.
    ghost predicate Tracks()
      reads this, state, block
    {
      Shaped() && blockSize < 64 && SplitsInto(message, blocks, block[..blockSize]) && state[..] == Chain(step, blocks)
    }

    // std::copy_n into the block.
    method CopyIn(part: seq<byte>)
      requires Shaped() && blockSize + |part| <= 64
      modifies block
      ensures block[..blockSize + |part|] == old(block[..blockSize]) + part
    {
      forall k | 0 <= k < |part| { block[blockSize + k] := part[k]; }
    }

    // One turn of the loop of Update: bytes that fit the block, and the block's end when it is full.
    method Take(part: seq<byte>)
      requires Tracks() && blockSize + |part| <= 64
      modifies this`blockSize, this`message, this`blocks, state, block
      ensures Tracks() && message == old(message) + part
    {
      Grow(message, blocks, block[..blockSize], part);
      CopyIn(part);
      blockSize := blockSize + |part|;
      message := message + part;
      if blockSize == 64 {
        ghost var full := block[..blockSize];
        assert block[..] == full;
        Transform();
        ChainSnoc(step, blocks, full);
        blocks := blocks + [full];
        blockSize := 0;
        assert block[..0] == [];
      }
    }

    // The loop of Update.
    method Feed(data: seq<byte>)
      requires Tracks()
      modifies this`blockSize, this`message, this`blocks, state, block
      ensures Tracks() && message == old(message) + data
    {
      var at: nat := 0;
      assert data[..0] == [] && message + [] == message;
      while at < |data|
        invariant at <= |data| && Tracks() && message == old(message) + data[..at]
      {
        var copy: nat := if |data| - at < 64 - blockSize then |data| - at else 64 - blockSize;
        var part := data[at..at + copy];
        Take(part);
        assert data[..at + copy] == data[..at] + part;
        at := at + copy;
      }
      assert data[..at] == data;
    }

    method Update(data: seq<byte>)
      requires Valid()
      modifies this`blockSize, this`totalBytes, this`message, this`blocks, state, block
      ensures Valid() && message == old(message) + data
    {
      CountWraps(|message|, |data|);
      totalBytes := (totalBytes + |data|) % TWO_64;
      Feed(data);
    }

    method Fill(from: nat, to: nat)
      requires Shaped() && from <= to <= 64
      modifies block
      ensures block[..] == old(block[..from]) + Zeros(to - from) + old(block[to..])
    {
      forall k | from <= k < to { block[k] := 0; }
    }

    method PutLength(bits: nat)
      requires Shaped()
      modifies block
      ensures block[..] == old(block[..56]) + LengthField(bits)
    {
      var index := 0;
      while index < 8
        invariant 0 <= index <= 8
        invariant forall k :: 0 <= k < 64 - index ==> block[k] == old(block[k])
        invariant forall k :: 64 - index <= k < 64 ==> block[k] == LengthField(bits)[k - 56]
      {
        block[63 - index] := (bits / Pow256(index) % 256) as byte;
        index := index + 1;
      }
    }

    // The rest of the block as zeros, when the length does not fit it.
    method EndBlock()
      requires Shaped() && 56 < blockSize <= 64 && AllBlocks(blocks) && state[..] == Chain(step, blocks)
      modifies this`blockSize, this`blocks, state, block
      ensures Shaped() && blockSize == 0 && AllBlocks(blocks) && state[..] == Chain(step, blocks)
      ensures blocks == old(blocks) + [old(block[..blockSize]) + Zeros(64 - old(blockSize))]
    {
      ghost var part := block[..blockSize];
      Fill(blockSize, 64);
      ghost var full := part + Zeros(64 - |part|);
      assert block[..] == full;
      Transform();
      ChainSnoc(step, blocks, full);
      blocks := blocks + [full];
      blockSize := 0;
    }

    // The 0x80 byte, and the zeros up to the length field, with one block more when the remainder leaves no room.
    method PutZeros()
      requires Tracks()
      modifies this`blockSize, this`blocks, state, block
      ensures Shaped() && AllBlocks(blocks) && state[..] == Chain(step, blocks)
      ensures old(blockSize) < 56 ==>
                blocks == old(blocks) && block[..56] == old(block[..blockSize]) + [0x80] + Zeros(55 - old(blockSize))
      ensures old(blockSize) >= 56 ==>
                && blocks == old(blocks) + [old(block[..blockSize]) + [0x80] + Zeros(63 - old(blockSize))]
                && block[..56] == Zeros(56)
    {
      ghost var part := block[..blockSize];
      block[blockSize] := 0x80;
      blockSize := blockSize + 1;
      assert block[..blockSize] == part + [0x80];
      if blockSize > 56 { EndBlock(); }
      ghost var kept := block[..blockSize];
      Fill(blockSize, 56);
      assert block[..56] == kept + Zeros(56 - |kept|);
    }

    // The padding written by FinalHex.
    method Finish(bits: nat)
      requires Tracks()
      modifies this`blockSize, this`blocks, state, block
      ensures Shaped() && state[..] == Chain(step, Parse(PadWith(message, bits)))
    {
      ghost var part, whole := block[..blockSize], blocks;
      PutZeros();
      ghost var upper := block[..56];
      PutLength(bits);
      PaddedBlocks(message, whole, part, bits, blocks, upper);
      ghost var last := block[..];
      Transform();
      ChainSnoc(step, blocks, last);
    }

    // The hash of everything fed, in lower-case hexadecimal.  The byte counter wraps, so the length field is exact
    // for messages of fewer than 2^61 bytes, which are the ones the standard defines.
    method FinalHex() returns (hex: string)
      requires Valid()
      modifies this`blockSize, this`blocks, state, block
      ensures hex == Hex(Digest(Parse(PadWith(message, 8 * |message| % TWO_64))))
      ensures 8 * |message| < TWO_64 ==> hex == Hex(Sha256Of(message))
      ensures ValidSha256(hex)
    {
      BitsWrap(|message|);
      Finish(totalBytes * 8 % TWO_64);
      ChainIsDigest(step, Parse(PadWith(message, 8 * |message| % TWO_64)));
      if 8 * |message| < TWO_64 { ExactLength(message); }
      hex := Print(state[..]);
      HexShape(state[..]);
    }
  }

  method Print(words: seq<bv32>) returns (hex: string)
    ensures hex == Hex(words)
  {
    hex := "";
    var i := 0;
    while i < |words|
      invariant 0 <= i <= |words|
      invariant hex == Hex(words[..i])
    {
      assert words[..i + 1][..i] == words[..i];
      hex := hex + HexWord(words[i]);
      i := i + 1;
    }
    assert words[..i] == words;
  }
}
