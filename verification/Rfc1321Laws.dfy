/** What the four boolean functions and the rotation of RFC 1321 do to the bits of a word, whatever the words, and what a
    padded message is, whatever the message.
    Statements about bits are made for every set `m` of bit positions, given as a word with a 1 at each of them. */
module Rfc1321Laws {
  import opened SwitchTypes
  import opened LittleEndian
  import opened Rfc1321

  predicate AllOnes(x: bv32, m: bv32) {
    x & m == m
  }

  predicate AllZeros(x: bv32, m: bv32) {
    x & m == 0
  }

  predicate Agree(x: bv32, y: bv32, m: bv32) {
    x & m == y & m
  }

  predicate Differ(x: bv32, y: bv32, m: bv32) {
    AllOnes(x ^ y, m)
  }

  lemma BitsOfWord(b: bv32)
    ensures Bits(WordOf(b)) == b
  {
  }

  // ----- The boolean functions (section 3.4) -----

  lemma FBitsSelect(x: bv32, y: bv32, z: bv32, m: bv32)
    ensures AllOnes(x, m) ==> Agree(FBits(x, y, z), y, m)
    ensures AllZeros(x, m) ==> Agree(FBits(x, y, z), z, m)
  {
  }

  lemma GBitsSelect(x: bv32, y: bv32, z: bv32, m: bv32)
    ensures AllOnes(z, m) ==> Agree(GBits(x, y, z), x, m)
    ensures AllZeros(z, m) ==> Agree(GBits(x, y, z), y, m)
  {
  }

  lemma HBitsParity(x: bv32, y: bv32, z: bv32, m: bv32)
    ensures Agree(x, y, m) ==> Agree(HBits(x, y, z), z, m)
    ensures Differ(x, y, m) ==> Differ(HBits(x, y, z), z, m)
  {
  }

  lemma IBitsFlipByX(x: bv32, y: bv32, z: bv32, m: bv32)
    requires AllOnes(x, m)
    ensures Differ(IBits(x, y, z), y, m)
  {
  }

  lemma IBitsFlipByZ(x: bv32, y: bv32, z: bv32, m: bv32)
    requires AllZeros(z, m)
    ensures Differ(IBits(x, y, z), y, m)
  {
  }

  lemma IBitsKeep(x: bv32, y: bv32, z: bv32, m: bv32)
    requires AllZeros(x, m) && AllOnes(z, m)
    ensures Agree(IBits(x, y, z), y, m)
  {
  }

  /** F selects: where x has ones the result has the bits of y, elsewhere those of z. */
  lemma FSelects(x: Word, y: Word, z: Word, m: bv32)
    ensures AllOnes(Bits(x), m) ==> Agree(Bits(F(x, y, z)), Bits(y), m)
    ensures AllZeros(Bits(x), m) ==> Agree(Bits(F(x, y, z)), Bits(z), m)
  {
    BitsOfWord(FBits(Bits(x), Bits(y), Bits(z)));
    FBitsSelect(Bits(x), Bits(y), Bits(z), m);
    hide Bits, WordOf, FBits, AllOnes, AllZeros, Agree;
  }

  /** G selects by z: the bits of x where z has ones, those of y elsewhere. */
  lemma GSelects(x: Word, y: Word, z: Word, m: bv32)
    ensures AllOnes(Bits(z), m) ==> Agree(Bits(G(x, y, z)), Bits(x), m)
    ensures AllZeros(Bits(z), m) ==> Agree(Bits(G(x, y, z)), Bits(y), m)
  {
    BitsOfWord(GBits(Bits(x), Bits(y), Bits(z)));
    GBitsSelect(Bits(x), Bits(y), Bits(z), m);
    hide Bits, WordOf, GBits, AllOnes, AllZeros, Agree;
  }

  /** H is the parity: the bits of z where x and y agree, their opposites where x and y differ. */
  lemma HIsParity(x: Word, y: Word, z: Word, m: bv32)
    ensures Agree(Bits(x), Bits(y), m) ==> Agree(Bits(H(x, y, z)), Bits(z), m)
    ensures Differ(Bits(x), Bits(y), m) ==> Differ(Bits(H(x, y, z)), Bits(z), m)
  {
    BitsOfWord(HBits(Bits(x), Bits(y), Bits(z)));
    HBitsParity(Bits(x), Bits(y), Bits(z), m);
    hide Bits, WordOf, HBits, Agree, Differ;
  }

  /** I keeps the bits of y where x has zeros and z ones, and turns them over everywhere else. */
  lemma IFlips(x: Word, y: Word, z: Word, m: bv32)
    ensures AllOnes(Bits(x), m) || AllZeros(Bits(z), m) ==> Differ(Bits(I(x, y, z)), Bits(y), m)
    ensures AllZeros(Bits(x), m) && AllOnes(Bits(z), m) ==> Agree(Bits(I(x, y, z)), Bits(y), m)
  {
    hide *;
    if AllOnes(Bits(x), m) {
      IBitsFlipByX(Bits(x), Bits(y), Bits(z), m);
    }
    if AllZeros(Bits(z), m) {
      IBitsFlipByZ(Bits(x), Bits(y), Bits(z), m);
    }
    if AllZeros(Bits(x), m) && AllOnes(Bits(z), m) {
      IBitsKeep(Bits(x), Bits(y), Bits(z), m);
    }
    IIs(x, y, z);
  }

  lemma IIs(x: Word, y: Word, z: Word)
    ensures Bits(I(x, y, z)) == IBits(Bits(x), Bits(y), Bits(z))
  {
    BitsOfWord(IBits(Bits(x), Bits(y), Bits(z)));
    hide Bits, WordOf, IBits;
  }

  // ----- Rotation -----

  // One place to the left: the word doubles, and the bit that is pushed out comes back in as the lowest.
  function Cycled(x: Word, n: nat): Word {
    if n == 0 then x
    else
      var y := Cycled(x, n - 1);
      if y < 0x8000_0000 then 2 * y else 2 * y - 0xffff_ffff
  }

  function Turned(b: bv32): bv32 {
    (b << 1) | (b >> 31)
  }

  lemma TurnedDoubles(b: bv32)
    ensures b < 0x8000_0000 ==> WordOf(Turned(b)) == 2 * WordOf(b)
    ensures b >= 0x8000_0000 ==> WordOf(Turned(b)) == 2 * WordOf(b) - 0xffff_ffff
  {
  }

  lemma TopBit(b: bv32)
    ensures b < 0x8000_0000 <==> WordOf(b) < 0x8000_0000
  {
    if b < 0x8000_0000 {
      assert WordOf(b | 0x8000_0000) == WordOf(b) + 0x8000_0000;
    }
  }

  // Every word is that of some bits, found digit by digit.
  lemma {:induction false} BitsOf(w: Word) returns (b: bv32)
    ensures WordOf(b) == w
    decreases w
  {
    hide WordOf;
    if w == 0 {
      b := 0;
      Doubled(0);
    } else {
      var half := BitsOf(w / 2);
      TopBit(half);
      Doubled(half);
      b := if w % 2 == 0 then half << 1 else (half << 1) | 1;
    }
  }

  lemma Doubled(b: bv32)
    ensures b < 0x8000_0000 ==> WordOf(b << 1) == 2 * WordOf(b) && WordOf((b << 1) | 1) == 2 * WordOf(b) + 1
    ensures WordOf(0) == 0
  {
  }

  lemma WordOfBits(w: Word)
    ensures WordOf(RotateBits(Bits(w), 0)) == w
  {
    var b := BitsOf(w);
    BitsOfWord(b);
    Rotations(b);
    RotatedByNone(b);
    hide Bits, WordOf, RotateBits;
  }

  lemma RotatedByNone(b: bv32)
    ensures (b << 0) | (b >> 32) == b
  {
  }

  lemma Rotations(b: bv32)
    ensures RotateBits(b, 0) == (b << 0) | (b >> 32)
    ensures RotateBits(b, 1) == (b << 1) | (b >> 31)
    ensures RotateBits(b, 2) == (b << 2) | (b >> 30)
    ensures RotateBits(b, 3) == (b << 3) | (b >> 29)
    ensures RotateBits(b, 4) == (b << 4) | (b >> 28)
    ensures RotateBits(b, 5) == (b << 5) | (b >> 27)
    ensures RotateBits(b, 6) == (b << 6) | (b >> 26)
    ensures RotateBits(b, 7) == (b << 7) | (b >> 25)
    ensures RotateBits(b, 8) == (b << 8) | (b >> 24)
    ensures RotateBits(b, 9) == (b << 9) | (b >> 23)
    ensures RotateBits(b, 10) == (b << 10) | (b >> 22)
    ensures RotateBits(b, 11) == (b << 11) | (b >> 21)
    ensures RotateBits(b, 12) == (b << 12) | (b >> 20)
    ensures RotateBits(b, 13) == (b << 13) | (b >> 19)
    ensures RotateBits(b, 14) == (b << 14) | (b >> 18)
    ensures RotateBits(b, 15) == (b << 15) | (b >> 17)
    ensures RotateBits(b, 16) == (b << 16) | (b >> 16)
    ensures RotateBits(b, 17) == (b << 17) | (b >> 15)
    ensures RotateBits(b, 18) == (b << 18) | (b >> 14)
    ensures RotateBits(b, 19) == (b << 19) | (b >> 13)
    ensures RotateBits(b, 20) == (b << 20) | (b >> 12)
    ensures RotateBits(b, 21) == (b << 21) | (b >> 11)
    ensures RotateBits(b, 22) == (b << 22) | (b >> 10)
    ensures RotateBits(b, 23) == (b << 23) | (b >> 9)
    ensures RotateBits(b, 24) == (b << 24) | (b >> 8)
    ensures RotateBits(b, 25) == (b << 25) | (b >> 7)
    ensures RotateBits(b, 26) == (b << 26) | (b >> 6)
    ensures RotateBits(b, 27) == (b << 27) | (b >> 5)
    ensures RotateBits(b, 28) == (b << 28) | (b >> 4)
    ensures RotateBits(b, 29) == (b << 29) | (b >> 3)
    ensures RotateBits(b, 30) == (b << 30) | (b >> 2)
    ensures RotateBits(b, 31) == (b << 31) | (b >> 1)
    ensures RotateBits(b, 32) == (b << 32) | (b >> 0)
  {
  }

  lemma Turns(b: bv32)
    ensures Turned((b << 0) | (b >> 32)) == (b << 1) | (b >> 31)
    ensures Turned((b << 1) | (b >> 31)) == (b << 2) | (b >> 30)
    ensures Turned((b << 2) | (b >> 30)) == (b << 3) | (b >> 29)
    ensures Turned((b << 3) | (b >> 29)) == (b << 4) | (b >> 28)
    ensures Turned((b << 4) | (b >> 28)) == (b << 5) | (b >> 27)
    ensures Turned((b << 5) | (b >> 27)) == (b << 6) | (b >> 26)
    ensures Turned((b << 6) | (b >> 26)) == (b << 7) | (b >> 25)
    ensures Turned((b << 7) | (b >> 25)) == (b << 8) | (b >> 24)
    ensures Turned((b << 8) | (b >> 24)) == (b << 9) | (b >> 23)
    ensures Turned((b << 9) | (b >> 23)) == (b << 10) | (b >> 22)
    ensures Turned((b << 10) | (b >> 22)) == (b << 11) | (b >> 21)
    ensures Turned((b << 11) | (b >> 21)) == (b << 12) | (b >> 20)
    ensures Turned((b << 12) | (b >> 20)) == (b << 13) | (b >> 19)
    ensures Turned((b << 13) | (b >> 19)) == (b << 14) | (b >> 18)
    ensures Turned((b << 14) | (b >> 18)) == (b << 15) | (b >> 17)
    ensures Turned((b << 15) | (b >> 17)) == (b << 16) | (b >> 16)
    ensures Turned((b << 16) | (b >> 16)) == (b << 17) | (b >> 15)
    ensures Turned((b << 17) | (b >> 15)) == (b << 18) | (b >> 14)
    ensures Turned((b << 18) | (b >> 14)) == (b << 19) | (b >> 13)
    ensures Turned((b << 19) | (b >> 13)) == (b << 20) | (b >> 12)
    ensures Turned((b << 20) | (b >> 12)) == (b << 21) | (b >> 11)
    ensures Turned((b << 21) | (b >> 11)) == (b << 22) | (b >> 10)
    ensures Turned((b << 22) | (b >> 10)) == (b << 23) | (b >> 9)
    ensures Turned((b << 23) | (b >> 9)) == (b << 24) | (b >> 8)
    ensures Turned((b << 24) | (b >> 8)) == (b << 25) | (b >> 7)
    ensures Turned((b << 25) | (b >> 7)) == (b << 26) | (b >> 6)
    ensures Turned((b << 26) | (b >> 6)) == (b << 27) | (b >> 5)
    ensures Turned((b << 27) | (b >> 5)) == (b << 28) | (b >> 4)
    ensures Turned((b << 28) | (b >> 4)) == (b << 29) | (b >> 3)
    ensures Turned((b << 29) | (b >> 3)) == (b << 30) | (b >> 2)
    ensures Turned((b << 30) | (b >> 2)) == (b << 31) | (b >> 1)
    ensures Turned((b << 31) | (b >> 1)) == (b << 32) | (b >> 0)
  {
  }

  lemma RotateNext(b: bv32, n: nat)
    requires n < 32
    ensures RotateBits(b, n + 1) == Turned(RotateBits(b, n))
  {
    Rotations(b);
    Turns(b);
    hide RotateBits, Turned;
    match n
    case 0 => case 1 => case 2 => case 3 => case 4 => case 5 => case 6 => case 7 =>
    case 8 => case 9 => case 10 => case 11 => case 12 => case 13 => case 14 => case 15 =>
    case 16 => case 17 => case 18 => case 19 => case 20 => case 21 => case 22 => case 23 =>
    case 24 => case 25 => case 26 => case 27 => case 28 => case 29 => case 30 => case _ =>
  }

  /** Rotating by n places is n times doubling and bringing the pushed-out bit round. */
  lemma {:induction false} RotateIsCyclic(x: Word, n: nat)
    requires n <= 32
    ensures RotateLeft(x, n) == Cycled(x, n)
  {
    hide Bits, WordOf, RotateBits, Turned;
    if n == 0 {
      WordOfBits(x);
    } else {
      var b := RotateBits(Bits(x), n - 1);
      RotateIsCyclic(x, n - 1);
      RotateNext(Bits(x), n - 1);
      TurnedDoubles(b);
      TopBit(b);
    }
  }

  // ----- Padding (sections 3.1 and 3.2) -----

  // A number of 64 bits from its two words, and from its bytes, low ones first.
  function TwoWords(bs: seq<Byte>, j: nat): nat
    requires j + 8 <= |bs|
  {
    FourBytes(bs, j) + 0x1_0000_0000 * FourBytes(bs, j + 4)
  }

  function FourBytes(bs: seq<Byte>, j: nat): nat
    requires j + 4 <= |bs|
  {
    bs[j] as nat + 0x100 * bs[j + 1] as nat + 0x1_0000 * bs[j + 2] as nat + 0x100_0000 * bs[j + 3] as nat
  }

  lemma LengthBytesMean(n: nat)
    ensures TwoWords(LengthBytes(n), 0) == 8 * n % 0x1_0000_0000_0000_0000
  {
    var lo, hi := BitLength(n) % 0x1_0000_0000, BitLength(n) / 0x1_0000_0000;
    var words: seq<Word> := [lo, hi];
    WordMeans(words, 0);
    WordMeans(words, 1);
    hide EncodeWords;
  }

  lemma WordMeans(words: seq<Word>, i: nat)
    requires i < |words|
    ensures FourBytes(EncodeWords(words), 4 * i) == words[i]
  {
    EncodedAt(words, i, 0);
    EncodedAt(words, i, 1);
    EncodedAt(words, i, 2);
    EncodedAt(words, i, 3);
    AssembleOfBytes(words[i]);
    hide EncodeWords, ByteOf;
  }

  /** A padded message is the message, one 1 bit, fewer than 64 bytes of zeros, and its length in bits modulo 2^64 as eight
      bytes, low ones first; whole blocks in all. */
  lemma PaddedMeans(m: seq<Byte>)
    ensures var p, n := Padded(m), |m|;
            && |p| % 64 == 0 && n + 9 <= |p| < n + 9 + 64
            && p[..n] == m && p[n] == 0x80 && (forall j | n < j < |p| - 8 :: p[j] == 0)
            && TwoWords(p, |p| - 8) == 8 * n % 0x1_0000_0000_0000_0000
  {
    var bits := LengthBytes(|m|);
    LengthBytesMean(|m|);
    var front := m + [0x80] + Zeros(ZeroCount(|m|));
    assert Padded(m) == front + bits;
    hide LengthBytes, ZeroCount;
    assert forall k | 0 <= k < 8 :: (front + bits)[|front| + k] == bits[k];
  }
}
