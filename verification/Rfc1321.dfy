/** The MD5 message-digest algorithm as RFC 1321 defines it: sections 3.1 to 3.5, for whole messages. */
module Rfc1321 {
  import opened SwitchTypes
  import opened LittleEndian

  const BLOCK_SIZE := 64

  // ----- The four rounds (section 3.4) -----

  function Add(x: Word, y: Word): Word {
    (x + y) % 0x1_0000_0000
  }

  // A word as its 32 bits, and back.
  function Bits(w: Word): bv32 {
    w as bv32
  }

  function WordOf(b: bv32): Word {
    b as Word
  }

  function FBits(x: bv32, y: bv32, z: bv32): bv32 {
    (x & y) | (!x & z)
  }

  function GBits(x: bv32, y: bv32, z: bv32): bv32 {
    (x & z) | (y & !z)
  }

  function HBits(x: bv32, y: bv32, z: bv32): bv32 {
    x ^ y ^ z
  }

  function IBits(x: bv32, y: bv32, z: bv32): bv32 {
    y ^ (x | !z)
  }

  function RotateBits(x: bv32, n: nat): bv32
    requires n <= 32
  {
    (x << n) | (x >> (32 - n))
  }

  function F(x: Word, y: Word, z: Word): Word {
    WordOf(FBits(Bits(x), Bits(y), Bits(z)))
  }

  function G(x: Word, y: Word, z: Word): Word {
    WordOf(GBits(Bits(x), Bits(y), Bits(z)))
  }

  function H(x: Word, y: Word, z: Word): Word {
    WordOf(HBits(Bits(x), Bits(y), Bits(z)))
  }

  function I(x: Word, y: Word, z: Word): Word {
    WordOf(IBits(Bits(x), Bits(y), Bits(z)))
  }

  function RotateLeft(x: Word, n: nat): Word
    requires n <= 32
  {
    WordOf(RotateBits(Bits(x), n))
  }

  datatype Quad = Quad(a: Word, b: Word, c: Word, d: Word)

  // Section 3.3.
  const INITIAL := Quad(0x67452301, 0xefcdab89, 0x98badcfe, 0x10325476)

  function Mix(i: nat, x: Word, y: Word, z: Word): Word {
    if i < 16 then F(x, y, z) else if i < 32 then G(x, y, z) else if i < 48 then H(x, y, z) else I(x, y, z)
  }

  function WordIndex(i: nat): (k: nat)
    ensures k < 16
  {
    if i < 16 then i else if i < 32 then (5 * i + 1) % 16 else if i < 48 then (3 * i + 5) % 16 else 7 * i % 16
  }

  function Shift(i: nat): (s: nat)
    ensures s <= 32
  {
    var cycle := i % 4;
    if i < 16 then (if cycle == 0 then 7 else if cycle == 1 then 12 else if cycle == 2 then 17 else 22)
    else if i < 32 then (if cycle == 0 then 5 else if cycle == 1 then 9 else if cycle == 2 then 14 else 20)
    else if i < 48 then (if cycle == 0 then 4 else if cycle == 1 then 11 else if cycle == 2 then 16 else 23)
    else (if cycle == 0 then 6 else if cycle == 1 then 10 else if cycle == 2 then 15 else 21)
  }

  // The table of 64 constants of section 3.4, the integer part of 2^32 * |sin(i + 1)|, as the RFC prints it.
  function T(i: nat): Word {
    if i < 16 then T1(i) else if i < 32 then T2(i) else if i < 48 then T3(i) else T4(i)
  }

  function T1(i: nat): Word {
    match i
    case 0 => 0xd76aa478 case 1 => 0xe8c7b756 case 2 => 0x242070db case 3 => 0xc1bdceee
    case 4 => 0xf57c0faf case 5 => 0x4787c62a case 6 => 0xa8304613 case 7 => 0xfd469501
    case 8 => 0x698098d8 case 9 => 0x8b44f7af case 10 => 0xffff5bb1 case 11 => 0x895cd7be
    case 12 => 0x6b901122 case 13 => 0xfd987193 case 14 => 0xa679438e case _ => 0x49b40821
  }

  function T2(i: nat): Word {
    match i
    case 16 => 0xf61e2562 case 17 => 0xc040b340 case 18 => 0x265e5a51 case 19 => 0xe9b6c7aa
    case 20 => 0xd62f105d case 21 => 0x02441453 case 22 => 0xd8a1e681 case 23 => 0xe7d3fbc8
    case 24 => 0x21e1cde6 case 25 => 0xc33707d6 case 26 => 0xf4d50d87 case 27 => 0x455a14ed
    case 28 => 0xa9e3e905 case 29 => 0xfcefa3f8 case 30 => 0x676f02d9 case _ => 0x8d2a4c8a
  }

  function T3(i: nat): Word {
    match i
    case 32 => 0xfffa3942 case 33 => 0x8771f681 case 34 => 0x6d9d6122 case 35 => 0xfde5380c
    case 36 => 0xa4beea44 case 37 => 0x4bdecfa9 case 38 => 0xf6bb4b60 case 39 => 0xbebfbc70
    case 40 => 0x289b7ec6 case 41 => 0xeaa127fa case 42 => 0xd4ef3085 case 43 => 0x04881d05
    case 44 => 0xd9d4d039 case 45 => 0xe6db99e5 case 46 => 0x1fa27cf8 case _ => 0xc4ac5665
  }

  function T4(i: nat): Word {
    match i
    case 48 => 0xf4292244 case 49 => 0x432aff97 case 50 => 0xab9423a7 case 51 => 0xfc93a039
    case 52 => 0x655b59c3 case 53 => 0x8f0ccc92 case 54 => 0xffeff47d case 55 => 0x85845dd1
    case 56 => 0x6fa87e4f case 57 => 0xfe2ce6e0 case 58 => 0xa3014314 case 59 => 0x4e0811a1
    case 60 => 0xf7537e82 case 61 => 0xbd3af235 case 62 => 0x2ad7d2bb case _ => 0xeb86d391
  }

  // Operation [abcd k s i]: a = b + ((a + f(b,c,d) + X[k] + T[i]) <<< s), after which the four words rotate.
  function Step(i: nat, q: Quad, x: seq<Word>): Quad
    requires |x| == 16
  {
    var sum := Add(Add(Add(q.a, Mix(i, q.b, q.c, q.d)), x[WordIndex(i)]), T(i));
    Quad(q.d, Add(RotateLeft(sum, Shift(i)), q.b), q.b, q.c)
  }

  function Steps(n: nat, q: Quad, x: seq<Word>): Quad
    requires |x| == 16
  {
    if n == 0 then q else Step(n - 1, Steps(n - 1, q, x), x)
  }

  function Compress(q: Quad, block: seq<Byte>): Quad
    requires |block| == BLOCK_SIZE
  {
    var r := Steps(64, q, DecodeWords(block));
    Quad(Add(q.a, r.a), Add(q.b, r.b), Add(q.c, r.c), Add(q.d, r.d))
  }

  function Fold(q: Quad, bs: seq<Byte>): Quad
    requires |bs| % BLOCK_SIZE == 0
    decreases |bs|
  {
    if bs == [] then q
    else Compress(Fold(q, bs[..|bs| - BLOCK_SIZE]), bs[|bs| - BLOCK_SIZE..])
  }

  // ----- Padding and output (sections 3.1, 3.2 and 3.5) -----

  // Sections 3.1 and 3.2: one 1 bit, then the fewest 0 bits that leave room for the length, then the length.
  function ZeroCount(n: nat): (k: nat)
    ensures k < BLOCK_SIZE && (n + 1 + k) % BLOCK_SIZE == 56
  {
    (BLOCK_SIZE + 55 - n % BLOCK_SIZE) % BLOCK_SIZE
  }

  function BitLength(n: nat): nat {
    8 * n % 0x1_0000_0000_0000_0000
  }

  function LengthBytes(n: nat): (bs: seq<Byte>)
    ensures |bs| == 8
  {
    EncodeWords([BitLength(n) % 0x1_0000_0000, BitLength(n) / 0x1_0000_0000])
  }

  function Zeros(k: nat): (bs: seq<Byte>)
    ensures |bs| == k
  {
    seq(k, _ => 0)
  }

  lemma WholeBlocks(n: nat)
    ensures (n + 1 + ZeroCount(n) + 8) % BLOCK_SIZE == 0
  {
    SevenWords(n + 1 + ZeroCount(n));
    hide ZeroCount;
  }

  lemma SevenWords(n: nat)
    requires n % BLOCK_SIZE == 56
    ensures (n + 8) % BLOCK_SIZE == 0
  {
  }

  function Padded(m: seq<Byte>): (bs: seq<Byte>)
    ensures |bs| % BLOCK_SIZE == 0
  {
    WholeBlocks(|m|);
    m + [0x80] + Zeros(ZeroCount(|m|)) + LengthBytes(|m|)
  }

  function QuadBytes(q: Quad): (bs: seq<Byte>)
    ensures |bs| == 16
  {
    EncodeWords([q.a, q.b, q.c, q.d])
  }

  function Digest(m: seq<Byte>): (bs: seq<Byte>)
    ensures |bs| == 16
  {
    QuadBytes(Fold(INITIAL, Padded(m)))
  }

  // ----- Facts about the definitions -----

  /** Hashing block-aligned prefix and then the rest is hashing the whole. */
  lemma {:induction false} FoldConcat(q: Quad, x: seq<Byte>, y: seq<Byte>)
    requires |x| % BLOCK_SIZE == 0 && |y| % BLOCK_SIZE == 0
    ensures Fold(q, x + y) == Fold(Fold(q, x), y)
    decreases |y|
  {
    hide Compress;
    if y == [] {
      assert x + y == x;
    } else {
      var front := y[..|y| - BLOCK_SIZE];
      FoldConcat(q, x, front);
      assert (x + y)[..|x + y| - BLOCK_SIZE] == x + front;
      assert (x + y)[|x + y| - BLOCK_SIZE..] == y[|y| - BLOCK_SIZE..];
    }
  }

  lemma FoldBlock(q: Quad, m: seq<Byte>, k: nat)
    requires k % BLOCK_SIZE == 0 && k + BLOCK_SIZE <= |m|
    ensures Fold(q, m[..k + BLOCK_SIZE]) == Compress(Fold(q, m[..k]), m[k..k + BLOCK_SIZE])
  {
    hide Compress;
    var x := m[..k + BLOCK_SIZE];
    assert x[..|x| - BLOCK_SIZE] == m[..k];
    assert x[|x| - BLOCK_SIZE..] == m[k..k + BLOCK_SIZE];
  }
}
