/** The streaming digest class of `md5.cpp`, proved against RFC 1321. */
module Md5 {
  import opened SwitchTypes
  import opened LittleEndian
  import opened Rfc1321

  // ----- Low-level operations -----

  // The four step macros return the new value of their reference argument `a`.
  function FF(a: Word, b: Word, c: Word, d: Word, x: Word, s: nat, ac: Word): Word
    requires s <= 32
  {
    Add(RotateLeft(Add(Add(Add(a, F(b, c, d)), x), ac), s), b)
  }

  function GG(a: Word, b: Word, c: Word, d: Word, x: Word, s: nat, ac: Word): Word
    requires s <= 32
  {
    Add(RotateLeft(Add(Add(Add(a, G(b, c, d)), x), ac), s), b)
  }

  function HH(a: Word, b: Word, c: Word, d: Word, x: Word, s: nat, ac: Word): Word
    requires s <= 32
  {
    Add(RotateLeft(Add(Add(Add(a, H(b, c, d)), x), ac), s), b)
  }

  function II(a: Word, b: Word, c: Word, d: Word, x: Word, s: nat, ac: Word): Word
    requires s <= 32
  {
    Add(RotateLeft(Add(Add(Add(a, I(b, c, d)), x), ac), s), b)
  }

  const S11 := 7
  const S12 := 12
  const S13 := 17
  const S14 := 22
  const S21 := 5
  const S22 := 9
  const S23 := 14
  const S24 := 20
  const S31 := 4
  const S32 := 11
  const S33 := 16
  const S34 := 23
  const S41 := 6
  const S42 := 10
  const S43 := 15
  const S44 := 21

  // Four consecutive operations of a round bring every register back to its own place.
  lemma {:induction false} FourSteps(i: nat, q: Quad, x: seq<Word>)
    requires |x| == 16
    ensures var q0 := Steps(i, q, x);
            Steps(i + 4, q, x) == Step(i + 3, Step(i + 2, Step(i + 1, Step(i, q0, x), x), x), x)
  {
    assert Steps(i + 2, q, x) == Step(i + 1, Steps(i + 1, q, x), x);
    assert Steps(i + 3, q, x) == Step(i + 2, Steps(i + 2, q, x), x);
  }

  // The 64 statements of `transform`, one method for each of its four rounds.
  method Round1(a0: Word, b0: Word, c0: Word, d0: Word, x: array<Word>)
    returns (a: Word, b: Word, c: Word, d: Word)
    requires x.Length == 16
    ensures Quad(a, b, c, d) == Steps(16, Quad(a0, b0, c0, d0), x[..])
  {
    hide F, G, H, I, RotateLeft, Add;
    a, b, c, d := a0, b0, c0, d0;
    ghost var q, w := Quad(a, b, c, d), x[..];
    assert Steps(0, q, w) == q;
    a := FF(a, b, c, d, x[0], S11, 0xd76aa478);
    d := FF(d, a, b, c, x[1], S12, 0xe8c7b756);
    c := FF(c, d, a, b, x[2], S13, 0x242070db);
    b := FF(b, c, d, a, x[3], S14, 0xc1bdceee);
    FourSteps(0, q, w);
    assert Steps(4, q, w) == Quad(a, b, c, d);
    a := FF(a, b, c, d, x[4], S11, 0xf57c0faf);
    d := FF(d, a, b, c, x[5], S12, 0x4787c62a);
    c := FF(c, d, a, b, x[6], S13, 0xa8304613);
    b := FF(b, c, d, a, x[7], S14, 0xfd469501);
    FourSteps(4, q, w);
    assert Steps(8, q, w) == Quad(a, b, c, d);
    a := FF(a, b, c, d, x[8], S11, 0x698098d8);
    d := FF(d, a, b, c, x[9], S12, 0x8b44f7af);
    c := FF(c, d, a, b, x[10], S13, 0xffff5bb1);
    b := FF(b, c, d, a, x[11], S14, 0x895cd7be);
    FourSteps(8, q, w);
    assert Steps(12, q, w) == Quad(a, b, c, d);
    a := FF(a, b, c, d, x[12], S11, 0x6b901122);
    d := FF(d, a, b, c, x[13], S12, 0xfd987193);
    c := FF(c, d, a, b, x[14], S13, 0xa679438e);
    b := FF(b, c, d, a, x[15], S14, 0x49b40821);
    FourSteps(12, q, w);
  }

  method Round2(a0: Word, b0: Word, c0: Word, d0: Word, x: array<Word>, ghost q: Quad)
    returns (a: Word, b: Word, c: Word, d: Word)
    requires x.Length == 16 && Quad(a0, b0, c0, d0) == Steps(16, q, x[..])
    ensures Quad(a, b, c, d) == Steps(32, q, x[..])
  {
    hide F, G, H, I, RotateLeft, Add;
    a, b, c, d := a0, b0, c0, d0;
    ghost var w := x[..];
    a := GG(a, b, c, d, x[1], S21, 0xf61e2562);
    d := GG(d, a, b, c, x[6], S22, 0xc040b340);
    c := GG(c, d, a, b, x[11], S23, 0x265e5a51);
    b := GG(b, c, d, a, x[0], S24, 0xe9b6c7aa);
    FourSteps(16, q, w);
    assert Steps(20, q, w) == Quad(a, b, c, d);
    a := GG(a, b, c, d, x[5], S21, 0xd62f105d);
    d := GG(d, a, b, c, x[10], S22, 0x2441453);
    c := GG(c, d, a, b, x[15], S23, 0xd8a1e681);
    b := GG(b, c, d, a, x[4], S24, 0xe7d3fbc8);
    FourSteps(20, q, w);
    assert Steps(24, q, w) == Quad(a, b, c, d);
    a := GG(a, b, c, d, x[9], S21, 0x21e1cde6);
    d := GG(d, a, b, c, x[14], S22, 0xc33707d6);
    c := GG(c, d, a, b, x[3], S23, 0xf4d50d87);
    b := GG(b, c, d, a, x[8], S24, 0x455a14ed);
    FourSteps(24, q, w);
    assert Steps(28, q, w) == Quad(a, b, c, d);
    a := GG(a, b, c, d, x[13], S21, 0xa9e3e905);
    d := GG(d, a, b, c, x[2], S22, 0xfcefa3f8);
    c := GG(c, d, a, b, x[7], S23, 0x676f02d9);
    b := GG(b, c, d, a, x[12], S24, 0x8d2a4c8a);
    FourSteps(28, q, w);
  }

  method Round3(a0: Word, b0: Word, c0: Word, d0: Word, x: array<Word>, ghost q: Quad)
    returns (a: Word, b: Word, c: Word, d: Word)
    requires x.Length == 16 && Quad(a0, b0, c0, d0) == Steps(32, q, x[..])
    ensures Quad(a, b, c, d) == Steps(48, q, x[..])
  {
    hide F, G, H, I, RotateLeft, Add;
    a, b, c, d := a0, b0, c0, d0;
    ghost var w := x[..];
    a := HH(a, b, c, d, x[5], S31, 0xfffa3942);
    d := HH(d, a, b, c, x[8], S32, 0x8771f681);
    c := HH(c, d, a, b, x[11], S33, 0x6d9d6122);
    b := HH(b, c, d, a, x[14], S34, 0xfde5380c);
    FourSteps(32, q, w);
    assert Steps(36, q, w) == Quad(a, b, c, d);
    a := HH(a, b, c, d, x[1], S31, 0xa4beea44);
    d := HH(d, a, b, c, x[4], S32, 0x4bdecfa9);
    c := HH(c, d, a, b, x[7], S33, 0xf6bb4b60);
    b := HH(b, c, d, a, x[10], S34, 0xbebfbc70);
    FourSteps(36, q, w);
    assert Steps(40, q, w) == Quad(a, b, c, d);
    a := HH(a, b, c, d, x[13], S31, 0x289b7ec6);
    d := HH(d, a, b, c, x[0], S32, 0xeaa127fa);
    c := HH(c, d, a, b, x[3], S33, 0xd4ef3085);
    b := HH(b, c, d, a, x[6], S34, 0x4881d05);
    FourSteps(40, q, w);
    assert Steps(44, q, w) == Quad(a, b, c, d);
    a := HH(a, b, c, d, x[9], S31, 0xd9d4d039);
    d := HH(d, a, b, c, x[12], S32, 0xe6db99e5);
    c := HH(c, d, a, b, x[15], S33, 0x1fa27cf8);
    b := HH(b, c, d, a, x[2], S34, 0xc4ac5665);
    FourSteps(44, q, w);
  }

  method Round4(a0: Word, b0: Word, c0: Word, d0: Word, x: array<Word>, ghost q: Quad)
    returns (a: Word, b: Word, c: Word, d: Word)
    requires x.Length == 16 && Quad(a0, b0, c0, d0) == Steps(48, q, x[..])
    ensures Quad(a, b, c, d) == Steps(64, q, x[..])
  {
    hide F, G, H, I, RotateLeft, Add;
    a, b, c, d := a0, b0, c0, d0;
    ghost var w := x[..];
    a := II(a, b, c, d, x[0], S41, 0xf4292244);
    d := II(d, a, b, c, x[7], S42, 0x432aff97);
    c := II(c, d, a, b, x[14], S43, 0xab9423a7);
    b := II(b, c, d, a, x[5], S44, 0xfc93a039);
    FourSteps(48, q, w);
    assert Steps(52, q, w) == Quad(a, b, c, d);
    a := II(a, b, c, d, x[12], S41, 0x655b59c3);
    d := II(d, a, b, c, x[3], S42, 0x8f0ccc92);
    c := II(c, d, a, b, x[10], S43, 0xffeff47d);
    b := II(b, c, d, a, x[1], S44, 0x85845dd1);
    FourSteps(52, q, w);
    assert Steps(56, q, w) == Quad(a, b, c, d);
    a := II(a, b, c, d, x[8], S41, 0x6fa87e4f);
    d := II(d, a, b, c, x[15], S42, 0xfe2ce6e0);
    c := II(c, d, a, b, x[6], S43, 0xa3014314);
    b := II(b, c, d, a, x[13], S44, 0x4e0811a1);
    FourSteps(56, q, w);
    assert Steps(60, q, w) == Quad(a, b, c, d);
    a := II(a, b, c, d, x[4], S41, 0xf7537e82);
    d := II(d, a, b, c, x[11], S42, 0xbd3af235);
    c := II(c, d, a, b, x[2], S43, 0x2ad7d2bb);
    b := II(b, c, d, a, x[9], S44, 0xeb86d391);
    FourSteps(60, q, w);
  }

  // ----- Bit counter and padding arithmetic -----

  const TWO_32 := 0x1_0000_0000

  // The two count words hold the message length in bits, modulo 2^64.
  ghost predicate CountsBits(lo: Word, hi: Word, total: nat) {
    hi as int * TWO_32 + lo as int == BitLength(total)
  }

  /** The low count word alone gives the number of bytes waiting in the buffer. */
  lemma IndexFromCount(lo: Word, hi: Word, total: nat)
    requires CountsBits(lo, hi, total)
    ensures lo / 8 % 64 == Waiting(total)
  {
    var k := 8 * total / 0x1_0000_0000_0000_0000;
    assert lo as int == 8 * (total - k * 0x2000_0000_0000_0000 - hi as int * 0x2000_0000);
    var waiting := total - 64 * (k * 0x80_0000_0000_0000 + hi as int * 0x80_0000);
    assert lo / 8 == waiting;
    SameRemainder(total, waiting, k * 0x80_0000_0000_0000 + hi as int * 0x80_0000);
  }

  lemma SameRemainder(x: int, y: int, k: int)
    requires y == x - 64 * k
    ensures y % 64 == x % 64
  {
  }

  // The bytes of the last, incomplete block: those kept in the buffer.
  function Waiting(n: nat): (r: nat)
    ensures r < 64 && r <= n
  {
    n % 64
  }

  // Lines 257-259: add `length << 3`, detect the carry on the wrapped sum, add `length >> 29`.
  function LowAfter(lo: Word, length: Word): Word {
    Add(lo, 8 * length % TWO_32)
  }

  function HighAfter(lo: Word, hi: Word, length: Word): Word {
    var carried := if LowAfter(lo, length) < 8 * length % TWO_32 then Add(hi, 1) else hi;
    Add(carried, length / 0x2000_0000)
  }

  /** The two-word addition with its carry test adds 8 * length to the 64-bit counter. */
  lemma CounterAdvances(lo: Word, hi: Word, total: nat, length: Word)
    requires CountsBits(lo, hi, total)
    ensures CountsBits(LowAfter(lo, length), HighAfter(lo, hi, length), total + length)
  {
    var carry := CarryOf(lo, length);
    var sum := hi as int + carry + length / 0x2000_0000;
    AddWithCarry(lo, hi, length);
    assert sum * TWO_32 + LowAfter(lo, length) as int == BitLength(total) + 8 * length;
    ShiftedRemainder(sum, LowAfter(lo, length));
    RemainderOfSum(8 * total, 8 * length);
    assert 8 * (total + length) == 8 * total + 8 * length;
  }

  function CarryOf(lo: Word, length: Word): int {
    if lo as int + 8 * length % TWO_32 >= TWO_32 then 1 else 0
  }

  lemma AddWithCarry(lo: Word, hi: Word, length: Word)
    ensures LowAfter(lo, length) as int + CarryOf(lo, length) * TWO_32 == lo as int + 8 * length % TWO_32
    ensures HighAfter(lo, hi, length) as int == (hi as int + CarryOf(lo, length) + length / 0x2000_0000) % TWO_32
    ensures 8 * length == length / 0x2000_0000 * TWO_32 + 8 * length % TWO_32
  {
    WrappedSum(hi, CarryOf(lo, length), length / 0x2000_0000);
  }

  lemma WrappedSum(x: Word, carry: int, y: int)
    requires 0 <= carry <= 1 && 0 <= y < 8
    ensures ((x as int + carry) % TWO_32 + y) % TWO_32 == (x as int + carry + y) % TWO_32
  {
  }

  lemma ShiftedRemainder(n: nat, lo: int)
    requires 0 <= lo < TWO_32
    ensures (n * TWO_32 + lo) % 0x1_0000_0000_0000_0000 == n % TWO_32 * TWO_32 + lo
  {
    var k := n / TWO_32;
    assert n * TWO_32 + lo == k * 0x1_0000_0000_0000_0000 + (n % TWO_32 * TWO_32 + lo);
  }

  lemma RemainderOfSum(x: nat, y: nat)
    ensures (x % 0x1_0000_0000_0000_0000 + y) % 0x1_0000_0000_0000_0000 == (x + y) % 0x1_0000_0000_0000_0000
  {
    var k := x / 0x1_0000_0000_0000_0000;
    assert x + y == k * 0x1_0000_0000_0000_0000 + (x % 0x1_0000_0000_0000_0000 + y);
  }

  function PadLength(index: nat): int
    requires index < 64
  {
    if index < 56 then 56 - index else 120 - index
  }

  /** The pad of `finalize` is the 1 bit and the fewest zeros; eight length bytes then fill the last block. */
  lemma PadReaches56(total: nat)
    ensures var p := PadLength(Waiting(total));
            1 <= p <= 64 && (total + p) % 64 == 56 && (total + p + 8) % 64 == 0 && p == 1 + ZeroCount(total)
  {
  }

  lemma CountIsLength(words: seq<Word>, total: nat)
    requires |words| == 2 && CountsBits(words[0], words[1], total)
    ensures EncodeWords(words) == LengthBytes(total)
  {
    assert words == [BitLength(total) % TWO_32, BitLength(total) / TWO_32];
  }

  lemma PaddedParts(m: seq<Byte>, pad: seq<Byte>, bits: seq<Byte>)
    requires |pad| == 1 + ZeroCount(|m|) && pad[0] == 0x80 && bits == LengthBytes(|m|)
    requires forall k | 1 <= k < |pad| :: pad[k] == 0
    ensures m + pad + bits == Padded(m)
  {
    hide ZeroCount, LengthBytes;
    assert pad == [0x80] + Zeros(ZeroCount(|m|));
  }

  /** The 32-bit test `i + blocksize <= length` is the true one at every block start exactly on these lengths. */
  lemma LoopTestExact(length: Word, first: nat)
    requires 1 <= first <= 64 && first <= length
    ensures (forall i: nat {:trigger BlockStart(i, first)} |
               BlockStart(i, first) && i <= length :: (i + 64) % TWO_32 <= length <==> i + 64 <= length)
            <==> TestCannotWrap(length, first)
  {
    var wrap := TWO_32 - 64 + first % 64;
    if TestCannotWrap(length, first) {
      forall i: nat | BlockStart(i, first) && i <= length
        ensures (i + 64) % TWO_32 <= length <==> i + 64 <= length
      {
      }
    } else {
      assert BlockStart(wrap, first);
      assert (wrap + 64) % TWO_32 <= length && wrap + 64 > length && wrap <= length;
    }
  }

  predicate BlockStart(i: nat, first: nat) {
    first <= i && (i - first) % 64 == 0
  }

  predicate TestCannotWrap(length: Word, first: nat) {
    length < TWO_32 - 64 + first % 64
  }

  // A documented chunk, or any of less than 2^32 - 64 bytes, is safe wherever the buffer stands.
  lemma ShortEnough(length: Word, n: nat)
    requires length < TWO_32 - 64
    ensures TestCannotWrap(length, 64 - Waiting(n))
  {
  }

  // ----- The class -----

  method MemCopy(dst: array<Byte>, at: nat, src: array<Byte>, from: nat, n: nat)
    requires dst != src && at + n <= dst.Length && from + n <= src.Length
    modifies dst
    ensures dst[..] == old(dst[..at]) + src[from..from + n] + old(dst[at + n..])
  {
    forall k | 0 <= k < n {
      dst[at + k] := src[from + k];
    }
  }

  function QuadOf(words: seq<Word>): Quad
    requires |words| == 4
  {
    Quad(words[0], words[1], words[2], words[3])
  }

  // The chaining words account for the first `done` bytes, a whole number of blocks.
  ghost predicate Digested(words: seq<Word>, message: seq<Byte>, done: nat) {
    |words| == 4 && done <= |message| && done % 64 == 0 && QuadOf(words) == Fold(INITIAL, message[..done])
  }

  lemma NoWrap(i: nat, length: Word, n: nat)
    requires i <= length && (n + i) % 64 == 0 && TestCannotWrap(length, 64 - Waiting(n))
    ensures (i + 64) % TWO_32 <= length <==> i + 64 <= length
  {
  }

  // What waits is what lies behind the blocks already taken.
  lemma AlignedTail(words: seq<Word>, message: seq<Byte>, done: nat)
    requires Digested(words, message, done) && |message| < done + 64
    ensures Waiting(|message|) == |message| - done
  {
    hide Fold, QuadOf;
  }

  lemma NothingDigested(words: seq<Word>)
    requires |words| == 4 && QuadOf(words) == INITIAL
    ensures Digested(words, [], 0)
  {
    hide Compress;
  }

  lemma WholeDigest(words: seq<Word>, message: seq<Byte>)
    requires |message| % 64 == 0 && Digested(words, message, |message| - Waiting(|message|))
    ensures EncodeWords(words) == QuadBytes(Fold(INITIAL, message))
  {
    hide Fold;
    assert message[..|message|] == message;
    var q := QuadOf(words);
    assert words == [q.a, q.b, q.c, q.d];
  }

  lemma DigestedExtends(words: seq<Word>, m: seq<Byte>, more: seq<Byte>, done: nat)
    requires Digested(words, m, done)
    ensures Digested(words, m + more, done)
  {
    hide Fold, QuadOf;
    assert (m + more)[..done] == m[..done];
  }

  lemma BlockOfSuffix(message: seq<Byte>, n: nat, data: seq<Byte>, i: nat)
    requires n <= |message| && message[n..] == data && i + 64 <= |data|
    ensures data[i..i + 64] == message[n + i..n + i + 64]
  {
  }

  lemma TailOfInput(m: seq<Byte>, input: seq<Byte>, i: nat)
    requires i <= |input|
    ensures (m + input)[|m| + i..] == input[i..]
  {
  }

  class MD5 {
    var finalized: bool
    const buffer: array<Byte>
    const count: array<Word>
    const state: array<Word>
    const digest: array<Byte>

    // Every byte that `Update` was given.
    ghost var message: seq<Byte>

    ghost predicate Shape() {
      && buffer.Length == 64 && count.Length == 2 && state.Length == 4 && digest.Length == 16
      && buffer != digest && count != state
    }

    // The buffer's tail, the chaining words and the counter describe `message`; afterwards `digest` is its digest.
    ghost predicate Valid()
      reads this, buffer, count, state, digest
    {
      && Shape()
      && (finalized ==> digest[..] == Digest(message))
      && (!finalized ==>
            var full := |message| - Waiting(|message|);
            && Digested(state[..], message, full)
            && buffer[..|message| - full] == message[full..]
            && CountsBits(count[0], count[1], |message|))
    }

    // Lines 103-132.
    constructor ()
      ensures Valid() && !finalized && message == []
      ensures fresh(buffer) && fresh(count) && fresh(state) && fresh(digest)
    {
      finalized := false;
      buffer := new Byte[64];
      count := new Word[2](_ => 0);
      state := new Word[4];
      digest := new Byte[16];
      message := [];
      new;
      hide Fold, Digest, Digested;
      state[0], state[1], state[2], state[3] := 0x67452301, 0xefcdab89, 0x98badcfe, 0x10325476;
      NothingDigested(state[..]);
    }

    // Lines 137-142.
    static method Decode(output: array<Word>, input: array<Byte>, at: nat, len: nat)
      requires len % 4 == 0 && at + len <= input.Length && len / 4 <= output.Length
      modifies output
      ensures output[..] == DecodeWords(input[at..at + len]) + old(output[len / 4..])
    {
      hide Assemble, DecodeWords;
      assert (output as object) != (input as object);
      ghost var bytes := input[at..at + len];
      var i, j := 0, 0;
      while j < len
        invariant j == 4 * i <= len
        invariant forall k | 0 <= k < i :: output[k] == DecodeWords(bytes)[k]
        invariant forall k | i <= k < output.Length :: output[k] == old(output[k])
      {
        DecodedAt(bytes, i);
        var b := at + j;
        output[i] := Assemble(input[b], input[b + 1], input[b + 2], input[b + 3]);
        i, j := i + 1, j + 4;
      }
    }

    // Lines 148-156.
    static method Encode(output: array<Byte>, input: array<Word>, len: nat)
      requires len % 4 == 0 && len <= output.Length && len / 4 <= input.Length
      modifies output
      ensures output[..] == EncodeWords(input[..len / 4]) + old(output[len..])
    {
      hide ByteOf, EncodeWords;
      assert (output as object) != (input as object);
      ghost var words := input[..len / 4];
      var i, j := 0, 0;
      while j < len
        invariant j == 4 * i <= len
        invariant forall k | 0 <= k < j :: output[k] == EncodeWords(words)[k]
        invariant forall k | j <= k < output.Length :: output[k] == old(output[k])
      {
        EncodedAt(words, i, 0);
        EncodedAt(words, i, 1);
        EncodedAt(words, i, 2);
        EncodedAt(words, i, 3);
        output[j] := ByteOf(input[i], 0);
        output[j + 1] := ByteOf(input[i], 1);
        output[j + 2] := ByteOf(input[i], 2);
        output[j + 3] := ByteOf(input[i], 3);
        i, j := i + 1, j + 4;
      }
    }

    // The block is the 64 bytes of `block` from `at`.
    method Transform(block: array<Byte>, at: nat)
      requires state.Length == 4 && at + 64 <= block.Length
      modifies state
      ensures QuadOf(state[..]) == Compress(QuadOf(old(state[..])), block[at..at + 64])
    {
      hide F, G, H, I, RotateLeft, Add, Step, Steps, DecodeWords;
      var a, b, c, d := state[0], state[1], state[2], state[3];
      var x := new Word[16];
      Decode(x, block, at, 64);
      ghost var q := Quad(a, b, c, d);
      a, b, c, d := Round1(a, b, c, d, x);
      a, b, c, d := Round2(a, b, c, d, x, q);
      a, b, c, d := Round3(a, b, c, d, x, q);
      a, b, c, d := Round4(a, b, c, d, x, q);
      assert Quad(a, b, c, d) == Steps(64, q, DecodeWords(block[at..at + 64])) by {
        assert x[..] == DecodeWords(block[at..at + 64]);
      }
      assert q == QuadOf(old(state[..]));
      // Arrays of bytes and arrays of words are different objects.
      assert (block as object) != (state as object);
      ghost var r := Compress(q, block[at..at + 64]);
      assert r == Quad(Add(q.a, a), Add(q.b, b), Add(q.c, c), Add(q.d, d));
      state[0] := Add(state[0], a);
      state[1] := Add(state[1], b);
      state[2] := Add(state[2], c);
      state[3] := Add(state[3], d);
      forall k | 0 <= k < x.Length {
        x[k] := 0;
      }
      assert block[at..at + 64] == old(block[at..at + 64]);
      assert QuadOf(state[..]) == r;
    }

    // Lines 256-259.
    method CountBits(length: Word, ghost total: nat)
      requires count.Length == 2 && CountsBits(count[0], count[1], total)
      modifies count
      ensures CountsBits(count[0], count[1], total + length)
    {
      CounterAdvances(count[0], count[1], total, length);
      hide CountsBits;
      var shifted: Word := 8 * length % TWO_32;
      count[0] := Add(count[0], shifted);
      if count[0] < shifted {
        count[1] := Add(count[1], 1);
      }
      count[1] := Add(count[1], length / 0x2000_0000);
    }

    // Lines 273-275: the whole blocks of `input` from `from` on.
    method TransformBlocks(input: array<Byte>, from: nat, length: Word, ghost n: nat)
      returns (i: nat)
      requires state.Length == 4 && from <= length <= input.Length
      requires n + length == |message| && message[n..] == input[..length]
      requires Digested(state[..], message, n + from) && TestCannotWrap(length, 64 - Waiting(n))
      modifies state
      ensures from <= i <= length < i + 64
      ensures Digested(state[..], message, n + i)
    {
      hide Fold, Compress, TestCannotWrap;
      assert (input as object) != (state as object);
      i := from;
      while (i + 64) % TWO_32 <= length
        invariant from <= i <= length
        invariant Digested(state[..], message, n + i)
        decreases length - i
      {
        assert i + 64 <= length by { NoWrap(i, length, n); }
        Transform(input, i);
        assert input[i..i + 64] == input[..length][i..i + 64];
        BlockOfSuffix(message, n, input[..length], i);
        FoldBlock(INITIAL, message, n + i);
        i := i + 64;
      }
      NoWrap(i, length, n);
    }

    // Lines 269-275: complete the buffered block with the head of `input`, then take its whole blocks.
    method TransformAll(input: array<Byte>, length: Word, index: nat, ghost m: seq<Byte>)
      returns (i: nat)
      requires Shape() && index == Waiting(|m|) && 64 - index <= length <= input.Length && input != buffer
      requires message == m + input[..length] && Digested(state[..], m, |m| - index)
      requires buffer[..index] == m[|m| - index..] && TestCannotWrap(length, 64 - index)
      modifies buffer, state
      ensures i <= length < i + 64
      ensures Digested(state[..], message, |m| + i) && message[|m| + i..] == input[i..length]
    {
      hide Fold, Compress, TestCannotWrap;
      assert (input as object) != (state as object) && (buffer as object) != (state as object);
      var firstPart: nat := 64 - index;
      ghost var start := |m| - index;
      MemCopy(buffer, index, input, 0, firstPart);
      assert buffer[0..64] == message[start..start + 64];
      Transform(buffer, 0);
      assert message[..start] == m[..start];
      FoldBlock(INITIAL, message, start);
      i := TransformBlocks(input, firstPart, length, |m|);
      TailOfInput(m, input[..length], i);
    }

    // Lines 251-284.
    method Update(input: array<Byte>, length: Word)
      requires Valid() && !finalized
      requires length <= input.Length && input != buffer && input != digest
      requires TestCannotWrap(length, 64 - Waiting(|message|))
      modifies this`message, buffer, count, state
      ensures Valid() && !finalized
      ensures message == old(message) + input[..length]
    {
      hide Fold, Compress, CountsBits, BitLength, TestCannotWrap, Waiting, Digested, Digest;
      ghost var m, start := message, |message| - Waiting(|message|);
      assert (input as object) != (state as object) && (input as object) != (count as object);
      assert (buffer as object) != (state as object) && (buffer as object) != (count as object);
      IndexFromCount(count[0], count[1], |m|);
      var index: nat := count[0] / 8 % 64;
      CountBits(length, |m|);

      message := m + input[..length];
      var i: nat;
      if length >= 64 - index {
        i := TransformAll(input, length, index, m);
        index := 0;
        AlignedTail(state[..], message, |m| + i);
      } else {
        i := 0;
        DigestedExtends(state[..], m, input[..length], start);
        AlignedTail(state[..], message, start);
      }
      MemCopy(buffer, index, input, i, length - i);
    }

    // Lines 307-317.
    method Pad()
      requires Valid() && !finalized
      modifies this`message, buffer, count, state
      ensures Valid() && !finalized && message == Padded(old(message))
    {
      hide Fold, Compress, BitLength, TestCannotWrap, Waiting, Digested, Digest, PadLength, ZeroCount, Padded,
        EncodeWords;
      ghost var m := message;
      var padding := new Byte[64](k => if k == 0 then 0x80 else 0);
      var bits := new Byte[8];
      Encode(bits, count, 8);
      CountIsLength(count[..], |m|);
      assert count[..8 / 4] == count[..];
      assert bits[..] == LengthBytes(|m|);

      IndexFromCount(count[0], count[1], |m|);
      var index: nat := count[0] / 8 % 64;
      var padLen := PadLength(index);
      PadReaches56(|m|);
      ShortEnough(padLen, |m|);
      Update(padding, padLen);
      ShortEnough(8, |message|);
      Update(bits, 8);
      PaddedParts(m, padding[..padLen], bits[..]);
    }

    // Lines 298-330.
    method Finalize()
      requires Valid()
      modifies this, buffer, count, state, digest
      ensures Valid() && finalized && message == old(message)
      ensures digest[..] == if old(finalized) then old(digest[..]) else Digest(message)
    {
      hide Fold, Padded, Digested, QuadBytes, EncodeWords, Waiting;
      if !finalized {
        ghost var m := message;
        Pad();
        WholeDigest(state[..], message);
        assert (digest as object) != (state as object) && (digest as object) != (count as object);
        assert state[..16 / 4] == state[..];
        Encode(digest, state, 16);
        assert digest[..] == Digest(m);
        forall k | 0 <= k < buffer.Length {
          buffer[k] := 0;
        }
        count[0], count[1] := 0, 0;
        finalized, message := true, m;
      }
    }

    // Lines 111-116. The length is converted to a 32-bit `size_type`.
    constructor FromText(text: array<Byte>)
      requires text.Length < TWO_32 - 64
      ensures Valid() && finalized && digest[..] == Digest(text[..])
    {
      finalized := false;
      buffer := new Byte[64];
      count := new Word[2](_ => 0);
      state := new Word[4];
      digest := new Byte[16];
      message := [];
      new;
      hide Fold, Digest, Digested;
      ghost var bytes := text[..];
      state[0], state[1], state[2], state[3] := 0x67452301, 0xefcdab89, 0x98badcfe, 0x10325476;
      NothingDigested(state[..]);
      assert Valid();
      hide Valid, TestCannotWrap, Waiting;
      ShortEnough(text.Length, 0);
      Update(text, text.Length);
      assert message == bytes;
      Finalize();
    }
  }

  function Concat(chunks: seq<seq<Byte>>): seq<Byte> {
    if chunks == [] then [] else Concat(chunks[..|chunks| - 1]) + chunks[|chunks| - 1]
  }

  lemma ConcatStep(chunks: seq<seq<Byte>>, k: nat)
    requires k <= |chunks|
    ensures Concat(chunks[..0]) == []
    ensures k < |chunks| ==> Concat(chunks[..k + 1]) == Concat(chunks[..k]) + chunks[k]
  {
    if k < |chunks| {
      assert chunks[..k + 1][..k] == chunks[..k];
    }
  }

  /** The documented use (md5.h:43-47): however the message is cut, the digest is that of the whole. */
  method DigestOfChunks(chunks: seq<seq<Byte>>) returns (digest: seq<Byte>)
    requires forall c | c in chunks :: |c| < TWO_32 - 64
    ensures digest == Digest(Concat(chunks))
  {
    hide Concat, Digest, MD5.Valid;
    ConcatStep(chunks, 0);
    var md5 := new MD5();
    var k := 0;
    while k < |chunks|
      invariant 0 <= k <= |chunks|
      invariant fresh(md5) && fresh(md5.buffer) && fresh(md5.count) && fresh(md5.state) && fresh(md5.digest)
      invariant md5.Valid() && !md5.finalized && md5.message == Concat(chunks[..k])
    {
      var chunk := chunks[k];
      var input := new Byte[|chunk|](i requires 0 <= i < |chunk| => chunk[i]);
      assert input[..] == chunk;
      ShortEnough(|chunk|, |md5.message|);
      md5.Update(input, |chunk|);
      ConcatStep(chunks, k);
      k := k + 1;
    }
    assert chunks[..k] == chunks;
    md5.Finalize();
    digest := md5.digest[..];
  }
}
