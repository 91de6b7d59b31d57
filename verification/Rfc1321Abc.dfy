/** The digest of "abc" that RFC 1321 prints in its appendix (A.5), computed by the definitions of this model. It depends
    on every constant, index, shift and byte order of the algorithm.
    The operations of a round are evaluated in four tables: the operands, the boolean functions, the sums, the rotations. */
module Rfc1321Abc {
  import opened SwitchTypes
  import opened LittleEndian
  import opened Rfc1321

  // The one block of the padded message, as words.
  const BLOCK: seq<Word> := [0x80636261, 0, 0, 0, 0, 0, 0, 0, 0, 0, 0, 0, 0, 0, 24, 0]

  function BlockWord(k: nat): Word {
    if k == 0 then 0x80636261 else if k == 14 then 24 else 0
  }

  lemma BlockWords(k: nat)
    requires k < 16
    ensures BLOCK[k] == BlockWord(k)
  {
  }

  // The four words after n operations.
  predicate After(n: nat, a: Word, b: Word, c: Word, d: Word) {
    Steps(n, INITIAL, BLOCK) == Quad(a, b, c, d)
  }

  // Operation i takes word w of the block, rotates by s and adds constant t.
  predicate Operands(i: nat, w: Word, s: nat, t: Word) {
    BlockWord(WordIndex(i)) == w && Shift(i) == s && T(i) == t
  }

  // The sum before the rotation, and after it.
  predicate Sums(a: int, f: int, w: int, t: int, sum: int, r: int, b: int, e: int) {
    (a + f + w + t) % 0x1_0000_0000 == sum && (r + b) % 0x1_0000_0000 == e
  }

  lemma SumsUp(a: Word, f: Word, w: Word, t: Word)
    ensures Add(Add(Add(a, f), w), t) == (a as int + f + w + t) % 0x1_0000_0000
  {
  }

  lemma Operation(i: nat, a: Word, b: Word, c: Word, d: Word, f: Word, w: Word, s: nat, t: Word, sum: Word, r: Word, e: Word)
    requires After(i, a, b, c, d) && Operands(i, w, s, t) && Mix(i, b, c, d) == f
    requires Sums(a, f, w, t, sum, r, b, e) && s <= 32 && RotateLeft(sum, s) == r
    ensures After(i + 1, d, e, b, c)
  {
    BlockWords(WordIndex(i));
    SumsUp(a, f, w, t);
    hide BlockWord, Mix, WordIndex, Add, T, RotateLeft, Shift;
  }

  lemma Round0()
    ensures After(0, 0x67452301, 0xefcdab89, 0x98badcfe, 0x10325476)
  {
  }

  // ----- Round 1 -----

  lemma Round1Operands()
    ensures Operands(0, 0x80636261, 7, 0xd76aa478)
    ensures Operands(1, 0, 12, 0xe8c7b756)
    ensures Operands(2, 0, 17, 0x242070db)
    ensures Operands(3, 0, 22, 0xc1bdceee)
    ensures Operands(4, 0, 7, 0xf57c0faf)
    ensures Operands(5, 0, 12, 0x4787c62a)
    ensures Operands(6, 0, 17, 0xa8304613)
    ensures Operands(7, 0, 22, 0xfd469501)
    ensures Operands(8, 0, 7, 0x698098d8)
    ensures Operands(9, 0, 12, 0x8b44f7af)
    ensures Operands(10, 0, 17, 0xffff5bb1)
    ensures Operands(11, 0, 22, 0x895cd7be)
    ensures Operands(12, 0, 7, 0x6b901122)
    ensures Operands(13, 0, 12, 0xfd987193)
    ensures Operands(14, 24, 17, 0xa679438e)
    ensures Operands(15, 0, 22, 0x49b40821)
  {
  }

  lemma Round1Mixed()
    ensures Mix(0, 0xefcdab89, 0x98badcfe, 0x10325476) == 0x98badcfe
    ensures Mix(1, 0xd6d117b4, 0xefcdab89, 0x98badcfe) == 0xceebcbca
    ensures Mix(2, 0x344a8432, 0xd6d117b4, 0xefcdab89) == 0xdfc52fb9
    ensures Mix(3, 0x2f6fbd72, 0x344a8432, 0xd6d117b4) == 0xf4da86b6
    ensures Mix(4, 0x7ad956f2, 0x2f6fbd72, 0x344a8432) == 0x2e4b9472
    ensures Mix(5, 0xc73741ef, 0x7ad956f2, 0x2f6fbd72) == 0x6a59fcf2
    ensures Mix(6, 0x8bac3051, 0xc73741ef, 0x7ad956f2) == 0xf37546e3
    ensures Mix(7, 0x207dc67b, 0x8bac3051, 0xc73741ef) == 0xc72e01d5
    ensures Mix(8, 0x928d99f6, 0x207dc67b, 0x8bac3051) == 0x092da073
    ensures Mix(9, 0x854b3712, 0x928d99f6, 0x207dc67b) == 0xa03dd17b
    ensures Mix(10, 0x74e2f284, 0x854b3712, 0x928d99f6) == 0x864f3b72
    ensures Mix(11, 0x3020401c, 0x74e2f284, 0x854b3712) == 0xb56b7706
    ensures Mix(12, 0x5ed49596, 0x3020401c, 0x74e2f284) == 0x30226214
    ensures Mix(13, 0xdda9b9a6, 0x5ed49596, 0x3020401c) == 0x7c80d19e
    ensures Mix(14, 0xa1051895, 0xdda9b9a6, 0x5ed49596) == 0xdfd19d86
    ensures Mix(15, 0xe396856b, 0xa1051895, 0xdda9b9a6) == 0xbd2d3885
  {
  }

  lemma Round1Sums()
    ensures Sums(0x67452301, 0x98badcfe, 0x80636261, 0xd76aa478, 0x57ce06d8, 0xe7036c2b, 0xefcdab89, 0xd6d117b4)
    ensures Sums(0x10325476, 0xceebcbca, 0, 0xe8c7b756, 0xc7e5d796, 0x5d796c7e, 0xd6d117b4, 0x344a8432)
    ensures Sums(0x98badcfe, 0xdfc52fb9, 0, 0x242070db, 0x9ca07d92, 0xfb253940, 0x344a8432, 0x2f6fbd72)
    ensures Sums(0xefcdab89, 0xf4da86b6, 0, 0xc1bdceee, 0xa666012d, 0x4b699980, 0x2f6fbd72, 0x7ad956f2)
    ensures Sums(0xd6d117b4, 0x2e4b9472, 0, 0xf57c0faf, 0xfa98bbd5, 0x4c5deafd, 0x7ad956f2, 0xc73741ef)
    ensures Sums(0x344a8432, 0x6a59fcf2, 0, 0x4787c62a, 0xe62c474e, 0xc474ee62, 0xc73741ef, 0x8bac3051)
    ensures Sums(0x2f6fbd72, 0xf37546e3, 0, 0xa8304613, 0xcb154a68, 0x94d1962a, 0x8bac3051, 0x207dc67b)
    ensures Sums(0x7ad956f2, 0xc72e01d5, 0, 0xfd469501, 0x3f4dedc8, 0x720fd37b, 0x207dc67b, 0x928d99f6)
    ensures Sums(0xc73741ef, 0x092da073, 0, 0x698098d8, 0x39e57b3a, 0xf2bd9d1c, 0x928d99f6, 0x854b3712)
    ensures Sums(0x8bac3051, 0xa03dd17b, 0, 0x8b44f7af, 0xb72ef97b, 0xef97bb72, 0x854b3712, 0x74e2f284)
    ensures Sums(0x207dc67b, 0x864f3b72, 0, 0xffff5bb1, 0xa6cc5d9e, 0xbb3d4d98, 0x74e2f284, 0x3020401c)
    ensures Sums(0x928d99f6, 0xb56b7706, 0, 0x895cd7be, 0xd155e8ba, 0x2eb4557a, 0x3020401c, 0x5ed49596)
    ensures Sums(0x854b3712, 0x30226214, 0, 0x6b901122, 0x20fdaa48, 0x7ed52410, 0x5ed49596, 0xdda9b9a6)
    ensures Sums(0x74e2f284, 0x7c80d19e, 0, 0xfd987193, 0xeefc35b5, 0xc35b5eef, 0xdda9b9a6, 0xa1051895)
    ensures Sums(0x3020401c, 0xdfd19d86, 24, 0xa679438e, 0xb66b2148, 0x42916cd6, 0xa1051895, 0xe396856b)
    ensures Sums(0x5ed49596, 0xbd2d3885, 0, 0x49b40821, 0x65b5d63c, 0x8f196d75, 0xe396856b, 0x72aff2e0)
  {
  }

  lemma Round1Rotated()
    ensures RotateLeft(0x57ce06d8, 7) == 0xe7036c2b
    ensures RotateLeft(0xc7e5d796, 12) == 0x5d796c7e
    ensures RotateLeft(0x9ca07d92, 17) == 0xfb253940
    ensures RotateLeft(0xa666012d, 22) == 0x4b699980
    ensures RotateLeft(0xfa98bbd5, 7) == 0x4c5deafd
    ensures RotateLeft(0xe62c474e, 12) == 0xc474ee62
    ensures RotateLeft(0xcb154a68, 17) == 0x94d1962a
    ensures RotateLeft(0x3f4dedc8, 22) == 0x720fd37b
    ensures RotateLeft(0x39e57b3a, 7) == 0xf2bd9d1c
    ensures RotateLeft(0xb72ef97b, 12) == 0xef97bb72
    ensures RotateLeft(0xa6cc5d9e, 17) == 0xbb3d4d98
    ensures RotateLeft(0xd155e8ba, 22) == 0x2eb4557a
    ensures RotateLeft(0x20fdaa48, 7) == 0x7ed52410
    ensures RotateLeft(0xeefc35b5, 12) == 0xc35b5eef
    ensures RotateLeft(0xb66b2148, 17) == 0x42916cd6
    ensures RotateLeft(0x65b5d63c, 22) == 0x8f196d75
  {
  }

  lemma Round1()
    ensures After(16, 0xdda9b9a6, 0x72aff2e0, 0xe396856b, 0xa1051895)
  {
    hide *;
    Round0();
    Round1Operands();
    Round1Mixed();
    Round1Sums();
    Round1Rotated();
    Operation(0, 0x67452301, 0xefcdab89, 0x98badcfe, 0x10325476,
              0x98badcfe, 0x80636261, 7, 0xd76aa478, 0x57ce06d8, 0xe7036c2b, 0xd6d117b4);
    Operation(1, 0x10325476, 0xd6d117b4, 0xefcdab89, 0x98badcfe,
              0xceebcbca, 0, 12, 0xe8c7b756, 0xc7e5d796, 0x5d796c7e, 0x344a8432);
    Operation(2, 0x98badcfe, 0x344a8432, 0xd6d117b4, 0xefcdab89,
              0xdfc52fb9, 0, 17, 0x242070db, 0x9ca07d92, 0xfb253940, 0x2f6fbd72);
    Operation(3, 0xefcdab89, 0x2f6fbd72, 0x344a8432, 0xd6d117b4,
              0xf4da86b6, 0, 22, 0xc1bdceee, 0xa666012d, 0x4b699980, 0x7ad956f2);
    Operation(4, 0xd6d117b4, 0x7ad956f2, 0x2f6fbd72, 0x344a8432,
              0x2e4b9472, 0, 7, 0xf57c0faf, 0xfa98bbd5, 0x4c5deafd, 0xc73741ef);
    Operation(5, 0x344a8432, 0xc73741ef, 0x7ad956f2, 0x2f6fbd72,
              0x6a59fcf2, 0, 12, 0x4787c62a, 0xe62c474e, 0xc474ee62, 0x8bac3051);
    Operation(6, 0x2f6fbd72, 0x8bac3051, 0xc73741ef, 0x7ad956f2,
              0xf37546e3, 0, 17, 0xa8304613, 0xcb154a68, 0x94d1962a, 0x207dc67b);
    Operation(7, 0x7ad956f2, 0x207dc67b, 0x8bac3051, 0xc73741ef,
              0xc72e01d5, 0, 22, 0xfd469501, 0x3f4dedc8, 0x720fd37b, 0x928d99f6);
    Operation(8, 0xc73741ef, 0x928d99f6, 0x207dc67b, 0x8bac3051,
              0x092da073, 0, 7, 0x698098d8, 0x39e57b3a, 0xf2bd9d1c, 0x854b3712);
    Operation(9, 0x8bac3051, 0x854b3712, 0x928d99f6, 0x207dc67b,
              0xa03dd17b, 0, 12, 0x8b44f7af, 0xb72ef97b, 0xef97bb72, 0x74e2f284);
    Operation(10, 0x207dc67b, 0x74e2f284, 0x854b3712, 0x928d99f6,
              0x864f3b72, 0, 17, 0xffff5bb1, 0xa6cc5d9e, 0xbb3d4d98, 0x3020401c);
    Operation(11, 0x928d99f6, 0x3020401c, 0x74e2f284, 0x854b3712,
              0xb56b7706, 0, 22, 0x895cd7be, 0xd155e8ba, 0x2eb4557a, 0x5ed49596);
    Operation(12, 0x854b3712, 0x5ed49596, 0x3020401c, 0x74e2f284,
              0x30226214, 0, 7, 0x6b901122, 0x20fdaa48, 0x7ed52410, 0xdda9b9a6);
    Operation(13, 0x74e2f284, 0xdda9b9a6, 0x5ed49596, 0x3020401c,
              0x7c80d19e, 0, 12, 0xfd987193, 0xeefc35b5, 0xc35b5eef, 0xa1051895);
    Operation(14, 0x3020401c, 0xa1051895, 0xdda9b9a6, 0x5ed49596,
              0xdfd19d86, 24, 17, 0xa679438e, 0xb66b2148, 0x42916cd6, 0xe396856b);
    Operation(15, 0x5ed49596, 0xe396856b, 0xa1051895, 0xdda9b9a6,
              0xbd2d3885, 0, 22, 0x49b40821, 0x65b5d63c, 0x8f196d75, 0x72aff2e0);
  }

  // ----- Round 2 -----

  lemma Round2Operands()
    ensures Operands(16, 0, 5, 0xf61e2562)
    ensures Operands(17, 0, 9, 0xc040b340)
    ensures Operands(18, 0, 14, 0x265e5a51)
    ensures Operands(19, 0x80636261, 20, 0xe9b6c7aa)
    ensures Operands(20, 0, 5, 0xd62f105d)
    ensures Operands(21, 0, 9, 0x02441453)
    ensures Operands(22, 0, 14, 0xd8a1e681)
    ensures Operands(23, 0, 20, 0xe7d3fbc8)
    ensures Operands(24, 0, 5, 0x21e1cde6)
    ensures Operands(25, 24, 9, 0xc33707d6)
    ensures Operands(26, 0, 14, 0xf4d50d87)
    ensures Operands(27, 0, 20, 0x455a14ed)
    ensures Operands(28, 0, 5, 0xa9e3e905)
    ensures Operands(29, 0, 9, 0xfcefa3f8)
    ensures Operands(30, 0, 14, 0x676f02d9)
    ensures Operands(31, 0, 20, 0x8d2a4c8a)
  {
  }

  lemma Round2Mixed()
    ensures Mix(16, 0x72aff2e0, 0xe396856b, 0xa1051895) == 0x629795ea
    ensures Mix(17, 0x3e9e9126, 0x72aff2e0, 0xe396856b) == 0x32bff3a2
    ensures Mix(18, 0x4a1d804e, 0x3e9e9126, 0x72aff2e0) == 0x4e1d8146
    ensures Mix(19, 0xe25e1652, 0x4a1d804e, 0x3e9e9126) == 0x621f104a
    ensures Mix(20, 0xb5b204e4, 0xe25e1652, 0x4a1d804e) == 0xa0521654
    ensures Mix(21, 0x59a8ffda, 0xb5b204e4, 0xe25e1652) == 0x55a816f6
    ensures Mix(22, 0x6d002f1e, 0x59a8ffda, 0xb5b204e4) == 0x6d08ff1e
    ensures Mix(23, 0xabfc7920, 0x6d002f1e, 0x59a8ffda) == 0x2da87904
    ensures Mix(24, 0x47092c07, 0xabfc7920, 0x6d002f1e) == 0xc7fc7c26
    ensures Mix(25, 0xb7f268cf, 0x47092c07, 0xabfc7920) == 0xe7f16c07
    ensures Mix(26, 0x09388eff, 0xb7f268cf, 0x47092c07) == 0xb1fa4ccf
    ensures Mix(27, 0xfe1623b1, 0x09388eff, 0xb7f268cf) == 0xbe1aa6b1
    ensures Mix(28, 0x786acb8f, 0xfe1623b1, 0x09388eff) == 0xfe2eab8f
    ensures Mix(29, 0x790a77fb, 0x786acb8f, 0xfe1623b1) == 0x786aebbf
    ensures Mix(30, 0x9f47e4f8, 0x790a77fb, 0x786acb8f) == 0x1942f4f8
    ensures Mix(31, 0xa62884aa, 0x9f47e4f8, 0x790a77fb) == 0xa64d84aa
  {
  }

  lemma Round2Sums()
    ensures Sums(0xdda9b9a6, 0x629795ea, 0, 0xf61e2562, 0x365f74f2, 0xcbee9e46, 0x72aff2e0, 0x3e9e9126)
    ensures Sums(0xa1051895, 0x32bff3a2, 0, 0xc040b340, 0x9405bf77, 0x0b7eef28, 0x3e9e9126, 0x4a1d804e)
    ensures Sums(0xe396856b, 0x4e1d8146, 0, 0x265e5a51, 0x58126102, 0x98409604, 0x4a1d804e, 0xe25e1652)
    ensures Sums(0x72aff2e0, 0x621f104a, 0x80636261, 0xe9b6c7aa, 0x3ee92d35, 0xd353ee92, 0xe25e1652, 0xb5b204e4)
    ensures Sums(0x3e9e9126, 0xa0521654, 0, 0xd62f105d, 0xb51fb7d7, 0xa3f6faf6, 0xb5b204e4, 0x59a8ffda)
    ensures Sums(0x4a1d804e, 0x55a816f6, 0, 0x02441453, 0xa209ab97, 0x13572f44, 0x59a8ffda, 0x6d002f1e)
    ensures Sums(0xe25e1652, 0x6d08ff1e, 0, 0xd8a1e681, 0x2808fbf1, 0x3efc4a02, 0x6d002f1e, 0xabfc7920)
    ensures Sums(0xb5b204e4, 0x2da87904, 0, 0xe7d3fbc8, 0xcb2e79b0, 0x9b0cb2e7, 0xabfc7920, 0x47092c07)
    ensures Sums(0x59a8ffda, 0xc7fc7c26, 0, 0x21e1cde6, 0x438749e6, 0x70e93cc8, 0x47092c07, 0xb7f268cf)
    ensures Sums(0x6d002f1e, 0xe7f16c07, 24, 0xc33707d6, 0x1828a313, 0x51462630, 0xb7f268cf, 0x09388eff)
    ensures Sums(0xabfc7920, 0xb1fa4ccf, 0, 0xf4d50d87, 0x52cbd376, 0xf4dd94b2, 0x09388eff, 0xfe1623b1)
    ensures Sums(0x47092c07, 0xbe1aa6b1, 0, 0x455a14ed, 0x4a7de7a5, 0x7a54a7de, 0xfe1623b1, 0x786acb8f)
    ensures Sums(0xb7f268cf, 0xfe2eab8f, 0, 0xa9e3e905, 0x6004fd63, 0x009fac6c, 0x786acb8f, 0x790a77fb)
    ensures Sums(0x09388eff, 0x786aebbf, 0, 0xfcefa3f8, 0x7e931eb6, 0x263d6cfd, 0x790a77fb, 0x9f47e4f8)
    ensures Sums(0xfe1623b1, 0x1942f4f8, 0, 0x676f02d9, 0x7ec81b82, 0x06e09fb2, 0x9f47e4f8, 0xa62884aa)
    ensures Sums(0x786acb8f, 0xa64d84aa, 0, 0x8d2a4c8a, 0xabe29cc3, 0xcc3abe29, 0xa62884aa, 0x726342d3)
  {
  }

  lemma Round2Rotated()
    ensures RotateLeft(0x365f74f2, 5) == 0xcbee9e46
    ensures RotateLeft(0x9405bf77, 9) == 0x0b7eef28
    ensures RotateLeft(0x58126102, 14) == 0x98409604
    ensures RotateLeft(0x3ee92d35, 20) == 0xd353ee92
    ensures RotateLeft(0xb51fb7d7, 5) == 0xa3f6faf6
    ensures RotateLeft(0xa209ab97, 9) == 0x13572f44
    ensures RotateLeft(0x2808fbf1, 14) == 0x3efc4a02
    ensures RotateLeft(0xcb2e79b0, 20) == 0x9b0cb2e7
    ensures RotateLeft(0x438749e6, 5) == 0x70e93cc8
    ensures RotateLeft(0x1828a313, 9) == 0x51462630
    ensures RotateLeft(0x52cbd376, 14) == 0xf4dd94b2
    ensures RotateLeft(0x4a7de7a5, 20) == 0x7a54a7de
    ensures RotateLeft(0x6004fd63, 5) == 0x009fac6c
    ensures RotateLeft(0x7e931eb6, 9) == 0x263d6cfd
    ensures RotateLeft(0x7ec81b82, 14) == 0x06e09fb2
    ensures RotateLeft(0xabe29cc3, 20) == 0xcc3abe29
  {
  }

  lemma Round2()
    ensures After(32, 0x790a77fb, 0x726342d3, 0xa62884aa, 0x9f47e4f8)
  {
    hide *;
    Round1();
    Round2Operands();
    Round2Mixed();
    Round2Sums();
    Round2Rotated();
    Operation(16, 0xdda9b9a6, 0x72aff2e0, 0xe396856b, 0xa1051895,
              0x629795ea, 0, 5, 0xf61e2562, 0x365f74f2, 0xcbee9e46, 0x3e9e9126);
    Operation(17, 0xa1051895, 0x3e9e9126, 0x72aff2e0, 0xe396856b,
              0x32bff3a2, 0, 9, 0xc040b340, 0x9405bf77, 0x0b7eef28, 0x4a1d804e);
    Operation(18, 0xe396856b, 0x4a1d804e, 0x3e9e9126, 0x72aff2e0,
              0x4e1d8146, 0, 14, 0x265e5a51, 0x58126102, 0x98409604, 0xe25e1652);
    Operation(19, 0x72aff2e0, 0xe25e1652, 0x4a1d804e, 0x3e9e9126,
              0x621f104a, 0x80636261, 20, 0xe9b6c7aa, 0x3ee92d35, 0xd353ee92, 0xb5b204e4);
    Operation(20, 0x3e9e9126, 0xb5b204e4, 0xe25e1652, 0x4a1d804e,
              0xa0521654, 0, 5, 0xd62f105d, 0xb51fb7d7, 0xa3f6faf6, 0x59a8ffda);
    Operation(21, 0x4a1d804e, 0x59a8ffda, 0xb5b204e4, 0xe25e1652,
              0x55a816f6, 0, 9, 0x02441453, 0xa209ab97, 0x13572f44, 0x6d002f1e);
    Operation(22, 0xe25e1652, 0x6d002f1e, 0x59a8ffda, 0xb5b204e4,
              0x6d08ff1e, 0, 14, 0xd8a1e681, 0x2808fbf1, 0x3efc4a02, 0xabfc7920);
    Operation(23, 0xb5b204e4, 0xabfc7920, 0x6d002f1e, 0x59a8ffda,
              0x2da87904, 0, 20, 0xe7d3fbc8, 0xcb2e79b0, 0x9b0cb2e7, 0x47092c07);
    Operation(24, 0x59a8ffda, 0x47092c07, 0xabfc7920, 0x6d002f1e,
              0xc7fc7c26, 0, 5, 0x21e1cde6, 0x438749e6, 0x70e93cc8, 0xb7f268cf);
    Operation(25, 0x6d002f1e, 0xb7f268cf, 0x47092c07, 0xabfc7920,
              0xe7f16c07, 24, 9, 0xc33707d6, 0x1828a313, 0x51462630, 0x09388eff);
    Operation(26, 0xabfc7920, 0x09388eff, 0xb7f268cf, 0x47092c07,
              0xb1fa4ccf, 0, 14, 0xf4d50d87, 0x52cbd376, 0xf4dd94b2, 0xfe1623b1);
    Operation(27, 0x47092c07, 0xfe1623b1, 0x09388eff, 0xb7f268cf,
              0xbe1aa6b1, 0, 20, 0x455a14ed, 0x4a7de7a5, 0x7a54a7de, 0x786acb8f);
    Operation(28, 0xb7f268cf, 0x786acb8f, 0xfe1623b1, 0x09388eff,
              0xfe2eab8f, 0, 5, 0xa9e3e905, 0x6004fd63, 0x009fac6c, 0x790a77fb);
    Operation(29, 0x09388eff, 0x790a77fb, 0x786acb8f, 0xfe1623b1,
              0x786aebbf, 0, 9, 0xfcefa3f8, 0x7e931eb6, 0x263d6cfd, 0x9f47e4f8);
    Operation(30, 0xfe1623b1, 0x9f47e4f8, 0x790a77fb, 0x786acb8f,
              0x1942f4f8, 0, 14, 0x676f02d9, 0x7ec81b82, 0x06e09fb2, 0xa62884aa);
    Operation(31, 0x786acb8f, 0xa62884aa, 0x9f47e4f8, 0x790a77fb,
              0xa64d84aa, 0, 20, 0x8d2a4c8a, 0xabe29cc3, 0xcc3abe29, 0x726342d3);
  }

  // ----- Round 3 -----

  lemma Round3Operands()
    ensures Operands(32, 0, 4, 0xfffa3942)
    ensures Operands(33, 0, 11, 0x8771f681)
    ensures Operands(34, 0, 16, 0x6d9d6122)
    ensures Operands(35, 24, 23, 0xfde5380c)
    ensures Operands(36, 0, 4, 0xa4beea44)
    ensures Operands(37, 0, 11, 0x4bdecfa9)
    ensures Operands(38, 0, 16, 0xf6bb4b60)
    ensures Operands(39, 0, 23, 0xbebfbc70)
    ensures Operands(40, 0, 4, 0x289b7ec6)
    ensures Operands(41, 0x80636261, 11, 0xeaa127fa)
    ensures Operands(42, 0, 16, 0xd4ef3085)
    ensures Operands(43, 0, 23, 0x04881d05)
    ensures Operands(44, 0, 4, 0xd9d4d039)
    ensures Operands(45, 0, 11, 0xe6db99e5)
    ensures Operands(46, 0, 16, 0x1fa27cf8)
    ensures Operands(47, 0, 23, 0xc4ac5665)
  {
  }

  lemma Round3Mixed()
    ensures Mix(32, 0x726342d3, 0xa62884aa, 0x9f47e4f8) == 0x4b0c2281
    ensures Mix(33, 0xb3707ebf, 0x726342d3, 0xa62884aa) == 0x673bb8c6
    ensures Mix(34, 0x60127b2e, 0xb3707ebf, 0x726342d3) == 0xa1014742
    ensures Mix(35, 0x8d212ff5, 0x60127b2e, 0xb3707ebf) == 0x5e432a64
    ensures Mix(36, 0x3b0875c7, 0x8d212ff5, 0x60127b2e) == 0xd63b211c
    ensures Mix(37, 0x21b117b9, 0x3b0875c7, 0x8d212ff5) == 0x97984d8b
    ensures Mix(38, 0x6e7429d5, 0x21b117b9, 0x3b0875c7) == 0x74cd4bab
    ensures Mix(39, 0x3575227e, 0x6e7429d5, 0x21b117b9) == 0x7ab01c12
    ensures Mix(40, 0x5a2f5ea5, 0x3575227e, 0x6e7429d5) == 0x012e550e
    ensures Mix(41, 0x11de1779, 0x5a2f5ea5, 0x3575227e) == 0x7e846ba2
    ensures Mix(42, 0xfadcaa38, 0x11de1779, 0x5a2f5ea5) == 0xb12de3e4
    ensures Mix(43, 0x31c465ca, 0xfadcaa38, 0x11de1779) == 0xdac6d88b
    ensures Mix(44, 0x4c6124f4, 0x31c465ca, 0xfadcaa38) == 0x8779eb06
    ensures Mix(45, 0x7f2e507b, 0x4c6124f4, 0x31c465ca) == 0x028b1145
    ensures Mix(46, 0x99d9679d, 0x7f2e507b, 0x4c6124f4) == 0xaa961312
    ensures Mix(47, 0x8fae6399, 0x99d9679d, 0x7f2e507b) == 0x6959547f
  {
  }

  lemma Round3Sums()
    ensures Sums(0x790a77fb, 0x4b0c2281, 0, 0xfffa3942, 0xc410d3be, 0x410d3bec, 0x726342d3, 0xb3707ebf)
    ensures Sums(0x9f47e4f8, 0x673bb8c6, 0, 0x8771f681, 0x8df5943f, 0xaca1fc6f, 0xb3707ebf, 0x60127b2e)
    ensures Sums(0xa62884aa, 0xa1014742, 0, 0x6d9d6122, 0xb4c72d0e, 0x2d0eb4c7, 0x60127b2e, 0x8d212ff5)
    ensures Sums(0x726342d3, 0x5e432a64, 24, 0xfde5380c, 0xce8ba55b, 0xade745d2, 0x8d212ff5, 0x3b0875c7)
    ensures Sums(0xb3707ebf, 0xd63b211c, 0, 0xa4beea44, 0x2e6a8a1f, 0xe6a8a1f2, 0x3b0875c7, 0x21b117b9)
    ensures Sums(0x60127b2e, 0x97984d8b, 0, 0x4bdecfa9, 0x43899862, 0x4cc3121c, 0x21b117b9, 0x6e7429d5)
    ensures Sums(0x8d212ff5, 0x74cd4bab, 0, 0xf6bb4b60, 0xf8a9c700, 0xc700f8a9, 0x6e7429d5, 0x3575227e)
    ensures Sums(0x3b0875c7, 0x7ab01c12, 0, 0xbebfbc70, 0x74784e49, 0x24ba3c27, 0x3575227e, 0x5a2f5ea5)
    ensures Sums(0x21b117b9, 0x012e550e, 0, 0x289b7ec6, 0x4b7aeb8d, 0xb7aeb8d4, 0x5a2f5ea5, 0x11de1779)
    ensures Sums(0x6e7429d5, 0x7e846ba2, 0x80636261, 0xeaa127fa, 0x57fd1fd2, 0xe8fe92bf, 0x11de1779, 0xfadcaa38)
    ensures Sums(0x3575227e, 0xb12de3e4, 0, 0xd4ef3085, 0xbb9236e7, 0x36e7bb92, 0xfadcaa38, 0x31c465ca)
    ensures Sums(0x5a2f5ea5, 0xdac6d88b, 0, 0x04881d05, 0x397e5435, 0x1a9cbf2a, 0x31c465ca, 0x4c6124f4)
    ensures Sums(0x11de1779, 0x8779eb06, 0, 0xd9d4d039, 0x732cd2b8, 0x32cd2b87, 0x4c6124f4, 0x7f2e507b)
    ensures Sums(0xfadcaa38, 0x028b1145, 0, 0xe6db99e5, 0xe4435562, 0x1aab1722, 0x7f2e507b, 0x99d9679d)
    ensures Sums(0x31c465ca, 0xaa961312, 0, 0x1fa27cf8, 0xfbfcf5d4, 0xf5d4fbfc, 0x99d9679d, 0x8fae6399)
    ensures Sums(0x4c6124f4, 0x6959547f, 0, 0xc4ac5665, 0x7a66cfd8, 0xec3d3367, 0x8fae6399, 0x7beb9700)
  {
  }

  lemma Round3Rotated()
    ensures RotateLeft(0xc410d3be, 4) == 0x410d3bec
    ensures RotateLeft(0x8df5943f, 11) == 0xaca1fc6f
    ensures RotateLeft(0xb4c72d0e, 16) == 0x2d0eb4c7
    ensures RotateLeft(0xce8ba55b, 23) == 0xade745d2
    ensures RotateLeft(0x2e6a8a1f, 4) == 0xe6a8a1f2
    ensures RotateLeft(0x43899862, 11) == 0x4cc3121c
    ensures RotateLeft(0xf8a9c700, 16) == 0xc700f8a9
    ensures RotateLeft(0x74784e49, 23) == 0x24ba3c27
    ensures RotateLeft(0x4b7aeb8d, 4) == 0xb7aeb8d4
    ensures RotateLeft(0x57fd1fd2, 11) == 0xe8fe92bf
    ensures RotateLeft(0xbb9236e7, 16) == 0x36e7bb92
    ensures RotateLeft(0x397e5435, 23) == 0x1a9cbf2a
    ensures RotateLeft(0x732cd2b8, 4) == 0x32cd2b87
    ensures RotateLeft(0xe4435562, 11) == 0x1aab1722
    ensures RotateLeft(0xfbfcf5d4, 16) == 0xf5d4fbfc
    ensures RotateLeft(0x7a66cfd8, 23) == 0xec3d3367
  {
  }

  lemma Round3()
    ensures After(48, 0x7f2e507b, 0x7beb9700, 0x8fae6399, 0x99d9679d)
  {
    hide *;
    Round2();
    Round3Operands();
    Round3Mixed();
    Round3Sums();
    Round3Rotated();
    Operation(32, 0x790a77fb, 0x726342d3, 0xa62884aa, 0x9f47e4f8,
              0x4b0c2281, 0, 4, 0xfffa3942, 0xc410d3be, 0x410d3bec, 0xb3707ebf);
    Operation(33, 0x9f47e4f8, 0xb3707ebf, 0x726342d3, 0xa62884aa,
              0x673bb8c6, 0, 11, 0x8771f681, 0x8df5943f, 0xaca1fc6f, 0x60127b2e);
    Operation(34, 0xa62884aa, 0x60127b2e, 0xb3707ebf, 0x726342d3,
              0xa1014742, 0, 16, 0x6d9d6122, 0xb4c72d0e, 0x2d0eb4c7, 0x8d212ff5);
    Operation(35, 0x726342d3, 0x8d212ff5, 0x60127b2e, 0xb3707ebf,
              0x5e432a64, 24, 23, 0xfde5380c, 0xce8ba55b, 0xade745d2, 0x3b0875c7);
    Operation(36, 0xb3707ebf, 0x3b0875c7, 0x8d212ff5, 0x60127b2e,
              0xd63b211c, 0, 4, 0xa4beea44, 0x2e6a8a1f, 0xe6a8a1f2, 0x21b117b9);
    Operation(37, 0x60127b2e, 0x21b117b9, 0x3b0875c7, 0x8d212ff5,
              0x97984d8b, 0, 11, 0x4bdecfa9, 0x43899862, 0x4cc3121c, 0x6e7429d5);
    Operation(38, 0x8d212ff5, 0x6e7429d5, 0x21b117b9, 0x3b0875c7,
              0x74cd4bab, 0, 16, 0xf6bb4b60, 0xf8a9c700, 0xc700f8a9, 0x3575227e);
    Operation(39, 0x3b0875c7, 0x3575227e, 0x6e7429d5, 0x21b117b9,
              0x7ab01c12, 0, 23, 0xbebfbc70, 0x74784e49, 0x24ba3c27, 0x5a2f5ea5);
    Operation(40, 0x21b117b9, 0x5a2f5ea5, 0x3575227e, 0x6e7429d5,
              0x012e550e, 0, 4, 0x289b7ec6, 0x4b7aeb8d, 0xb7aeb8d4, 0x11de1779);
    Operation(41, 0x6e7429d5, 0x11de1779, 0x5a2f5ea5, 0x3575227e,
              0x7e846ba2, 0x80636261, 11, 0xeaa127fa, 0x57fd1fd2, 0xe8fe92bf, 0xfadcaa38);
    Operation(42, 0x3575227e, 0xfadcaa38, 0x11de1779, 0x5a2f5ea5,
              0xb12de3e4, 0, 16, 0xd4ef3085, 0xbb9236e7, 0x36e7bb92, 0x31c465ca);
    Operation(43, 0x5a2f5ea5, 0x31c465ca, 0xfadcaa38, 0x11de1779,
              0xdac6d88b, 0, 23, 0x04881d05, 0x397e5435, 0x1a9cbf2a, 0x4c6124f4);
    Operation(44, 0x11de1779, 0x4c6124f4, 0x31c465ca, 0xfadcaa38,
              0x8779eb06, 0, 4, 0xd9d4d039, 0x732cd2b8, 0x32cd2b87, 0x7f2e507b);
    Operation(45, 0xfadcaa38, 0x7f2e507b, 0x4c6124f4, 0x31c465ca,
              0x028b1145, 0, 11, 0xe6db99e5, 0xe4435562, 0x1aab1722, 0x99d9679d);
    Operation(46, 0x31c465ca, 0x99d9679d, 0x7f2e507b, 0x4c6124f4,
              0xaa961312, 0, 16, 0x1fa27cf8, 0xfbfcf5d4, 0xf5d4fbfc, 0x8fae6399);
    Operation(47, 0x4c6124f4, 0x8fae6399, 0x99d9679d, 0x7f2e507b,
              0x6959547f, 0, 23, 0xc4ac5665, 0x7a66cfd8, 0xec3d3367, 0x7beb9700);
  }

  // ----- Round 4 -----

  lemma Round4Operands()
    ensures Operands(48, 0x80636261, 6, 0xf4292244)
    ensures Operands(49, 0, 10, 0x432aff97)
    ensures Operands(50, 24, 15, 0xab9423a7)
    ensures Operands(51, 0, 21, 0xfc93a039)
    ensures Operands(52, 0, 6, 0x655b59c3)
    ensures Operands(53, 0, 10, 0x8f0ccc92)
    ensures Operands(54, 0, 15, 0xffeff47d)
    ensures Operands(55, 0, 21, 0x85845dd1)
    ensures Operands(56, 0, 6, 0x6fa87e4f)
    ensures Operands(57, 0, 10, 0xfe2ce6e0)
    ensures Operands(58, 0, 15, 0xa3014314)
    ensures Operands(59, 0, 21, 0x4e0811a1)
    ensures Operands(60, 0, 6, 0xf7537e82)
    ensures Operands(61, 0, 10, 0xbd3af235)
    ensures Operands(62, 0, 15, 0x2ad7d2bb)
    ensures Operands(63, 0, 21, 0xeb86d391)
  {
  }

  lemma Round4Mixed()
    ensures Mix(48, 0x7beb9700, 0x8fae6399, 0x99d9679d) == 0xf041fcfb
    ensures Mix(49, 0x7b201df8, 0x7beb9700, 0x8fae6399) == 0x009a0afe
    ensures Mix(50, 0xf4e8e96e, 0x7b201df8, 0x7beb9700) == 0x8fdcf407
    ensures Mix(51, 0xb298cefd, 0xf4e8e96e, 0x7b201df8) == 0x42370791
    ensures Mix(52, 0x8bf025c4, 0xb298cefd, 0xf4e8e96e) == 0x396ff928
    ensures Mix(53, 0x06cc5e8a, 0x8bf025c4, 0xb298cefd) == 0xc41f5a4e
    ensures Mix(54, 0x5b0d97aa, 0x06cc5e8a, 0x8bf025c4) == 0x79c38131
    ensures Mix(55, 0x7d632dd0, 0x5b0d97aa, 0x06cc5e8a) == 0xa67e3a5f
    ensures Mix(56, 0x3bfa2c27, 0x7d632dd0, 0x5b0d97aa) == 0xc29941a7
    ensures Mix(57, 0x7f81cc35, 0x3bfa2c27, 0x7d632dd0) == 0xc467f218
    ensures Mix(58, 0x094454ab, 0x7f81cc35, 0x3bfa2c27) == 0xb2c41bce
    ensures Mix(59, 0x4f9dbe3f, 0x094454ab, 0x7f81cc35) == 0xc6bbeb54
    ensures Mix(60, 0x7327d604, 0x4f9dbe3f, 0x094454ab) == 0xb822416b
    ensures Mix(61, 0x310ade8f, 0x7327d604, 0x4f9dbe3f) == 0xc24d09cb
    ensures Mix(62, 0x624d8cb2, 0x310ade8f, 0x7327d604) == 0xdfd77374
    ensures Mix(63, 0xe484b9d8, 0x624d8cb2, 0x310ade8f) == 0x8cb8354a
  {
  }

  lemma Round4Sums()
    ensures Sums(0x7f2e507b, 0xf041fcfb, 0x80636261, 0xf4292244, 0xe3fcd21b, 0xff3486f8, 0x7beb9700, 0x7b201df8)
    ensures Sums(0x99d9679d, 0x009a0afe, 0, 0x432aff97, 0xdd9e7232, 0x79c8cb76, 0x7b201df8, 0xf4e8e96e)
    ensures Sums(0x8fae6399, 0x8fdcf407, 24, 0xab9423a7, 0xcb1f7b5f, 0xbdafe58f, 0xf4e8e96e, 0xb298cefd)
    ensures Sums(0x7beb9700, 0x42370791, 0, 0xfc93a039, 0xbab63eca, 0xd95756c7, 0xb298cefd, 0x8bf025c4)
    ensures Sums(0x7b201df8, 0x396ff928, 0, 0x655b59c3, 0x19eb70e3, 0x7adc38c6, 0x8bf025c4, 0x06cc5e8a)
    ensures Sums(0xf4e8e96e, 0xc41f5a4e, 0, 0x8f0ccc92, 0x4815104e, 0x54413920, 0x06cc5e8a, 0x5b0d97aa)
    ensures Sums(0xb298cefd, 0x79c38131, 0, 0xffeff47d, 0x2c4c44ab, 0x22559626, 0x5b0d97aa, 0x7d632dd0)
    ensures Sums(0x8bf025c4, 0xa67e3a5f, 0, 0x85845dd1, 0xb7f2bdf4, 0xbe96fe57, 0x7d632dd0, 0x3bfa2c27)
    ensures Sums(0x06cc5e8a, 0xc29941a7, 0, 0x6fa87e4f, 0x390e1e80, 0x4387a00e, 0x3bfa2c27, 0x7f81cc35)
    ensures Sums(0x5b0d97aa, 0xc467f218, 0, 0xfe2ce6e0, 0x1da270a2, 0x89c28876, 0x7f81cc35, 0x094454ab)
    ensures Sums(0x7d632dd0, 0xb2c41bce, 0, 0xa3014314, 0xd3288cb2, 0x46596994, 0x094454ab, 0x4f9dbe3f)
    ensures Sums(0x3bfa2c27, 0xc6bbeb54, 0, 0x4e0811a1, 0x50be291c, 0x238a17c5, 0x4f9dbe3f, 0x7327d604)
    ensures Sums(0x7f81cc35, 0xb822416b, 0, 0xf7537e82, 0x2ef78c22, 0xbde3088b, 0x7327d604, 0x310ade8f)
    ensures Sums(0x094454ab, 0xc24d09cb, 0, 0xbd3af235, 0x88cc50ab, 0x3142ae23, 0x310ade8f, 0x624d8cb2)
    ensures Sums(0x4f9dbe3f, 0xdfd77374, 0, 0x2ad7d2bb, 0x5a4d046e, 0x82372d26, 0x624d8cb2, 0xe484b9d8)
    ensures Sums(0x7327d604, 0x8cb8354a, 0, 0xeb86d391, 0xeb66dedf, 0xdbfd6cdb, 0xe484b9d8, 0xc08226b3)
  {
  }

  lemma Round4Rotated()
    ensures RotateLeft(0xe3fcd21b, 6) == 0xff3486f8
    ensures RotateLeft(0xdd9e7232, 10) == 0x79c8cb76
    ensures RotateLeft(0xcb1f7b5f, 15) == 0xbdafe58f
    ensures RotateLeft(0xbab63eca, 21) == 0xd95756c7
    ensures RotateLeft(0x19eb70e3, 6) == 0x7adc38c6
    ensures RotateLeft(0x4815104e, 10) == 0x54413920
    ensures RotateLeft(0x2c4c44ab, 15) == 0x22559626
    ensures RotateLeft(0xb7f2bdf4, 21) == 0xbe96fe57
    ensures RotateLeft(0x390e1e80, 6) == 0x4387a00e
    ensures RotateLeft(0x1da270a2, 10) == 0x89c28876
    ensures RotateLeft(0xd3288cb2, 15) == 0x46596994
    ensures RotateLeft(0x50be291c, 21) == 0x238a17c5
    ensures RotateLeft(0x2ef78c22, 6) == 0xbde3088b
    ensures RotateLeft(0x88cc50ab, 10) == 0x3142ae23
    ensures RotateLeft(0x5a4d046e, 15) == 0x82372d26
    ensures RotateLeft(0xeb66dedf, 21) == 0xdbfd6cdb
  {
  }

  lemma Round4()
    ensures After(64, 0x310ade8f, 0xc08226b3, 0xe484b9d8, 0x624d8cb2)
  {
    hide *;
    Round3();
    Round4Operands();
    Round4Mixed();
    Round4Sums();
    Round4Rotated();
    Operation(48, 0x7f2e507b, 0x7beb9700, 0x8fae6399, 0x99d9679d,
              0xf041fcfb, 0x80636261, 6, 0xf4292244, 0xe3fcd21b, 0xff3486f8, 0x7b201df8);
    Operation(49, 0x99d9679d, 0x7b201df8, 0x7beb9700, 0x8fae6399,
              0x009a0afe, 0, 10, 0x432aff97, 0xdd9e7232, 0x79c8cb76, 0xf4e8e96e);
    Operation(50, 0x8fae6399, 0xf4e8e96e, 0x7b201df8, 0x7beb9700,
              0x8fdcf407, 24, 15, 0xab9423a7, 0xcb1f7b5f, 0xbdafe58f, 0xb298cefd);
    Operation(51, 0x7beb9700, 0xb298cefd, 0xf4e8e96e, 0x7b201df8,
              0x42370791, 0, 21, 0xfc93a039, 0xbab63eca, 0xd95756c7, 0x8bf025c4);
    Operation(52, 0x7b201df8, 0x8bf025c4, 0xb298cefd, 0xf4e8e96e,
              0x396ff928, 0, 6, 0x655b59c3, 0x19eb70e3, 0x7adc38c6, 0x06cc5e8a);
    Operation(53, 0xf4e8e96e, 0x06cc5e8a, 0x8bf025c4, 0xb298cefd,
              0xc41f5a4e, 0, 10, 0x8f0ccc92, 0x4815104e, 0x54413920, 0x5b0d97aa);
    Operation(54, 0xb298cefd, 0x5b0d97aa, 0x06cc5e8a, 0x8bf025c4,
              0x79c38131, 0, 15, 0xffeff47d, 0x2c4c44ab, 0x22559626, 0x7d632dd0);
    Operation(55, 0x8bf025c4, 0x7d632dd0, 0x5b0d97aa, 0x06cc5e8a,
              0xa67e3a5f, 0, 21, 0x85845dd1, 0xb7f2bdf4, 0xbe96fe57, 0x3bfa2c27);
    Operation(56, 0x06cc5e8a, 0x3bfa2c27, 0x7d632dd0, 0x5b0d97aa,
              0xc29941a7, 0, 6, 0x6fa87e4f, 0x390e1e80, 0x4387a00e, 0x7f81cc35);
    Operation(57, 0x5b0d97aa, 0x7f81cc35, 0x3bfa2c27, 0x7d632dd0,
              0xc467f218, 0, 10, 0xfe2ce6e0, 0x1da270a2, 0x89c28876, 0x094454ab);
    Operation(58, 0x7d632dd0, 0x094454ab, 0x7f81cc35, 0x3bfa2c27,
              0xb2c41bce, 0, 15, 0xa3014314, 0xd3288cb2, 0x46596994, 0x4f9dbe3f);
    Operation(59, 0x3bfa2c27, 0x4f9dbe3f, 0x094454ab, 0x7f81cc35,
              0xc6bbeb54, 0, 21, 0x4e0811a1, 0x50be291c, 0x238a17c5, 0x7327d604);
    Operation(60, 0x7f81cc35, 0x7327d604, 0x4f9dbe3f, 0x094454ab,
              0xb822416b, 0, 6, 0xf7537e82, 0x2ef78c22, 0xbde3088b, 0x310ade8f);
    Operation(61, 0x094454ab, 0x310ade8f, 0x7327d604, 0x4f9dbe3f,
              0xc24d09cb, 0, 10, 0xbd3af235, 0x88cc50ab, 0x3142ae23, 0x624d8cb2);
    Operation(62, 0x4f9dbe3f, 0x624d8cb2, 0x310ade8f, 0x7327d604,
              0xdfd77374, 0, 15, 0x2ad7d2bb, 0x5a4d046e, 0x82372d26, 0xe484b9d8);
    Operation(63, 0x7327d604, 0xe484b9d8, 0x624d8cb2, 0x310ade8f,
              0x8cb8354a, 0, 21, 0xeb86d391, 0xeb66dedf, 0xdbfd6cdb, 0xc08226b3);
  }

  // ----- The digest -----

  const ABC: seq<Byte> := [0x61, 0x62, 0x63]

  lemma PaddedBytes()
    ensures |Padded(ABC)| == BLOCK_SIZE
    ensures forall j | 0 <= j < BLOCK_SIZE ::
              Padded(ABC)[j] == if j < 3 then ABC[j] else if j == 3 then 0x80 else if j == 56 then 24 else 0
  {
    assert ZeroCount(3) == 52;
    assert BitLength(3) == 24;
    LengthOfAbc();
    hide LengthBytes, ZeroCount;
  }

  lemma LengthOfAbc()
    ensures LengthBytes(3) == [24, 0, 0, 0, 0, 0, 0, 0]
  {
    assert BitLength(3) == 24;
  }

  lemma DecodedBlock()
    ensures DecodeWords(Padded(ABC)) == BLOCK
  {
    PaddedBytes();
    hide Padded, DecodeWords, Assemble;
    var bs := Padded(ABC);
    forall k | 0 <= k < 16 ensures DecodeWords(bs)[k] == BLOCK[k] {
      DecodedAt(bs, k);
      BlockWords(k);
      AssembledWord(k);
    }
  }

  lemma AssembledWord(k: nat)
    ensures Assemble(0x61, 0x62, 0x63, 0x80) == BlockWord(0) && Assemble(24, 0, 0, 0) == BlockWord(14)
    ensures Assemble(0, 0, 0, 0) == 0 && (k != 0 && k != 14 ==> BlockWord(k) == 0)
  {
  }

  // What the last operation leaves is added to the initial words.
  lemma AbcCompressed()
    ensures |Padded(ABC)| == BLOCK_SIZE
    ensures Fold(INITIAL, Padded(ABC)) == Quad(0x98500190, 0xb04fd23c, 0x7d3f96d6, 0x727fe128)
  {
    PaddedBytes();
    DecodedBlock();
    Round4();
    var bs := Padded(ABC);
    hide Padded, DecodeWords, Steps;
    assert bs[..|bs| - BLOCK_SIZE] == [] && bs[|bs| - BLOCK_SIZE..] == bs;
  }

  lemma AbcBytes()
    ensures QuadBytes(Quad(0x98500190, 0xb04fd23c, 0x7d3f96d6, 0x727fe128))
            == [0x90, 0x01, 0x50, 0x98, 0x3c, 0xd2, 0x4f, 0xb0, 0xd6, 0x96, 0x3f, 0x7d, 0x28, 0xe1, 0x7f, 0x72]
  {
  }

  /** The digest of "abc" is 900150983cd24fb0d6963f7d28e17f72. */
  lemma DigestOfAbc()
    ensures Digest(ABC) == [0x90, 0x01, 0x50, 0x98, 0x3c, 0xd2, 0x4f, 0xb0, 0xd6, 0x96, 0x3f, 0x7d, 0x28, 0xe1, 0x7f, 0x72]
  {
    AbcCompressed();
    AbcBytes();
    hide Fold, Padded, QuadBytes;
  }
}
