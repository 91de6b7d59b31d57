/** Words as little-endian bytes: the byte order of MD5 (section 2 of RFC 1321) and of the host's packed structs. */
module LittleEndian {
  import opened SwitchTypes

  function ByteOf(w: Word, k: nat): Byte
    requires k < 4
  {
    match k
    case 0 => w % 0x100
    case 1 => w / 0x100 % 0x100
    case 2 => w / 0x1_0000 % 0x100
    case 3 => w / 0x100_0000 % 0x100
  }

  function Assemble(b0: Byte, b1: Byte, b2: Byte, b3: Byte): Word {
    b0 as int + 0x100 * b1 as int + 0x1_0000 * b2 as int + 0x100_0000 * b3 as int
  }

  function WordAt(bs: seq<Byte>, j: nat): Word
    requires j + 4 <= |bs|
  {
    Assemble(bs[j], bs[j + 1], bs[j + 2], bs[j + 3])
  }

  function EncodeWords(ws: seq<Word>): (bs: seq<Byte>)
    ensures |bs| == 4 * |ws|
  {
    seq(4 * |ws|, j requires 0 <= j < 4 * |ws| => ByteOf(ws[j / 4], j % 4))
  }

  function DecodeWords(bs: seq<Byte>): (ws: seq<Word>)
    ensures |ws| == |bs| / 4
  {
    seq(|bs| / 4, i requires 0 <= i < |bs| / 4 => WordAt(bs, 4 * i))
  }

  lemma BytesOfAssemble(b0: Byte, b1: Byte, b2: Byte, b3: Byte)
    ensures var w := Assemble(b0, b1, b2, b3);
            ByteOf(w, 0) == b0 && ByteOf(w, 1) == b1 && ByteOf(w, 2) == b2 && ByteOf(w, 3) == b3
  {
    var w: int := Assemble(b0, b1, b2, b3);
    assert w / 0x100 == b1 as int + 0x100 * b2 as int + 0x1_0000 * b3 as int;
    assert w / 0x1_0000 == b2 as int + 0x100 * b3 as int;
    assert w / 0x100_0000 == b3;
  }

  lemma AssembleOfBytes(w: Word)
    ensures Assemble(ByteOf(w, 0), ByteOf(w, 1), ByteOf(w, 2), ByteOf(w, 3)) == w
  {
    var h: int := w / 0x100;
    var t: int := w / 0x1_0000;
    assert h / 0x100 == t;
    assert t / 0x100 == w / 0x100_0000 < 0x100;
  }

  lemma EncodedAt(ws: seq<Word>, i: nat, k: nat)
    requires i < |ws| && k < 4
    ensures EncodeWords(ws)[4 * i + k] == ByteOf(ws[i], k)
  {
    assert (4 * i + k) / 4 == i && (4 * i + k) % 4 == k;
  }

  lemma DecodedAt(bs: seq<Byte>, i: nat)
    requires i < |bs| / 4
    ensures DecodeWords(bs)[i] == Assemble(bs[4 * i], bs[4 * i + 1], bs[4 * i + 2], bs[4 * i + 3])
  {
  }

  /** Decoding undoes encoding. */
  lemma DecodeEncode(ws: seq<Word>)
    ensures DecodeWords(EncodeWords(ws)) == ws
  {
    hide ByteOf, Assemble, EncodeWords;
    var bs := EncodeWords(ws);
    forall i | 0 <= i < |ws| ensures DecodeWords(bs)[i] == ws[i] {
      EncodedAt(ws, i, 0);
      EncodedAt(ws, i, 1);
      EncodedAt(ws, i, 2);
      EncodedAt(ws, i, 3);
      AssembleOfBytes(ws[i]);
    }
  }

  lemma EncodedDecodedAt(bs: seq<Byte>, i: nat, k: nat)
    requires |bs| % 4 == 0 && i < |bs| / 4 && k < 4
    ensures EncodeWords(DecodeWords(bs))[4 * i + k] == bs[4 * i + k]
  {
    EncodedAt(DecodeWords(bs), i, k);
    DecodedAt(bs, i);
    BytesOfAssemble(bs[4 * i], bs[4 * i + 1], bs[4 * i + 2], bs[4 * i + 3]);
    hide ByteOf, Assemble, EncodeWords, DecodeWords;
  }

  /** Encoding undoes decoding on every array whose length is a multiple of four. */
  lemma EncodeDecode(bs: seq<Byte>)
    requires |bs| % 4 == 0
    ensures EncodeWords(DecodeWords(bs)) == bs
  {
    hide ByteOf, Assemble, EncodeWords, DecodeWords;
    forall j | 0 <= j < |bs| ensures EncodeWords(DecodeWords(bs))[j] == bs[j] {
      EncodedDecodedAt(bs, j / 4, j % 4);
    }
  }
}
