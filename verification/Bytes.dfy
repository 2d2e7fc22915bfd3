/** Bytes, 32-bit words and the little-endian layout in which both ends of a
    connection, and the stack segment, hold an integer. */
module Bytes {

  type byte = x: int | 0 <= x < 256
  type word = x: int | 0 <= x < 0x1_0000_0000

  /** The four bytes of a word, least significant first. */
  function Encode(w: word): (b: seq<byte>)
    ensures |b| == 4
  {
    [w % 256, w / 256 % 256, w / 65536 % 256, w / 16777216]
  }

  function Decode(b: seq<byte>): word
    requires |b| == 4
  {
    b[0] as int + 256 * b[1] as int + 65536 * b[2] as int + 16777216 * b[3] as int
  }

  lemma DecodeEncode(w: word)
    ensures Decode(Encode(w)) == w
  {
    assert w == 256 * (w / 256) + w % 256;
    assert w / 65536 == w / 256 / 256;
    assert w / 16777216 == w / 65536 / 256;
  }

  lemma LowByte(b: byte, r: nat)
    ensures (b + 256 * r) % 256 == b && (b + 256 * r) / 256 == r
  {
  }

  lemma DivTwice(w: nat)
    ensures w / 65536 == w / 256 / 256 && w / 16777216 == w / 65536 / 256
  {
  }

  lemma EncodeDecode(b: seq<byte>)
    requires |b| == 4
    ensures Encode(Decode(b)) == b
  {
    var w: int, q: int := Decode(b), b[2] as int + 256 * b[3] as int;
    var r: int := b[1] as int + 256 * q;
    assert w == b[0] as int + 256 * r;
    DivTwice(w);
    LowByte(b[0], r);
    LowByte(b[1], q);
    LowByte(b[2], b[3]);
  }

  /** `mem` with `bytes` written from position `at`. */
  function Overwrite(mem: seq<byte>, at: nat, bytes: seq<byte>): (r: seq<byte>)
    requires at + |bytes| <= |mem|
    ensures |r| == |mem|
  {
    mem[..at] + bytes + mem[at + |bytes|..]
  }
}
