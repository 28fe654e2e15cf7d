/**
  SHA-1 as RFC 3174 defines it: how a message is padded (section 4), and how its blocks
  are digested one after the other (sections 5 and 6.1).
 */
module SecureHash {

  type Byte = bv8
  type Word = bv32

  datatype Digest = Digest(a: Word, b: Word, c: Word, d: Word, e: Word)

  const INITIAL := Digest(0x67452301, 0xefcdab89, 0x98badcfe, 0x10325476, 0xc3d2e1f0)

  // ---------------------------------------------------------------- section 4

  function ToByte(n: nat): Byte
    requires n < 256
  {
    n as bv8
  }

  function LowByte(n: nat): Byte {
    ToByte(n % 256)
  }

  /** The `i`th byte, from the end, of `n`. */
  function ByteOf(n: nat, i: nat): Byte
    decreases i
  {
    if i == 0 then LowByte(n) else ByteOf(n / 256, i - 1)
  }

  /** `n` in `count` bytes, the most significant one first. */
  function BigEndian(n: nat, count: nat): (r: seq<Byte>)
    ensures |r| == count
  {
    seq(count, i requires 0 <= i < count => ByteOf(n, count - 1 - i))
  }

  /** As many zeros as leave room for the length at the end of a block. */
  function Zeros(length: nat): nat {
    (55 - length) % 64
  }

  function ZeroBytes(n: nat): (r: seq<Byte>)
    ensures |r| == n
  {
    seq(n, _ => 0 as bv8)
  }

  /** `bits` is the number that goes in the last eight bytes. */
  function PaddedWith(message: seq<Byte>, bits: nat): (r: seq<Byte>)
    ensures |r| % 64 == 0
  {
    message + [0x80] + ZeroBytes(Zeros(|message|)) + BigEndian(bits, 8)
  }

  function Padded(message: seq<Byte>): (r: seq<Byte>)
    ensures |r| % 64 == 0
  {
    PaddedWith(message, 8 * |message|)
  }

  // ---------------------------------------------------------------- section 5

  function RotateLeft(x: Word, bits: nat): Word
    requires 0 < bits < 32
  {
    (x << bits) | (x >> (32 - bits))
  }

  function Choice(b: Word, c: Word, d: Word): Word {
    (b & c) | (!b & d)
  }

  function Parity(b: Word, c: Word, d: Word): Word {
    b ^ c ^ d
  }

  function Majority(b: Word, c: Word, d: Word): Word {
    (b & c) | (b & d) | (c & d)
  }

  function F(t: nat, b: Word, c: Word, d: Word): Word {
    if t < 20 then Choice(b, c, d)
    else if t < 40 then Parity(b, c, d)
    else if t < 60 then Majority(b, c, d)
    else Parity(b, c, d)
  }

  function K(t: nat): Word {
    if t < 20 then 0x5a827999 else if t < 40 then 0x6ed9eba1 else if t < 60 then 0x8f1bbcdc else 0xca62c1d6
  }

  // ---------------------------------------------------------------- section 6.1

  function WordOf(a: Byte, b: Byte, c: Byte, d: Byte): Word {
    (a as bv32 << 24) | (b as bv32 << 16) | (c as bv32 << 8) | d as bv32
  }

  function WordAt(block: seq<Byte>, t: nat): Word
    requires |block| == 64 && t < 16
  {
    WordOf(block[4 * t], block[4 * t + 1], block[4 * t + 2], block[4 * t + 3])
  }

  function Mixed(x: Word, y: Word, z: Word, w: Word): Word {
    RotateLeft(x ^ y ^ z ^ w, 1)
  }

  function W(block: seq<Byte>, t: nat): Word
    requires |block| == 64
  {
    if t < 16 then WordAt(block, t)
    else Mixed(W(block, t - 3), W(block, t - 8), W(block, t - 14), W(block, t - 16))
  }

  function Round(r: Digest, t: nat, w: Word): Digest {
    Digest(Plus(Plus(Plus(Plus(RotateLeft(r.a, 5), F(t, r.b, r.c, r.d)), r.e), w), K(t)), r.a, RotateLeft(r.b, 30), r.c, r.d)
  }

  /** Words are added modulo 2^32. */
  function Plus(x: Word, y: Word): Word {
    x + y
  }

  /** The first `t` rounds. */
  function Rounds(r: Digest, block: seq<Byte>, t: nat): Digest
    requires |block| == 64
  {
    if t == 0 then r else Round(Rounds(r, block, t - 1), t - 1, W(block, t - 1))
  }

  function Sum(r: Digest, s: Digest): Digest {
    Digest(Plus(r.a, s.a), Plus(r.b, s.b), Plus(r.c, s.c), Plus(r.d, s.d), Plus(r.e, s.e))
  }

  function Processed(h: Digest, block: seq<Byte>): Digest
    requires |block| == 64
  {
    Sum(h, Rounds(h, block, 80))
  }

  function Folded(bytes: seq<Byte>): Digest
    requires |bytes| % 64 == 0
  {
    if bytes == [] then INITIAL
    else Processed(Folded(bytes[..|bytes| - 64]), bytes[|bytes| - 64..])
  }

  /** The digest of a message. */
  function Hash(message: seq<Byte>): Digest {
    Folded(Padded(message))
  }

  // ---------------------------------------------------------------- facts about them

  lemma FoldedAppend(bytes: seq<Byte>, block: seq<Byte>)
    requires |bytes| % 64 == 0 && |block| == 64
    ensures Folded(bytes + block) == Processed(Folded(bytes), block)
  {
    hide Processed;
    var whole := bytes + block;
    assert whole[..|whole| - 64] == bytes && whole[|whole| - 64..] == block;
  }

  lemma {:induction false} ByteOfHigh(n: nat, i: nat)
    ensures ByteOf(n, i + 4) == ByteOf(n / 0x1_0000_0000, i)
    decreases i
  {
    if i > 0 {
      ByteOfHigh(n / 256, i - 1);
      assert n / 256 / 0x1_0000_0000 == n / 0x1_0000_0000 / 256;
    } else {
      assert n / 256 / 256 / 256 / 256 == n / 0x1_0000_0000;
      assert ByteOf(n, 4) == ByteOf(n / 256, 3) == ByteOf(n / 256 / 256, 2) == ByteOf(n / 256 / 256 / 256, 1);
    }
  }

  lemma ByteOfLow(n: nat, i: nat)
    requires i < 4
    ensures ByteOf(n, i) == ByteOf(n % 0x1_0000_0000, i)
  {
    hide ByteOf, LowByte;
    var q, m := n / 0x1_0000_0000, n % 0x1_0000_0000;
    ByteOfUnfolds(n);
    ByteOfUnfolds(m);
    LowParts(n, q, m);
  }

  lemma LowParts(n: nat, q: nat, m: nat)
    requires n == q * 0x1_0000_0000 + m
    ensures LowByte(n) == LowByte(m) && LowByte(n / 256) == LowByte(m / 256)
    ensures LowByte(n / 256 / 256) == LowByte(m / 256 / 256) && LowByte(n / 256 / 256 / 256) == LowByte(m / 256 / 256 / 256)
  {
    hide LowByte;
    assert n == q * 0x1_0000_0000 + m;
    assert n / 256 == q * 0x100_0000 + m / 256;
    assert n / 256 / 256 == q * 0x1_0000 + m / 256 / 256;
    assert n / 256 / 256 / 256 == q * 0x100 + m / 256 / 256 / 256;
    SameLowByte(n, m, q * 0x100_0000);
    SameLowByte(n / 256, m / 256, q * 0x1_0000);
    SameLowByte(n / 256 / 256, m / 256 / 256, q * 0x100);
    SameLowByte(n / 256 / 256 / 256, m / 256 / 256 / 256, q);
  }

  lemma SameLowByte(n: nat, m: nat, q: nat)
    requires n == 256 * q + m
    ensures LowByte(n) == LowByte(m)
  {
    hide ToByte;
    assert n % 256 == m % 256;
  }

  lemma ByteOfUnfolds(n: nat)
    ensures ByteOf(n, 0) == LowByte(n) && ByteOf(n, 1) == LowByte(n / 256)
    ensures ByteOf(n, 2) == LowByte(n / 256 / 256) && ByteOf(n, 3) == LowByte(n / 256 / 256 / 256)
  {
    hide LowByte;
  }

  /** Eight bytes are two words. */
  lemma BigEndianSplits(n: nat)
    ensures BigEndian(n, 8) == BigEndian(n / 0x1_0000_0000, 4) + BigEndian(n % 0x1_0000_0000, 4)
  {
    hide ByteOf;
    var high, low := n / 0x1_0000_0000, n % 0x1_0000_0000;
    forall i | 0 <= i < 8 ensures BigEndian(n, 8)[i] == (BigEndian(high, 4) + BigEndian(low, 4))[i] {
      if i < 4 {
        ByteOfHigh(n, 3 - i);
      } else {
        ByteOfLow(n, 7 - i);
      }
    }
  }

  /** Two words that hold the high and the low half of `n` modulo 2^64. */
  lemma BigEndianWraps(n: nat)
    ensures BigEndian(n / 0x1_0000_0000 % 0x1_0000_0000, 4) + BigEndian(n % 0x1_0000_0000, 4) == BigEndian(n, 8)
  {
    hide ByteOf;
    BigEndianSplits(n);
    var high := n / 0x1_0000_0000;
    forall i | 0 <= i < 4 ensures BigEndian(high, 4)[i] == BigEndian(high % 0x1_0000_0000, 4)[i] {
      ByteOfLow(high, 3 - i);
    }
    assert BigEndian(high, 4) == BigEndian(high % 0x1_0000_0000, 4);
  }
}
