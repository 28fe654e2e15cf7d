/**
  The streaming form of SHA-1, which is given a message in pieces and keeps less than
  a block of it, and the simple form, which keeps what it has not processed in a string.
 */
module SecureHashStreams {
  import opened SecureHash

  /** Lengths of what is added are counted in an `int`. */
  const MAX_INT := 0x7FFF_FFFF

  /** The state of the streaming form: five words, and part of a block. */
  class SHA1 {
    var H0: Word
    var H1: Word
    var H2: Word
    var H3: Word
    var H4: Word
    const bytes: array<Byte>
    var unprocessedBytes: nat
    /** Counts in 32 bits. */
    var size: nat
    /** All bytes added so far. */
    ghost var message: seq<Byte>

    ghost function Words(): Digest
      reads this
    {
      Digest(H0, H1, H2, H3, H4)
    }

    ghost predicate Valid()
      reads this, bytes
    {
      && bytes.Length == 64 && unprocessedBytes < 64 && unprocessedBytes == |message| % 64
      && Words() == Folded(message[..|message| - unprocessedBytes])
      && bytes[..unprocessedBytes] == message[|message| - unprocessedBytes..]
      && size == |message| % 0x1_0000_0000
    }

    constructor ()
      ensures Valid() && fresh(bytes) && message == []
    {
      bytes := new Byte[64](_ => 0);
      H0, H1, H2, H3, H4 := 0x67452301, 0xefcdab89, 0x98badcfe, 0x10325476, 0xc3d2e1f0;
      unprocessedBytes, size, message := 0, 0, [];
    }

    /** Expands a block. */
    method Expand() returns (w: array<Word>)
      requires bytes.Length == 64
      ensures fresh(w) && w.Length == 80 && forall t :: 0 <= t < 80 ==> w[t] == W(bytes[..], t)
    {
      hide Mixed, WordOf;
      ghost var block := bytes[..];
      w := new Word[80];
      var t := 0;
      while t < 16
        invariant 0 <= t <= 16
        invariant forall i :: 0 <= i < t ==> w[i] == W(block, i)
      {
        w[t] := SumOf(bytes[4 * t], bytes[4 * t + 1], bytes[4 * t + 2], bytes[4 * t + 3]);
        t := t + 1;
      }
      while t < 80
        invariant 16 <= t <= 80
        invariant forall i :: 0 <= i < t ==> w[i] == W(block, i)
      {
        w[t] := Mixed(w[t - 3], w[t - 8], w[t - 14], w[t - 16]);
        t := t + 1;
      }
    }

    method Process()
      requires bytes.Length == 64 && unprocessedBytes == 64
      modifies this
      ensures unprocessedBytes == 0 && Words() == Processed(old(Words()), bytes[..])
      ensures size == old(size) && message == old(message)
    {
      hide W, RotateLeft, F, K, Plus;
      ghost var block := bytes[..];
      var w := Expand();
      var a, b, c, d, e := H0, H1, H2, H3, H4;
      var t := 0;
      while t < 80
        invariant 0 <= t <= 80
        invariant Digest(a, b, c, d, e) == Rounds(old(Words()), block, t)
        modifies {}
      {
        var f, k := Choose(t, b, c, d);
        var temp := Plus(Plus(Plus(Plus(RotateLeft(a, 5), f), e), w[t]), k);
        e := d;
        d := c;
        c := RotateLeft(b, 30);
        b := a;
        a := temp;
        t := t + 1;
      }
      H0 := Plus(H0, a);
      H1 := Plus(H1, b);
      H2 := Plus(H2, c);
      H3 := Plus(H3, d);
      H4 := Plus(H4, e);
      unprocessedBytes := 0;
    }

    /** Copies and processes until all of `data` is processed or less than a block is left. */
    method AddBytes(data: seq<Byte>)
      requires Valid() && 0 < |data| <= MAX_INT
      modifies this, bytes
      ensures Valid() && message == old(message) + data
    {
      hide Folded;
      size := (size + |data|) % 0x1_0000_0000;
      message := message + data;
      var done := 0;
      assert old(message) + data[..0] == old(message);
      while done < |data|
        invariant 0 <= done <= |data| && message == old(message) + data && size == |message| % 0x1_0000_0000
        invariant Holds(old(message) + data[..done])
      {
        done := AddSome(data, done, old(message));
      }
      assert data[..done] == data;
    }

    /** The words and the partial block are those after `m`. */
    ghost predicate Holds(m: seq<Byte>)
      reads this, bytes
    {
      && bytes.Length == 64 && unprocessedBytes < 64 && unprocessedBytes == |m| % 64
      && Words() == Folded(m[..|m| - unprocessedBytes])
      && bytes[..unprocessedBytes] == m[|m| - unprocessedBytes..]
    }

    /** Copies as much as completes the block, or as there is. */
    method AddSome(data: seq<Byte>, done: nat, ghost before: seq<Byte>) returns (now: nat)
      requires done < |data| && Holds(before + data[..done])
      modifies this, bytes
      ensures done < now <= |data| && Holds(before + data[..now])
      ensures size == old(size) && message == old(message)
    {
      hide Folded, Processed;
      ghost var m := before + data[..done];
      ghost var kept := bytes[..unprocessedBytes];
      now := Copy(data, done);
      Appended(before, data, done, now, |kept|);
      if unprocessedBytes == 64 {
        FoldedAppend(m[..|m| - |kept|], bytes[..]);
        assert bytes[..] == bytes[..64];
        Process();
      }
    }

    /** Adds the first byte of the padding and finishes the block if it has no room for the length. */
    method StartPadding()
      requires Valid()
      modifies this, bytes
      ensures Valid()
      ensures var used := (|old(message)| + 1) % 64;
              && message == old(message) + [0x80] + (if used > 56 then ZeroBytes(64 - used) else [])
              && unprocessedBytes == if used > 56 then 0 else used
    {
      hide Folded, ZeroBytes;
      AddBytes([0x80]);
      if unprocessedBytes > 56 {
        BlockIsFilled(|message|);
        AddBytes(ZeroBytes(64 - unprocessedBytes));
      }
    }

    /** Adds the padding, after which nothing is left unprocessed. */
    method Pad()
      requires Valid()
      modifies this, bytes
      ensures Valid() && message == PaddedWith(old(message), CountedBits(old(message)))
    {
      hide Folded, ByteOf, PaddedWith, BigEndian, ZeroBytes, Hash, CountedBits;
      var totalBitsL := size * 8 % 0x1_0000_0000;
      var totalBitsH := size / 0x2000_0000;
      StartPadding();
      var neededZeros := 56 - unprocessedBytes;
      var footer := ZeroBytes(neededZeros) + BigEndian(totalBitsH, 4) + BigEndian(totalBitsL, 4);
      AddBytes(footer);
      FooterPads(old(message), message, totalBitsH, totalBitsL);
    }

    /** Pads the message and returns the digest. */
    method GetDigest() returns (digest: seq<Byte>)
      requires Valid()
      modifies this, bytes
      ensures Valid() && message == PaddedWith(old(message), CountedBits(old(message)))
      ensures digest == DigestBytes(Folded(PaddedWith(old(message), CountedBits(old(message)))))
    {
      hide Folded, WordBytes, PaddedWith;
      Pad();
      assert message[..|message|] == message;
      digest := WordBytes(H0) + WordBytes(H1) + WordBytes(H2) + WordBytes(H3) + WordBytes(H4);
    }

    method Copy(data: seq<Byte>, done: nat) returns (now: nat)
      requires bytes.Length == 64 && unprocessedBytes < 64 && done < |data|
      modifies this`unprocessedBytes, bytes
      ensures done < now <= |data| && unprocessedBytes == old(unprocessedBytes) + (now - done) <= 64
      ensures now == |data| || unprocessedBytes == 64
      ensures bytes[..unprocessedBytes] == old(bytes[..unprocessedBytes]) + data[done..now]
    {
      var needed := 64 - unprocessedBytes;
      var toCopy := if |data| - done < needed then |data| - done else needed;
      forall i | 0 <= i < toCopy {
        bytes[unprocessedBytes + i] := data[done + i];
      }
      unprocessedBytes := unprocessedBytes + toCopy;
      now := done + toCopy;
    }
  }

  function WordBytes(w: Word): (r: seq<Byte>)
    ensures |r| == 4
  {
    [((w >> 24) & 0xFF) as bv8, ((w >> 16) & 0xFF) as bv8, ((w >> 8) & 0xFF) as bv8, (w & 0xFF) as bv8]
  }

  /** The twenty bytes of a digest. */
  function DigestBytes(d: Digest): (r: seq<Byte>)
    ensures |r| == 20
  {
    WordBytes(d.a) + WordBytes(d.b) + WordBytes(d.c) + WordBytes(d.d) + WordBytes(d.e)
  }

  /** The length in bits as the streaming form knows it. */
  function CountedBits(message: seq<Byte>): nat {
    8 * (|message| % 0x1_0000_0000)
  }

  /** The end of `m` and some more of the data. */
  lemma Appended(before: seq<Byte>, data: seq<Byte>, done: nat, now: nat, kept: nat)
    requires done <= now <= |data| && kept <= |before| + done
    ensures var m, m' := before + data[..done], before + data[..now];
            && m'[..|m| - kept] == m[..|m| - kept]
            && m'[|m| - kept..] == m[|m| - kept..] + data[done..now]
            && m'[..|m'|] == m' == m[..|m| - kept] + m'[|m| - kept..] && m'[|m'|..] == []
  {
    assert data[..now] == data[..done] + data[done..now];
  }

  /** A word may be put together by adding as well. */
  function SumOf(a: Byte, b: Byte, c: Byte, d: Byte): (w: Word)
    ensures w == WordOf(a, b, c, d)
  {
    (a as bv32 << 24) + (b as bv32 << 16) + (c as bv32 << 8) + d as bv32
  }

  /** A word's complement is its exclusive or with all ones. */
  lemma ChoiceByXor(b: Word, c: Word, d: Word)
    ensures (b & c) | ((b ^ 0xFFFF_FFFF) & d) == Choice(b, c, d)
  {
    assert b ^ 0xFFFF_FFFF == !b;
  }

  lemma ParityAndMajority(b: Word, c: Word, d: Word)
    ensures b ^ c ^ d == Parity(b, c, d) && (b & c) | (b & d) | (c & d) == Majority(b, c, d)
  {
  }

  /** The function and the constant of a round. */
  method Choose(t: nat, b: Word, c: Word, d: Word) returns (f: Word, k: Word)
    ensures f == F(t, b, c, d) && k == K(t)
  {
    hide Choice, Parity, Majority;
    ChoiceByXor(b, c, d);
    ParityAndMajority(b, c, d);
    if t < 20 {
      k := 0x5a827999;
      f := (b & c) | ((b ^ 0xFFFF_FFFF) & d);
    } else if t < 40 {
      k := 0x6ed9eba1;
      f := b ^ c ^ d;
    } else if t < 60 {
      k := 0x8f1bbcdc;
      f := (b & c) | (b & d) | (c & d);
    } else {
      k := 0xca62c1d6;
      f := b ^ c ^ d;
    }
  }

  lemma BlockIsFilled(length: nat)
    ensures (length + (64 - length % 64)) % 64 == 0
  {
  }

  /** The padding in one step or two is the padding of section 4. */
  lemma FooterPads(before: seq<Byte>, after: seq<Byte>, high: nat, low: nat)
    requires var size := |before| % 0x1_0000_0000;
             low == size * 8 % 0x1_0000_0000 && high == size / 0x2000_0000
    requires var used := (|before| + 1) % 64;
             after == before + [0x80] + (if used > 56 then ZeroBytes(64 - used) else [])
                      + (ZeroBytes(56 - (if used > 56 then 0 else used)) + BigEndian(high, 4) + BigEndian(low, 4))
    ensures after == PaddedWith(before, CountedBits(before))
  {
    hide BigEndian, Zeros, ZeroBytes;
    var bits := CountedBits(before);
    assert bits / 0x1_0000_0000 == high && bits % 0x1_0000_0000 == low;
    BigEndianSplits(bits);
    var used := (|before| + 1) % 64;
    var first := if used > 56 then 64 - used else 0;
    var second := 56 - (if used > 56 then 0 else used);
    assert used == (|before| + 1) - 64 * ((|before| + 1) / 64);
    ZerosFit(|before|, first + second, (|before| + 1) / 64);
    ZerosAre(|before|, first + second);
    ZerosJoin(first, second);
    NoZeros();
  }

  lemma ZerosFit(length: nat, zeros: nat, blocks: nat)
    requires length + 1 + zeros == 64 * blocks + 56 || length + 1 + zeros == 64 * blocks + 120
    ensures (length + 1 + zeros) % 64 == 56
  {
  }

  lemma ZerosJoin(a: nat, b: nat)
    ensures ZeroBytes(a) + ZeroBytes(b) == ZeroBytes(a + b)
  {
  }

  /** The length the streaming form pads with is right if and only if it fits in 32 bits. */
  lemma LengthIsRight(message: seq<Byte>)
    ensures CountedBits(message) == 8 * |message| <==> |message| < 0x1_0000_0000
    ensures |message| < 0x1_0000_0000 ==> PaddedWith(message, CountedBits(message)) == Padded(message)
  {
    hide PaddedWith;
  }

  function Concat(pieces: seq<seq<Byte>>): seq<Byte> {
    if pieces == [] then [] else Concat(pieces[..|pieces| - 1]) + pieces[|pieces| - 1]
  }

  /** The digest of a message does not depend on how it is cut into pieces. */
  method HashInPieces(pieces: seq<seq<Byte>>) returns (digest: seq<Byte>)
    requires forall i :: 0 <= i < |pieces| ==> 0 < |pieces[i]| <= MAX_INT
    requires |Concat(pieces)| < 0x1_0000_0000
    ensures digest == DigestBytes(Hash(Concat(pieces)))
  {
    hide Folded, DigestBytes, PaddedWith;
    var sha1 := new SHA1();
    for i := 0 to |pieces|
      invariant fresh(sha1) && fresh(sha1.bytes) && sha1.Valid() && sha1.message == Concat(pieces[..i])
    {
      assert pieces[..i + 1][..i] == pieces[..i];
      sha1.AddBytes(pieces[i]);
    }
    assert pieces[..|pieces|] == pieces;
    digest := sha1.GetDigest();
    LengthIsRight(Concat(pieces));
  }

  // ---------------------------------------------------------------- the simple form

  /** Keeps what it has not processed in a string of bytes. */
  class SimpleSHA1 {
    var A: Word
    var B: Word
    var C: Word
    var D: Word
    var E: Word
    var unprocessedBytes: seq<Byte>
    var size: nat
    ghost var message: seq<Byte>

    ghost function Words(): Digest
      reads this
    {
      Digest(A, B, C, D, E)
    }

    ghost predicate Valid()
      reads this
    {
      && |unprocessedBytes| <= |message| && (|message| - |unprocessedBytes|) % 64 == 0 && size == |message|
      && Words() == Folded(message[..|message| - |unprocessedBytes|])
      && unprocessedBytes == message[|message| - |unprocessedBytes|..]
    }

    constructor ()
      ensures Valid() && message == [] && unprocessedBytes == []
    {
      A, B, C, D, E := 0x67452301, 0xefcdab89, 0x98badcfe, 0x10325476, 0xc3d2e1f0;
      unprocessedBytes, size, message := [], 0, [];
    }

    method Process(block: seq<Byte>)
      requires |block| == 64
      modifies this`A, this`B, this`C, this`D, this`E
      ensures Words() == Processed(old(Words()), block)
    {
      hide W, WordAt, RotateLeft, F, K, Plus;
      var w := Expand(block);
      var a, b, c, d, e := A, B, C, D, E;
      for t := 0 to 80
        invariant Digest(a, b, c, d, e) == Rounds(old(Words()), block, t)
        modifies {}
      {
        var f, k := Choose(t, b, c, d);
        var temp := Plus(Plus(Plus(Plus(RotateLeft(a, 5), f), e), w[t]), k);
        e := d;
        d := c;
        c := RotateLeft(b, 30);
        b := a;
        a := temp;
      }
      A, B, C, D, E := Plus(A, a), Plus(B, b), Plus(C, c), Plus(D, d), Plus(E, e);
    }

    method Update(newBytes: seq<Byte>)
      requires Valid() && |unprocessedBytes| < 64
      modifies this
      ensures Valid() && |unprocessedBytes| < 64 && message == old(message) + newBytes
    {
      hide Folded, Processed;
      size := size + |newBytes|;
      ghost var processed := |message| - |unprocessedBytes|;
      assert (message + newBytes)[..processed] == message[..processed];
      message := message + newBytes;
      unprocessedBytes := unprocessedBytes + newBytes;
      while |unprocessedBytes| >= 64
        invariant Valid() && message == old(message) + newBytes
      {
        ProcessFirst();
      }
    }

    method ProcessFirst()
      requires Valid() && |unprocessedBytes| >= 64
      modifies this
      ensures Valid() && message == old(message) && |unprocessedBytes| == |old(unprocessedBytes)| - 64
    {
      hide Folded, Processed;
      ghost var processed := |message| - |unprocessedBytes|;
      ghost var block := unprocessedBytes[..64];
      assert message[..processed + 64] == message[..processed] + block;
      FoldedAppend(message[..processed], block);
      Process(unprocessedBytes[..64]);
      unprocessedBytes := unprocessedBytes[64..];
    }

    /** Fills up the last block, and one before it if the length has no room in it. */
    method Finish()
      requires Valid() && |unprocessedBytes| < 64
      modifies this
      ensures Words() == Hash(old(message))
    {
      hide Folded, Processed, ByteOf, Zeros, ZeroBytes;
      ghost var rest := unprocessedBytes;
      ghost var whole := message[..|message| - |rest|];
      var bytes := unprocessedBytes + [0x80];
      unprocessedBytes := [];
      ghost var zeros := 0;
      NoZeros();
      if |bytes| > 56 {
        bytes, zeros := FillBlock(bytes);
        FoldedAppend(whole, bytes);
        whole := whole + bytes;
        Process(bytes);
        bytes := [];
      }
      var filled: seq<Byte>;
      filled, zeros := Fill(bytes, whole, message + [0x80], zeros);
      ProcessLast(filled, whole, zeros);
    }

    /** Appends the length to the last block and processes it. */
    method ProcessLast(filled: seq<Byte>, ghost whole: seq<Byte>, ghost zeros: nat)
      requires |filled| == 56 && |whole| % 64 == 0 && size == |message| && zeros < 64
      requires Words() == Folded(whole) && whole + filled == message + [0x80] + ZeroBytes(zeros)
      modifies this`A, this`B, this`C, this`D, this`E
      ensures Words() == Hash(message)
    {
      hide Folded, Processed, ByteOf, Zeros, ZeroBytes;
      var numBits := size * 8;
      BigEndianWraps(numBits);
      ZerosAre(|message|, zeros);
      var last := filled + (BigEndian(numBits / 0x1_0000_0000 % 0x1_0000_0000, 4) + BigEndian(numBits % 0x1_0000_0000, 4));
      assert whole + last == Padded(message);
      FoldedAppend(whole, last);
      Process(last);
    }

    method HexDigest() returns (text: string)
      requires Valid() && |unprocessedBytes| < 64
      modifies this
      ensures text == HexText(Hash(old(message)))
    {
      hide Hash, HexWord;
      Finish();
      var a := Hex32(A);
      var b := Hex32(B);
      var c := Hex32(C);
      var d := Hex32(D);
      var e := Hex32(E);
      text := a + " " + b + " " + c + " " + d + " " + e;
    }
  }

  /** Fills a block with zeros. */
  method FillBlock(bytes: seq<Byte>) returns (filled: seq<Byte>, ghost zeros: nat)
    requires |bytes| <= 64
    ensures |filled| == 64 && filled == bytes + ZeroBytes(zeros)
  {
    hide ZeroBytes;
    NoZeros();
    filled, zeros := bytes, 0;
    while |filled| < 64
      invariant |filled| <= 64 && filled == bytes + ZeroBytes(zeros)
    {
      OneMoreZero(zeros);
      filled := filled + [0];
      zeros := zeros + 1;
    }
  }

  /** Fills with zeros but leaves room for the length. */
  method Fill(bytes: seq<Byte>, ghost whole: seq<Byte>, ghost before: seq<Byte>, ghost some: nat)
    returns (filled: seq<Byte>, ghost zeros: nat)
    requires |bytes| <= 56 && some <= 7 && whole + bytes == before + ZeroBytes(some)
    requires some > 0 ==> bytes == []
    ensures |filled| == 56 && zeros < 64 && whole + filled == before + ZeroBytes(zeros)
  {
    hide ZeroBytes;
    filled, zeros := bytes, some;
    while |filled| < 56
      invariant |filled| <= 56 && whole + filled == before + ZeroBytes(zeros)
      invariant zeros + |bytes| == some + |filled|
    {
      OneMoreZero(zeros);
      assert whole + (filled + [0]) == (whole + filled) + [0];
      filled := filled + [0];
      zeros := zeros + 1;
    }
  }

  lemma NoZeros()
    ensures ZeroBytes(0) == []
  {
  }

  lemma OneMoreZero(n: nat)
    ensures ZeroBytes(n + 1) == ZeroBytes(n) + [0]
  {
  }

  lemma ZerosAre(length: nat, zeros: nat)
    requires (length + 1 + zeros) % 64 == 56 && zeros < 64
    ensures zeros == Zeros(length)
  {
    var k := (length + 1 + zeros) / 64;
    assert 55 - length == zeros - 64 * k;
  }

  method Expand(block: seq<Byte>) returns (w: seq<Word>)
    requires |block| == 64
    ensures |w| == 80 && forall t :: 0 <= t < 80 ==> w[t] == W(block, t)
  {
    hide Mixed, WordOf;
    w := [];
    for t := 0 to 16
      invariant |w| == t && forall i :: 0 <= i < t ==> w[i] == W(block, i)
    {
      w := w + [WordAt(block, t)];
    }
    for t := 16 to 80
      invariant |w| == t && forall i :: 0 <= i < t ==> w[i] == W(block, i)
    {
      w := w + [Mixed(w[t - 3], w[t - 8], w[t - 14], w[t - 16])];
    }
  }

  // ---------------------------------------------------------------- hexadecimal text

  const HEX_DIGITS := "0123456789abcdef"

  function HexDigit(n: Word): char
    requires n < 16
  {
    HEX_DIGITS[n as nat]
  }

  /** The first digit of a byte. */
  function High(b: Byte): char {
    HexDigit((b >> 4) as bv32)
  }

  /** The second digit of a byte. */
  function Low(b: Byte): char {
    HexDigit((b & 0xF) as bv32)
  }

  /** Two digits for each byte. */
  function HexBytes(bytes: seq<Byte>): string {
    if bytes == [] then "" else [High(bytes[0]), Low(bytes[0])] + HexBytes(bytes[1..])
  }

  function HexWord(w: Word): string {
    HexBytes(WordBytes(w))
  }

  /** The digest's bytes in hexadecimal, with a space between words. */
  function HexText(d: Digest): string {
    HexWord(d.a) + " " + HexWord(d.b) + " " + HexWord(d.c) + " " + HexWord(d.d) + " " + HexWord(d.e)
  }

  /** Four bits of a word. */
  function Nibble(w: Word, x: nat): (n: Word)
    requires x < 8
    ensures n < 16
  {
    if x == 0 then w & 0xF
    else if x == 1 then (w >> 4) & 0xF
    else if x == 2 then (w >> 8) & 0xF
    else if x == 3 then (w >> 12) & 0xF
    else if x == 4 then (w >> 16) & 0xF
    else if x == 5 then (w >> 20) & 0xF
    else if x == 6 then (w >> 24) & 0xF
    else (w >> 28) & 0xF
  }

  lemma NibblesOfBytes(w: Word)
    ensures var b := WordBytes(w);
            && (b[0] >> 4) as bv32 == Nibble(w, 7) && (b[0] & 0xF) as bv32 == Nibble(w, 6)
            && (b[1] >> 4) as bv32 == Nibble(w, 5) && (b[1] & 0xF) as bv32 == Nibble(w, 4)
            && (b[2] >> 4) as bv32 == Nibble(w, 3) && (b[2] & 0xF) as bv32 == Nibble(w, 2)
            && (b[3] >> 4) as bv32 == Nibble(w, 1) && (b[3] & 0xF) as bv32 == Nibble(w, 0)
  {
  }

  lemma HexOfOne(b: Byte, rest: seq<Byte>)
    ensures HexBytes([b] + rest) == [High(b), Low(b)] + HexBytes(rest)
  {
    hide High, Low;
    assert ([b] + rest)[0] == b && ([b] + rest)[1..] == rest;
  }

  lemma HexOfFour(a: Byte, b: Byte, c: Byte, d: Byte)
    ensures HexBytes([a, b, c, d]) == [High(a), Low(a), High(b), Low(b), High(c), Low(c), High(d), Low(d)]
  {
    hide High, Low, HexBytes;
    HexOfOne(a, [b, c, d]);
    HexOfOne(b, [c, d]);
    HexOfOne(c, [d]);
    HexOfOne(d, []);
    HexOfNone();
    assert [a] + [b, c, d] == [a, b, c, d] && [b] + [c, d] == [b, c, d] && [c] + [d] == [c, d] && [d] + [] == [d];
  }

  lemma HexOfNone()
    ensures HexBytes([]) == ""
  {
  }

  lemma HexWordIs(num: Word, text: string)
    requires |text| == 8 && forall i :: 0 <= i < 8 ==> text[i] == HexDigit(Nibble(num, 7 - i))
    ensures text == HexWord(num)
  {
    hide WordBytes, Nibble, HexDigit, HexBytes;
    NibblesOfBytes(num);
    var b := WordBytes(num);
    assert b == [b[0], b[1], b[2], b[3]];
    HexOfFour(b[0], b[1], b[2], b[3]);
    EightDigits(text, HexDigit(Nibble(num, 7)), HexDigit(Nibble(num, 6)), HexDigit(Nibble(num, 5)), HexDigit(Nibble(num, 4)),
                HexDigit(Nibble(num, 3)), HexDigit(Nibble(num, 2)), HexDigit(Nibble(num, 1)), HexDigit(Nibble(num, 0)));
  }

  lemma EightDigits(s: string, a: char, b: char, c: char, d: char, e: char, f: char, g: char, h: char)
    requires |s| == 8
    requires s[0] == a && s[1] == b && s[2] == c && s[3] == d && s[4] == e && s[5] == f && s[6] == g && s[7] == h
    ensures s == [a, b, c, d, e, f, g, h]
  {
  }

  /** The bytes of a word are its eight bits at a time, the highest first. */
  lemma WordOfBytes(w: Word)
    ensures var b := WordBytes(w); WordOf(b[0], b[1], b[2], b[3]) == w
  {
  }

  /** Two digits of a text are those of a byte. */
  predicate ShowsByte(text: string, at: nat, b: Byte) {
    at + 2 <= |text| && text[at] == High(b) && text[at + 1] == Low(b)
  }

  lemma WordShowsBytes(w: Word)
    ensures |HexWord(w)| == 8 && forall k {:trigger WordBytes(w)[k]} :: 0 <= k < 4 ==> ShowsByte(HexWord(w), 2 * k, WordBytes(w)[k])
  {
    hide High, Low, WordBytes, HexBytes;
    var b := WordBytes(w);
    assert b == [b[0], b[1], b[2], b[3]];
    HexOfFour(b[0], b[1], b[2], b[3]);
  }

  lemma FiveWords(a: string, b: string, c: string, d: string, e: string)
    requires |a| == |b| == |c| == |d| == |e| == 8
    ensures var t := a + " " + b + " " + c + " " + d + " " + e;
            |t| == 44 && t[0..8] == a && t[9..17] == b && t[18..26] == c && t[27..35] == d && t[36..44] == e
  {
  }

  lemma TwentyBytes(a: seq<Byte>, b: seq<Byte>, c: seq<Byte>, d: seq<Byte>, e: seq<Byte>, k: nat)
    requires |a| == |b| == |c| == |d| == |e| == 4 && k < 20
    ensures (a + b + c + d + e)[k] == (if k < 4 then a else if k < 8 then b else if k < 12 then c else if k < 16 then d else e)[k % 4]
  {
  }

  lemma TextParts(d: Digest, k: nat) returns (word: Word)
    requires k < 20
    ensures DigestBytes(d)[k] == WordBytes(word)[k % 4]
    ensures |HexText(d)| == 44 && HexText(d)[9 * (k / 4)..9 * (k / 4) + 8] == HexWord(word) && |HexWord(word)| == 8
  {
    hide WordBytes, HexWord, ShowsByte;
    WordShowsBytes(d.a);
    WordShowsBytes(d.b);
    WordShowsBytes(d.c);
    WordShowsBytes(d.d);
    WordShowsBytes(d.e);
    FiveWords(HexWord(d.a), HexWord(d.b), HexWord(d.c), HexWord(d.d), HexWord(d.e));
    TwentyBytes(WordBytes(d.a), WordBytes(d.b), WordBytes(d.c), WordBytes(d.d), WordBytes(d.e), k);
    word := if k < 4 then d.a else if k < 8 then d.b else if k < 12 then d.c else if k < 16 then d.d else d.e;
    assert k / 4 == if k < 4 then 0 else if k < 8 then 1 else if k < 12 then 2 else if k < 16 then 3 else 4;
  }

  /**
    Both programs give the same digest: two digits of the text for each of the twenty bytes,
    in their order, with a space after the digits of every four.
   */
  lemma TextShowsBytes(d: Digest, k: nat)
    requires k < 20
    ensures |HexText(d)| == 44 && ShowsByte(HexText(d), 2 * k + k / 4, DigestBytes(d)[k])
  {
    var word := TextParts(d, k);
    hide *;
    WordShowsBytes(word);
    var text := HexText(d);
    ShownWithin(text, 9 * (k / 4), HexWord(word), 2 * (k % 4), WordBytes(word)[k % 4]);
    assert 9 * (k / 4) + 2 * (k % 4) == 2 * k + k / 4;
  }

  lemma ShownWithin(text: string, start: nat, part: string, at: nat, b: Byte)
    requires start + |part| <= |text| && text[start..start + |part|] == part && ShowsByte(part, at, b)
    ensures ShowsByte(text, start + at, b)
  {
    hide High, Low;
    assert part[at] == text[start + at] && part[at + 1] == text[start + at + 1];
  }

  /** Builds the text from the least significant digit. */
  method Hex32(num: Word) returns (ret: string)
    ensures ret == HexWord(num)
  {
    hide HexWord, Nibble, HexDigit;
    ret := "";
    for x := 0 to 8
      invariant |ret| == x
      invariant forall i :: 0 <= i < x ==> ret[i] == HexDigit(Nibble(num, x - 1 - i))
    {
      ret := [HexDigit(Nibble(num, x))] + ret;
    }
    HexWordIs(num, ret);
  }
}
