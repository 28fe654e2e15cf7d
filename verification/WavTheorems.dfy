/**
  A recording opens as what was recorded: after any blocks and checkpoints and the
  finish, as long as the sizes fit in 31 bits; while recording, as what there was at the
  last checkpoint.
 */
module WavTheorems {
  import opened Wavs
  import opened Wrappers

  // ---------------------------------------------------------------- numbers

  /** The signed numbers of 32 and of 16 bits are those that differ by a multiple of 2^32 and of 2^16. */
  lemma SignedNumbers(n: int)
    ensures -0x8000_0000 <= Signed32(n) < 0x8000_0000 && exists q :: Signed32(n) == n + Multiple(q, 0x1_0000_0000)
    ensures -0x8000 <= Signed16(n) < 0x8000 && exists q :: Signed16(n) == n + Multiple(q, 0x1_0000)
  {
    var q, r := n / 0x1_0000_0000, n / 0x1_0000;
    assert n == q * 0x1_0000_0000 + n % 0x1_0000_0000 && n == r * 0x1_0000 + n % 0x1_0000;
    assert Signed32(n) == n + Multiple(-q, 0x1_0000_0000) || Signed32(n) == n + Multiple(-q - 1, 0x1_0000_0000);
    assert Signed16(n) == n + Multiple(-r, 0x1_0000) || Signed16(n) == n + Multiple(-r - 1, 0x1_0000);
  }

  function Multiple(q: int, n: int): int {
    q * n
  }

  lemma DwordReadsBack(n: int)
    ensures ReadDword(WriteDword(n)) == Signed32(n)
  {
    SameSigned(n);
    hide Signed32;
    var q, m := n / TWO32, n % TWO32;
    assert n == q * 0x1_0000_0000 + m;
    assert n / 0x100 == q * 0x100_0000 + m / 0x100;
    assert n / 0x1_0000 == q * 0x1_0000 + m / 0x1_0000;
    assert n / 0x100_0000 == q * 0x100 + m / 0x100_0000;
    SameRemainder(n, m, q * 0x100_0000);
    SameRemainder(n / 0x100, m / 0x100, q * 0x1_0000);
    SameRemainder(n / 0x1_0000, m / 0x1_0000, q * 0x100);
    SameRemainder(n / 0x100_0000, m / 0x100_0000, q);
    BytesAddUp(m);
  }

  lemma SameSigned(n: int)
    ensures Signed32(n) == Signed32(n % TWO32)
  {
  }

  lemma SameRemainder(n: int, m: int, q: int)
    requires n == 256 * q + m
    ensures n % 256 == m % 256
  {
  }

  lemma BytesAddUp(m: int)
    requires 0 <= m < TWO32
    ensures m / 0x100_0000 % 256 * 0x100_0000 + m / 0x1_0000 % 256 * 0x1_0000 + m / 0x100 % 256 * 0x100 + m % 256 == m
  {
    var m1, m2, m3 := m / 0x100, m / 0x1_0000, m / 0x100_0000;
    assert m1 / 256 == m2 && m2 / 256 == m3 && m3 < 256;
    assert m == 256 * m1 + m % 256 && m1 == 256 * m2 + m1 % 256 && m2 == 256 * m3 + m2 % 256;
  }

  lemma WordReadsBack(n: int)
    ensures ReadWord(WriteWord(n)) == Signed16(n)
  {
    var m := n % 0x1_0000;
    assert n / 0x100 % 256 == m / 0x100;
    assert n % 256 == m % 256;
  }

  /** The byte rate in the header, which nothing reads, is right if and only if it fits in an `int`. */
  lemma ByteRateReadsBack(channels: nat, rate: nat)
    ensures var byteRate := channels * rate * BYTES_PER_SAMPLE;
            && Format(channels, rate)[8..12] == WriteDword(byteRate)
            && (ReadDword(WriteDword(byteRate)) == byteRate <==> byteRate <= MAX_INT)
  {
    hide WriteDword, ReadDword;
    DwordReadsBack(channels * rate * BYTES_PER_SAMPLE);
    SignedFits(channels * rate * BYTES_PER_SAMPLE);
  }

  lemma SignedWithin(n: nat)
    requires n < TWO32
    ensures Signed32(n) == if n < 0x8000_0000 then n else n - TWO32
  {
  }

  lemma SignedFits(n: nat)
    ensures Signed32(n) == n <==> n <= MAX_INT
  {
  }

  // ---------------------------------------------------------------- the file while recording

  /** What the recorder does to a file between creating and finishing it. */
  datatype Action = WriteBlock(block: seq<Byte>) | Checkpoint

  datatype File = File(contents: seq<Byte>, position: nat)

  function After(file: File, action: Action): File
    requires file.position <= |file.contents| && |file.contents| >= 44
  {
    match action
    case WriteBlock(block) => File(Overwritten(file.contents, file.position, block), file.position + |block|)
    case Checkpoint => File(Updated(file.contents, file.position), file.position)
  }

  function AfterAll(file: File, actions: seq<Action>): (r: File)
    requires file.position == |file.contents| >= 44
    ensures r.position == |r.contents| >= 44
  {
    if actions == [] then file else After(AfterAll(file, actions[..|actions| - 1]), actions[|actions| - 1])
  }

  function Samples(actions: seq<Action>): seq<Byte> {
    if actions == [] then []
    else
      var before := Samples(actions[..|actions| - 1]);
      match actions[|actions| - 1]
      case WriteBlock(block) => before + block
      case Checkpoint => before
  }

  /** How many bytes of samples there were at the last checkpoint; -1 if there was none. */
  function Checkpointed(actions: seq<Action>): int {
    if actions == [] then -1
    else if actions[|actions| - 1].Checkpoint? then |Samples(actions)|
    else Checkpointed(actions[..|actions| - 1])
  }

  /** What the file holds when sizes were last put in for `size` bytes of samples. */
  function Recorded(channels: nat, rate: nat, size: int, samples: seq<Byte>): seq<Byte> {
    if size < 0 then Header(channels, rate, 0, 0) + samples
    else Header(channels, rate, (size + 40) % TWO32, size % TWO32) + samples
  }

  lemma UpdatedHeader(channels: nat, rate: nat, riffSize: int, dataSize: int, samples: seq<Byte>)
    ensures Updated(Header(channels, rate, riffSize, dataSize) + samples, 44 + |samples|)
         == Recorded(channels, rate, |samples|, samples)
  {
    hide WriteDword, Format;
    var front := CodeR();
    var middle := CodeW() + CodeF() + WriteDword(16) + Format(channels, rate) + CodeD();
    var old4, old40 := WriteDword(riffSize), WriteDword(dataSize);
    var new4, new40 := WriteDword((|samples| + 40) % TWO32), WriteDword(|samples| % TWO32);
    var before := Header(channels, rate, riffSize, dataSize) + samples;
    assert |front| == 4 && |middle| == 32;
    assert before == front + old4 + middle + old40 + samples;
    var once := Overwritten(before, 40, new40);
    assert before[..40] == front + old4 + middle && before[44..] == samples;
    assert once == front + old4 + middle + new40 + samples;
    assert once[..4] == front && once[8..] == middle + new40 + samples;
    assert Overwritten(once, 4, new4) == front + new4 + (middle + new40 + samples);
    assert front + new4 + (middle + new40 + samples) == Recorded(channels, rate, |samples|, samples);
  }

  /** At any time the file is its header, as of the last checkpoint, and all samples so far. */
  lemma {:induction false} FileWhileRecording(channels: nat, rate: nat, actions: seq<Action>)
    ensures AfterAll(File(Header(channels, rate, 0, 0), 44), actions).contents
         == Recorded(channels, rate, Checkpointed(actions), Samples(actions))
  {
    hide Header, Updated;
    var start := File(Header(channels, rate, 0, 0), 44);
    if actions == [] {
      assert start.contents + [] == start.contents;
    } else {
      var before := actions[..|actions| - 1];
      FileWhileRecording(channels, rate, before);
      var file := AfterAll(start, before);
      var size, samples := Checkpointed(before), Samples(before);
      match actions[|actions| - 1]
      case Checkpoint =>
        if size < 0 {
          UpdatedHeader(channels, rate, 0, 0, samples);
        } else {
          UpdatedHeader(channels, rate, (size + 40) % TWO32, size % TWO32, samples);
        }
      case WriteBlock(block) =>
        assert file.contents[..file.position] == file.contents;
        assert Overwritten(file.contents, file.position, block) == file.contents + block;
        BlockAppended(channels, rate, size, samples, block);
    }
  }

  lemma BlockAppended(channels: nat, rate: nat, size: int, samples: seq<Byte>, block: seq<Byte>)
    ensures Recorded(channels, rate, size, samples) + block == Recorded(channels, rate, size, samples + block)
  {
    hide Header;
    var header := if size < 0 then Header(channels, rate, 0, 0) else Header(channels, rate, (size + 40) % TWO32, size % TWO32);
    assert (header + samples) + block == header + (samples + block);
  }

  // ---------------------------------------------------------------- opening

  /** What is where in a file. */
  lemma HeaderParts(channels: nat, rate: nat, riffSize: int, dataSize: int, samples: seq<Byte>)
    ensures var file := Header(channels, rate, riffSize, dataSize) + samples;
            && ReadAll(file, 0, 4) == Success(CodeR()) && ReadAll(file, 4, 4) == Success(WriteDword(riffSize))
            && ReadAll(file, 8, 4) == Success(CodeW())
            && ReadAll(file, 12, 4) == Success(CodeF()) && ReadAll(file, 16, 4) == Success(WriteDword(16))
            && ReadAll(file, 36, 4) == Success(CodeD()) && ReadAll(file, 40, 4) == Success(WriteDword(dataSize))
    ensures var file := Header(channels, rate, riffSize, dataSize) + samples;
            && ReadAll(file, 20, 2) == Success(WriteWord(WAVE_FORMAT_PCM)) && ReadAll(file, 22, 2) == Success(WriteWord(channels))
            && ReadAll(file, 24, 4) == Success(WriteDword(rate)) && ReadAll(file, 34, 2) == Success(WriteWord(24))
  {
    hide WriteDword, WriteWord;
    var file := Header(channels, rate, riffSize, dataSize) + samples;
    assert |CodeR()| == 4 && |CodeW()| == 4 && |CodeF()| == 4 && |CodeD()| == 4;
    assert file[0..4] == CodeR();
    assert file[4..8] == WriteDword(riffSize);
    assert file[8..12] == CodeW();
    assert file[12..16] == CodeF();
    assert file[16..20] == WriteDword(16);
    assert file[20..36] == Format(channels, rate);
    assert file[36..40] == CodeD();
    assert file[40..44] == WriteDword(dataSize);
    var format := Format(channels, rate);
    assert file[20..22] == file[20..36][0..2] == format[0..2] == WriteWord(WAVE_FORMAT_PCM);
    assert file[22..24] == file[20..36][2..4] == format[2..4] == WriteWord(channels);
    assert file[24..28] == file[20..36][4..8] == format[4..8] == WriteDword(rate);
    assert file[34..36] == file[20..36][14..16] == format[14..16] == WriteWord(24);
  }

  lemma CodesDiffer()
    ensures CodeF() != CodeD() && CodeR() != CodeW()
  {
    assert CodeF()[0] != CodeD()[0] && CodeR()[0] != CodeW()[0];
  }

  /** The chunks are found if and only if the file's end is known to be past them. */
  lemma ChunksAreFound(channels: nat, rate: nat, riffSize: int, dataSize: int, samples: seq<Byte>, fileEnd: int)
    ensures var file := Header(channels, rate, riffSize, dataSize) + samples;
            && SeekChunk(file, fileEnd, CodeF()) == (if fileEnd > 12 then Success((16, 20)) else Success((0, 12)))
            && (fileEnd > 36 ==> SeekChunk(file, fileEnd, CodeD()) == Success((Signed32(dataSize), 44)))
            && (fileEnd <= 12 ==> SeekChunk(file, fileEnd, CodeD()) == Success((0, 12)))
  {
    hide ReadAll, WriteDword, ReadDword, Header, CodeF, CodeD;
    HeaderParts(channels, rate, riffSize, dataSize, samples);
    CodesDiffer();
    DwordReadsBack(16);
    DwordReadsBack(dataSize);
    var file := Header(channels, rate, riffSize, dataSize) + samples;
    assert Signed32(16) == 16;
    var steps := |file| + 1;
    if fileEnd > 36 {
      assert SeekFrom(file, fileEnd, CodeD(), 36, steps - 1) == Success((Signed32(dataSize), 44));
    }
  }

  /** The information is read if the chunk is found. */
  lemma InfoIsRead(channels: nat, rate: nat, riffSize: int, dataSize: int, samples: seq<Byte>, fileEnd: int, size: int)
    requires 0 < channels < 0x8000 && rate < 0x8000_0000
    ensures var file := Header(channels, rate, riffSize, dataSize) + samples;
            ReadInfo(file, fileEnd, size)
            == if fileEnd > 12 then Success(Info(channels, rate, 24, Quotient(size, 3 * channels) % UNSIGNED)) else Failure(InvalidFile)
  {
    hide ReadAll, WriteDword, WriteWord, ReadDword, ReadWord, Header, SeekChunk, CodeF, CodeD, Quotient;
    HeaderParts(channels, rate, riffSize, dataSize, samples);
    ChunksAreFound(channels, rate, riffSize, dataSize, samples, fileEnd);
    WordReadsBack(WAVE_FORMAT_PCM);
    WordReadsBack(channels);
    WordReadsBack(24);
    DwordReadsBack(rate);
  }

  lemma OpensAs(channels: nat, rate: nat, riffSize: int, dataSize: int, samples: seq<Byte>)
    requires 0 < channels < 0x8000 && rate < 0x8000_0000
    requires (riffSize == 0 && dataSize == 0) || (riffSize == dataSize + 40 && 0 <= dataSize < TWO32 - 44)
    ensures Open(Header(channels, rate, riffSize, dataSize) + samples)
         == if riffSize == 0 || riffSize >= 0x8000_0000 then Failure(InvalidFile)
            else if riffSize >= 0x8000_0000 - 8 then Failure(Overflow)
            else Success(Wav(44, dataSize, Info(channels, rate, 24, dataSize / (3 * channels))))
  {
    hide ReadAll, WriteDword, ReadDword, Header, SeekChunk, ReadInfo, CodeF, CodeD, CodeR, CodeW, Signed32, Quotient;
    HeaderParts(channels, rate, riffSize, dataSize, samples);
    DwordReadsBack(riffSize);
    SignedWithin(riffSize);
    SignedWithin(dataSize);
    var fileEnd := 8 + Signed32(riffSize);
    ChunksAreFound(channels, rate, riffSize, dataSize, samples, fileEnd);
    if fileEnd <= 12 {
      InfoIsRead(channels, rate, riffSize, dataSize, samples, fileEnd, 0);
    } else {
      InfoIsRead(channels, rate, riffSize, dataSize, samples, fileEnd, dataSize);
      QuotientFits(dataSize, 3 * channels);
    }
  }

  lemma QuotientFits(a: nat, b: nat)
    requires a < TWO32 && b > 0
    ensures Quotient(a, b) % UNSIGNED == a / b
  {
    assert 0 <= a / b <= a;
  }

  /**
    The round trip.  Whatever blocks were written and whenever there were checkpoints,
    the finished file opens if and only if its samples and header take fewer than
    2^31 - 4 bytes, and then it says what was recorded: the format, the samples right
    after the header, and as many frames as were written.  For eight sizes from there on
    the end of the file is a sum that overflows; larger files are refused.
   */
  lemma FinishedFileOpens(channels: nat, rate: nat, actions: seq<Action>)
    requires 0 < channels < 0x8000 && rate < 0x8000_0000 && |Samples(actions)| < TWO32 - 44
    ensures var file := AfterAll(File(Header(channels, rate, 0, 0), 44), actions);
            var size := |Samples(actions)|;
            Open(Updated(file.contents, file.position))
            == if size + 44 < 0x8000_0000 - 4 then Success(Wav(44, size, Info(channels, rate, 24, size / (3 * channels))))
               else if size + 44 < 0x8000_0000 + 4 then Failure(Overflow)
               else Failure(InvalidFile)
  {
    hide Header, Updated, Open;
    var start := File(Header(channels, rate, 0, 0), 44);
    var finished := actions + [Checkpoint];
    assert finished[..|finished| - 1] == actions;
    FileWhileRecording(channels, rate, finished);
    var size := |Samples(actions)|;
    assert Samples(finished) == Samples(actions) && Checkpointed(finished) == size;
    OpensAs(channels, rate, (size + 40) % TWO32, size, Samples(actions));
  }

  /**
    While recording, a file opens as what there was at the last checkpoint, and not at
    all before the first one.
   */
  lemma OpensAsCheckpointed(channels: nat, rate: nat, actions: seq<Action>)
    requires 0 < channels < 0x8000 && rate < 0x8000_0000 && |Samples(actions)| < TWO32 - 44
    ensures var file := AfterAll(File(Header(channels, rate, 0, 0), 44), actions);
            var size := Checkpointed(actions);
            Open(file.contents)
            == if size < 0 || size + 44 >= 0x8000_0000 + 4 then Failure(InvalidFile)
               else if size + 44 >= 0x8000_0000 - 4 then Failure(Overflow)
               else Success(Wav(44, size, Info(channels, rate, 24, size / (3 * channels))))
  {
    hide Header, Updated, Open, AfterAll, Samples, Checkpointed;
    FileWhileRecording(channels, rate, actions);
    CheckpointedBound(actions);
    var size := Checkpointed(actions);
    if size < 0 {
      OpensAs(channels, rate, 0, 0, Samples(actions));
    } else {
      OpensAs(channels, rate, (size + 40) % TWO32, size, Samples(actions));
    }
  }

  lemma {:induction false} CheckpointedBound(actions: seq<Action>)
    ensures Checkpointed(actions) <= |Samples(actions)|
  {
    if actions != [] {
      CheckpointedBound(actions[..|actions| - 1]);
    }
  }

  /** If every block is a whole number of frames, no frame is lost. */
  lemma {:induction false} SamplesAreFrames(actions: seq<Action>, frames: seq<nat>, channels: nat)
    requires |frames| == |actions| && channels > 0
    requires forall i :: 0 <= i < |actions| && actions[i].WriteBlock? ==> |actions[i].block| == frames[i] * (3 * channels)
    ensures |Samples(actions)| == FramesWritten(actions, frames) * (3 * channels)
    ensures |Samples(actions)| / (3 * channels) == FramesWritten(actions, frames)
  {
    var frame := 3 * channels;
    if actions != [] {
      var n := |actions| - 1;
      SamplesAreFrames(actions[..n], frames[..n], channels);
      var before := FramesWritten(actions[..n], frames[..n]);
      assert (before + frames[n]) * frame == before * frame + frames[n] * frame;
    }
    var count := FramesWritten(actions, frames);
    Divides(count, frame);
  }

  lemma Divides(count: nat, frame: nat)
    requires frame > 0
    ensures count * frame / frame == count
  {
    var product := count * frame;
    QuotientBounds(product, frame);
    Unique(count, product / frame, frame, product);
  }

  lemma QuotientBounds(n: nat, d: nat)
    requires d > 0
    ensures n / d * d <= n < n / d * d + d
  {
  }

  lemma Unique(a: nat, b: nat, d: nat, n: nat)
    requires d > 0 && n == a * d && b * d <= n < b * d + d
    ensures a == b
  {
    if a < b {
      Monotone(a + 1, b, d);
    } else if a > b {
      Monotone(b + 1, a, d);
    }
  }

  lemma {:induction false} Monotone(a: nat, b: nat, d: nat)
    requires a <= b
    ensures a * d <= b * d && (a > 0 ==> a * d == (a - 1) * d + d)
  {
  }

  /** The frames of all blocks. */
  function FramesWritten(actions: seq<Action>, frames: seq<nat>): nat
    requires |frames| == |actions|
  {
    if actions == [] then 0
    else
      var n := |actions| - 1;
      FramesWritten(actions[..n], frames[..n]) + if actions[n].WriteBlock? then frames[n] else 0
  }
}
