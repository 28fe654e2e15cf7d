/**
  WAV files as the recorder writes them, block by block with checkpoints in between, and
  as they are opened for playing.  A file is its bytes and a position in it.
 */
module Wavs {
  import opened Wrappers

  type Byte = x: int | 0 <= x < 256

  /** Only the first two are exceptions; the others are a search that never ends, a crash, and a sum that does not fit in an `int`. */
  datatype Error = InvalidFile | UnsupportedFormat | Endless | DivisionByZero | Overflow

  // ---------------------------------------------------------------- numbers

  const TWO32: int := 0x1_0000_0000

  function WriteDword(value: int): (data: seq<Byte>)
    ensures |data| == 4
  {
    [value % 256, value / 0x100 % 256, value / 0x1_0000 % 256, value / 0x100_0000 % 256]
  }

  function WriteWord(value: int): (data: seq<Byte>)
    ensures |data| == 2
  {
    [value % 256, value / 0x100 % 256]
  }

  /** A number of 32 bits, the highest of which is the sign. */
  function Signed32(n: int): int {
    if n % TWO32 < 0x8000_0000 then n % TWO32 else n % TWO32 - TWO32
  }

  function Signed16(n: int): int {
    if n % 0x1_0000 < 0x8000 then n % 0x1_0000 else n % 0x1_0000 - 0x1_0000
  }

  function ReadDword(data: seq<Byte>): int
    requires |data| == 4
  {
    var (b3: int, b2: int, b1: int, b0: int) := (data[3], data[2], data[1], data[0]);
    Signed32(b3 * 0x100_0000 + b2 * 0x1_0000 + b1 * 0x100 + b0)
  }

  function ReadWord(data: seq<Byte>): int
    requires |data| == 2
  {
    var (b1: int, b0: int) := (data[1], data[0]);
    Signed16(b1 * 0x100 + b0)
  }

  function CodeR(): seq<Byte> {
    [82, 73, 70, 70]   // RIFF
  }

  function CodeW(): seq<Byte> {
    [87, 65, 86, 69]   // WAVE
  }

  function CodeF(): seq<Byte> {
    [102, 109, 116, 32]   // "fmt "
  }

  function CodeD(): seq<Byte> {
    [100, 97, 116, 97]   // data
  }

  const WAVE_FORMAT_PCM := 1
  const CHUNK_HEADER_SIZE := 8
  const MAX_INT := 0x7FFF_FFFF
  const BYTES_PER_SAMPLE := 3

  // ---------------------------------------------------------------- writing

  /** What a file holds after `data` is written at `position`. */
  function Overwritten(contents: seq<Byte>, position: nat, data: seq<Byte>): seq<Byte>
    requires position <= |contents|
  {
    contents[..position] + data
    + if position + |data| <= |contents| then contents[position + |data|..] else []
  }

  function Format(channels: nat, rate: nat): (data: seq<Byte>)
    ensures |data| == 16
  {
    WriteWord(WAVE_FORMAT_PCM) + WriteWord(channels) + WriteDword(rate) + WriteDword(channels * rate * BYTES_PER_SAMPLE)
    + WriteWord(channels * BYTES_PER_SAMPLE) + WriteWord(BYTES_PER_SAMPLE * 8)
  }

  /** Everything before the samples. */
  function Header(channels: nat, rate: nat, riffSize: int, dataSize: int): (data: seq<Byte>)
    ensures |data| == 44
  {
    CodeR() + WriteDword(riffSize) + CodeW()
    + CodeF() + WriteDword(16) + Format(channels, rate)
    + CodeD() + WriteDword(dataSize)
  }

  lemma Codes()
    ensures |CodeR()| == |CodeW()| == |CodeF()| == |CodeD()| == 4
  {
  }

  /** The file with both sizes put in that say that the samples end at `end`. */
  function Updated(contents: seq<Byte>, end: nat): (r: seq<Byte>)
    requires |contents| >= 44
    ensures |r| == |contents|
  {
    Overwritten(Overwritten(contents, 40, WriteDword((end - 44) % TWO32)), 4, WriteDword((end - 4) % TWO32))
  }

  // ---------------------------------------------------------------- reading

  /** What `read` gets of `n` bytes at a position. */
  function ReadAt(contents: seq<Byte>, position: nat, n: nat): (data: seq<Byte>)
    ensures |data| <= n
  {
    if position >= |contents| then []
    else if position + n <= |contents| then contents[position..position + n]
    else contents[position..]
  }

  /** All of `n` bytes, or an error. */
  function ReadAll(contents: seq<Byte>, position: nat, n: nat): (r: Result<seq<Byte>, Error>)
    ensures r.Success? ==> |r.value| == n
  {
    var data := ReadAt(contents, position, n);
    if |data| == n then Success(data) else Failure(InvalidFile)
  }

  /**
    Goes from chunk to chunk and returns the size and the start of the data of the first
    one of this code, or 0 and where the search ended.  A search that takes more steps
    than there are bytes has come back to where it was.  A position is checked as an `int`.
   */
  function SeekFrom(contents: seq<Byte>, fileEnd: int, code: seq<Byte>, position: nat, steps: nat): Result<(int, nat), Error>
    decreases steps
  {
    if position >= fileEnd then Success((0, position))
    else if steps == 0 then Failure(Endless)
    else
      var fourcc :- ReadAll(contents, position, 4);
      var size :- ReadAll(contents, position + 4, 4);
      var start := position + CHUNK_HEADER_SIZE;
      var next := start + ReadDword(size);
      if fourcc == code then Success((ReadDword(size), start))
      else if next < 0 || Signed32(next) == -1 then Failure(InvalidFile)
      else SeekFrom(contents, fileEnd, code, next, steps - 1)
  }

  function SeekChunk(contents: seq<Byte>, fileEnd: int, code: seq<Byte>): Result<(int, nat), Error> {
    SeekFrom(contents, fileEnd, code, CHUNK_HEADER_SIZE + 4, |contents| + 1)
  }

  datatype Info = Info(channels: int, sampleRate: int, bitsPerSample: int, lengthInFrames: int)

  datatype Wav = Wav(samplesOffset: nat, dataChunkSize: int, info: Info)

  /** Division as in C, which truncates, by what is not 0. */
  function Quotient(a: int, b: int): int
    requires b != 0
  {
    if a >= 0 then a / b else -(-a / b)
  }

  const UNSIGNED: int := 0x1_0000_0000_0000_0000

  function ReadInfo(contents: seq<Byte>, fileEnd: int, dataChunkSize: int): Result<Info, Error> {
    var chunk :- SeekChunk(contents, fileEnd, CodeF());
    if chunk.0 < 14 then Failure(InvalidFile)
    else
      var tag :- ReadAll(contents, chunk.1, 2);
      if ReadWord(tag) != WAVE_FORMAT_PCM then Failure(UnsupportedFormat)
      else
        var channels :- ReadAll(contents, chunk.1 + 2, 2);
        var rate :- ReadAll(contents, chunk.1 + 4, 4);
        var _ :- if Signed32(chunk.1 + 14) < 0 then Failure(InvalidFile) else Success(());
        var bits :- ReadAll(contents, chunk.1 + 14, 2);
        if ReadWord(bits) != 16 && ReadWord(bits) != 24 then Failure(UnsupportedFormat)
        else if ReadWord(channels) == 0 then Failure(DivisionByZero)
        else
          Success(Info(ReadWord(channels), ReadDword(rate), ReadWord(bits),
                       Quotient(dataChunkSize, ReadWord(bits) / 8 * ReadWord(channels)) % UNSIGNED))
  }

  /** Opening a file. */
  function Open(contents: seq<Byte>): Result<Wav, Error> {
    var riff :- ReadAll(contents, 0, 4);
    if riff != CodeR() then Failure(InvalidFile)
    else
      var size :- ReadAll(contents, 4, 4);
      var _ :- if ReadDword(size) > MAX_INT - CHUNK_HEADER_SIZE then Failure(Overflow) else Success(());
      var fileEnd := CHUNK_HEADER_SIZE + ReadDword(size);
      var wave :- ReadAll(contents, 8, 4);
      if wave != CodeW() then Failure(InvalidFile)
      else
        var data :- SeekChunk(contents, fileEnd, CodeD());
        if data.0 < 0 then Failure(InvalidFile)
        else
          var info :- ReadInfo(contents, fileEnd, data.0);
          Success(Wav(data.1, data.0, info))
  }
}
