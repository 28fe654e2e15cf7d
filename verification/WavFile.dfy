/** Writing and reading WAV files step by step, with the position of the file. */
module WavFiles {
  import opened Wavs
  import opened Wrappers

  /** A file of an armed track, once its header is written. */
  class ArmedTrack {
    var contents: seq<Byte>
    var position: nat
    var dataChunkStart: nat
    var isOpen: bool

    ghost predicate Valid()
      reads this
    {
      position <= |contents|
    }

    method Write(data: seq<Byte>)
      requires Valid()
      modifies this`contents, this`position
      ensures Valid() && contents == Overwritten(old(contents), old(position), data) && position == old(position) + |data|
      ensures old(position) == |old(contents)| ==> contents == old(contents) + data && position == |contents|
    {
      contents := Overwritten(contents, position, data);
      position := position + |data|;
    }

    method Seek(offset: nat)
      requires offset <= |contents|
      modifies this`position
      ensures position == offset && Valid()
    {
      position := offset;
    }

    constructor CreateWavFile(channels: nat, rate: nat)
      ensures Valid() && isOpen && dataChunkStart == 36 && position == 44
      ensures contents == Header(channels, rate, 0, 0)
    {
      contents, position, isOpen, dataChunkStart := [], 0, true, 0;
      new;
      hide Header;
      WriteChunks(channels, rate);
    }

    /** The chunks up to where the samples begin; the sizes are put in later. */
    method WriteChunks(channels: nat, rate: nat)
      requires contents == [] && position == 0
      modifies this`contents, this`position, this`dataChunkStart
      ensures Valid() && dataChunkStart == 36 && position == 44 && contents == Header(channels, rate, 0, 0)
    {
      hide WriteDword, WriteWord, CodeR, CodeW, CodeF, CodeD, Overwritten, Format;
      Codes();
      Write(CodeR());
      Write(WriteDword(0));
      Write(CodeW());
      Write(CodeF());
      Write(WriteDword(16));
      WriteFormat(channels, rate);
      dataChunkStart := position;
      Write(CodeD());
      Write(WriteDword(0));
    }

    method WriteFormat(channels: nat, rate: nat)
      requires Valid() && position == |contents|
      modifies this`contents, this`position
      ensures Valid() && contents == old(contents) + Format(channels, rate) && position == |contents|
    {
      hide WriteDword, WriteWord, Overwritten;
      Write(WriteWord(WAVE_FORMAT_PCM));
      Write(WriteWord(channels));
      Write(WriteDword(rate));
      Write(WriteDword(channels * rate * BYTES_PER_SAMPLE));
      Write(WriteWord(channels * BYTES_PER_SAMPLE));
      Write(WriteWord(BYTES_PER_SAMPLE * 8));
    }

    /** Writes the sizes where they belong and returns to the end. */
    method UpdateWavFileSize()
      requires Valid() && isOpen && position < TWO32 && dataChunkStart == 36 && |contents| >= 44
      modifies this`contents, this`position
      ensures Valid() && position == old(position)
      ensures contents == Updated(old(contents), old(position))
    {
      hide WriteDword;
      var samplesEnd := position % TWO32;
      var samplesSize := (samplesEnd - dataChunkStart - 8) % TWO32;
      Seek(dataChunkStart + 4);
      Write(WriteDword(samplesSize));
      var riffChunkSize := (samplesEnd - 4) % TWO32;
      Seek(4);
      Write(WriteDword(riffChunkSize));
      Seek(samplesEnd);
    }

    method FinishWavFile()
      requires Valid() && (isOpen ==> position < TWO32 && dataChunkStart == 36 && |contents| >= 44)
      modifies this`contents, this`position, this`isOpen
      ensures Valid() && !isOpen && position == old(position)
      ensures contents == if old(isOpen) then Updated(old(contents), old(position)) else old(contents)
    {
      if !isOpen {
        return;
      }
      UpdateWavFileSize();
      isOpen := false;
    }
  }

  /** A file that is open for reading: its bytes and the position in it. */
  class WAVFile {
    const contents: seq<Byte>
    var position: nat
    var samplesOffset: nat
    var fileEnd: int
    var dataChunkSize: int
    var info: Info

    constructor (contentsIn: seq<Byte>)
      ensures contents == contentsIn && position == 0 && info.sampleRate == 0
    {
      contents := contentsIn;
      position, samplesOffset, fileEnd, dataChunkSize, info := 0, 0, 0, 0, Info(0, 0, 0, 0);
    }

    /** Reads `n` bytes, or fails. */
    method Read(n: nat) returns (r: Result<seq<Byte>, Error>)
      modifies this`position
      ensures r == ReadAll(contents, old(position), n) && (r.Success? ==> position == old(position) + n)
    {
      var data := ReadAt(contents, position, n);
      position := position + |data|;
      return if |data| != n then Failure(InvalidFile) else Success(data);
    }

    method SeekChunk(code: seq<Byte>) returns (r: Result<int, Error>)
      modifies this`position
      ensures match Wavs.SeekChunk(contents, fileEnd, code)
              case Success(chunk) => r == Success(chunk.0) && position == chunk.1
              case Failure(error) => r == Failure(error)
    {
      hide ReadAll, ReadDword, Signed32;
      var chunk: nat := CHUNK_HEADER_SIZE + 4;
      position := chunk;
      var steps: nat := |contents| + 1;
      while chunk < fileEnd
        invariant position == chunk
        invariant Wavs.SeekChunk(contents, fileEnd, code) == SeekFrom(contents, fileEnd, code, chunk, steps)
        decreases steps
      {
        if steps == 0 {
          return Failure(Endless);
        }
        var fourcc :- Read(4);
        var size :- Read(4);
        chunk := chunk + CHUNK_HEADER_SIZE;
        if fourcc == code {
          return Success(ReadDword(size));
        }
        if chunk + ReadDword(size) < 0 || Signed32(chunk + ReadDword(size)) == -1 {
          return Failure(InvalidFile);
        }
        chunk := chunk + ReadDword(size);
        position := chunk;
        steps := steps - 1;
      }
      return Success(0);
    }

    method ReadInfo() returns (r: Result<Info, Error>)
      modifies this`position, this`info
      ensures old(info.sampleRate) != 0 ==> r == Success(old(info)) && info == old(info)
      ensures old(info.sampleRate) == 0 ==>
                && r == Wavs.ReadInfo(contents, fileEnd, dataChunkSize) && (r.Success? ==> info == r.value)
    {
      hide Wavs.SeekChunk, ReadAll, ReadWord, ReadDword;
      if info.sampleRate != 0 {
        return Success(info);
      }
      var chunkSize :- SeekChunk(CodeF());
      if chunkSize < 14 {
        return Failure(InvalidFile);
      }
      var tag :- Read(2);
      if ReadWord(tag) != WAVE_FORMAT_PCM {
        return Failure(UnsupportedFormat);
      }
      var channels :- Read(2);
      var rate :- Read(4);
      position := position + 6;
      if Signed32(position) < 0 {
        return Failure(InvalidFile);
      }
      var bits :- Read(2);
      if ReadWord(bits) != 16 && ReadWord(bits) != 24 {
        return Failure(UnsupportedFormat);
      }
      if ReadWord(channels) == 0 {
        return Failure(DivisionByZero);
      }
      info := Info(ReadWord(channels), ReadDword(rate), ReadWord(bits),
      Quotient(dataChunkSize, ReadWord(bits) / 8 * ReadWord(channels)) % UNSIGNED);
      return Success(info);
    }

    method Load() returns (r: Result<(), Error>)
      requires info.sampleRate == 0
      modifies this
      ensures match Open(contents)
              case Success(wav) => r == Success(()) && Wav(samplesOffset, dataChunkSize, info) == wav
              case Failure(error) => r == Failure(error)
    {
      hide Wavs.SeekChunk, Wavs.ReadInfo, ReadAll, ReadDword;
      position := 0;
      var riff :- Read(4);
      if riff != CodeR() {
        return Failure(InvalidFile);
      }
      var size :- Read(4);
      if ReadDword(size) > MAX_INT - CHUNK_HEADER_SIZE {
        return Failure(Overflow);
      }
      fileEnd := CHUNK_HEADER_SIZE + ReadDword(size);
      var wave :- Read(4);
      if wave != CodeW() {
        return Failure(InvalidFile);
      }
      dataChunkSize :- SeekChunk(CodeD());
      if dataChunkSize < 0 {
        return Failure(InvalidFile);
      }
      samplesOffset := position;
      var _ :- ReadInfo();
      return Success(());
    }
  }
}
