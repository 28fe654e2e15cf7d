/**
  How samples are put in a file, 24 bits each and interleaved, and how they are taken
  out again for playing.  Samples are real numbers here; rounding is left out.
 */
module SampleCodec {

  type Byte = x: int | 0 <= x < 256

  const MAX24: int := 0x007F_FFFF
  const MAX32: int := 0x7FFF_FFFF

  // ---------------------------------------------------------------- one sample

  function Clamped(sample: real): (r: real)
    ensures -1.0 <= sample <= 1.0 ==> r == sample
    ensures sample >= 1.0 ==> r == 1.0
    ensures sample <= -1.0 ==> r == -1.0
  {
    if sample > 1.0 then 1.0 else if sample < -1.0 then -1.0 else sample
  }

  /** Conversion to an integer truncates towards zero. */
  function Truncated(x: real): (n: int)
    ensures x >= 0.0 ==> n as real <= x < (n + 1) as real
    ensures x <= 0.0 ==> (n - 1) as real < x <= n as real
  {
    if x >= 0.0 then x.Floor else -(-x).Floor
  }

  /** The 24-bit value of a sample. */
  function Quantized(sample: real): int {
    Truncated(Clamped(sample) * MAX24 as real)
  }

  function Encoded(sample: real): (data: seq<Byte>)
    ensures |data| == 3
  {
    var v := Quantized(sample);
    [v % 256, v / 0x100 % 256, v / 0x1_0000 % 256]
  }

  function Pow2(n: nat): (p: nat)
    ensures p > 0
  {
    if n == 0 then 1 else 2 * Pow2(n - 1)
  }

  /** Bytes put side by side from bit `shift` on, the first one lowest. */
  function Shifted(data: seq<Byte>, shift: nat): nat
    decreases |data|
  {
    if data == [] then 0
    else
      var first: int := data[0];
      first * Pow2(shift) + Shifted(data[1..], shift + 8)
  }

  function Signed32(n: int): int {
    var m := n % 0x1_0000_0000;
    if m < 0x8000_0000 then m else m - 0x1_0000_0000
  }

  /** A sample as it is played: its bytes are the highest of 32 bits. */
  function Decoded(data: seq<Byte>): int
    requires |data| <= 4
  {
    Signed32(Shifted(data, 8 * (4 - |data|)))
  }

  const SCALE: real := 1.0 / MAX32 as real

  lemma Pow2Values()
    ensures Pow2(8) == 0x100 && Pow2(16) == 0x1_0000 && Pow2(24) == 0x100_0000
  {
    assert Pow2(4) == 16;
    assert Pow2(8) == 256;
    assert Pow2(12) == 4096;
    assert Pow2(16) == 0x1_0000;
    assert Pow2(20) == 0x10_0000;
  }

  lemma QuantizedBounds(sample: real)
    ensures -MAX24 <= Quantized(sample) <= MAX24
    ensures -1.0 < Clamped(sample) * MAX24 as real - Quantized(sample) as real < 1.0
  {
  }

  lemma BytesOf24(v: int)
    requires -MAX24 <= v <= MAX24
    ensures Signed32(v % 256 * 0x100 + v / 0x100 % 256 * 0x1_0000 + v / 0x1_0000 % 256 * 0x100_0000) == 256 * v
  {
    var v1, v2 := v / 0x100, v / 0x1_0000;
    assert v1 / 256 == v2 && -128 <= v2 < 128;
    assert v == 256 * v1 + v % 256 && v1 == 256 * v2 + v1 % 256;
    assert v2 % 256 == if v2 >= 0 then v2 else v2 + 256;
  }

  lemma ShiftedThree(data: seq<Byte>)
    requires |data| == 3
    ensures Shifted(data, 8) == data[0] as int * 0x100 + data[1] as int * 0x1_0000 + data[2] as int * 0x100_0000
  {
    Pow2Values();
    hide Pow2;
    assert data[1..][0] == data[1] && data[1..][1..] == data[2..] && data[2..][1..] == [];
    assert Shifted(data[2..], 24) == data[2] as int * 0x100_0000;
    assert Shifted(data[1..], 16) == data[1] as int * 0x1_0000 + Shifted(data[2..], 24);
  }

  /** What is decoded is exactly 256 times what was stored. */
  lemma DecodedIs256Times(sample: real)
    ensures Decoded(Encoded(sample)) == 256 * Quantized(sample)
  {
    hide Quantized, Signed32, Shifted;
    QuantizedBounds(sample);
    ShiftedThree(Encoded(sample));
    BytesOf24(Quantized(sample));
  }

  /** The number that some bytes make, the first one lowest. */
  function LittleEndian(data: seq<Byte>): nat {
    if data == [] then 0
    else
      var first: int := data[0];
      first + 0x100 * LittleEndian(data[1..])
  }

  lemma {:induction false} ShiftedIsProduct(data: seq<Byte>, shift: nat)
    ensures Shifted(data, shift) == LittleEndian(data) * Pow2(shift)
    decreases |data|
  {
    if data != [] {
      ShiftedIsProduct(data[1..], shift + 8);
      EightMore(shift);
      hide Pow2;
      var first: int, p: int, rest: int := data[0], Pow2(shift), LittleEndian(data[1..]);
      assert rest * (0x100 * p) == 0x100 * rest * p;
      assert (first + 0x100 * rest) * p == first * p + 0x100 * rest * p;
    }
  }

  lemma EightMore(shift: nat)
    ensures Pow2(shift + 8) == 0x100 * Pow2(shift)
  {
    assert Pow2(shift + 8) == 2 * Pow2(shift + 7) == 4 * Pow2(shift + 6) == 8 * Pow2(shift + 5) == 16 * Pow2(shift + 4);
    assert Pow2(shift + 4) == 2 * Pow2(shift + 3) == 4 * Pow2(shift + 2) == 8 * Pow2(shift + 1) == 16 * Pow2(shift);
  }

  /** How many numbers there are of so many bytes. */
  function Numbers(bytes: nat): nat {
    if bytes == 1 then 0x100 else if bytes == 2 then 0x1_0000 else if bytes == 3 then 0x100_0000 else 0x1_0000_0000
  }

  lemma {:induction false} LittleEndianBound(data: seq<Byte>)
    requires 1 <= |data| <= 4
    ensures LittleEndian(data) < Numbers(|data|)
  {
    if |data| == 1 {
      assert LittleEndian(data[1..]) == 0;
    } else {
      LittleEndianBound(data[1..]);
    }
  }

  lemma SignedIsScaled(v: nat)
    ensures v < 0x100 ==> Signed32(v * 0x100_0000) == (if v < 0x80 then v else v - 0x100) * 0x100_0000
    ensures v < 0x1_0000 ==> Signed32(v * 0x1_0000) == (if v < 0x8000 then v else v - 0x1_0000) * 0x1_0000
    ensures v < 0x100_0000 ==> Signed32(v * 0x100) == (if v < 0x80_0000 then v else v - 0x100_0000) * 0x100
    ensures v < 0x1_0000_0000 ==> Signed32(v * 1) == if v < 0x8000_0000 then v else v - 0x1_0000_0000
  {
  }

  /** Bytes are decoded as the signed number that they make, scaled up to 32 bits. */
  lemma DecodedIsScaled(data: seq<Byte>)
    requires 1 <= |data| <= 4
    ensures var n, v := Numbers(|data|), LittleEndian(data);
            Decoded(data) == (if v < n / 2 then v else v - n) * (0x1_0000_0000 / n)
  {
    ShiftedIsProduct(data, 8 * (4 - |data|));
    LittleEndianBound(data);
    Pow2Values();
    assert Pow2(0) == 1;
    hide Pow2, Shifted, LittleEndian, Signed32;
    SignedIsScaled(LittleEndian(data));
  }

  /** Recording and playing changes a sample by less than 511 / (2^31 - 1). */
  lemma ErrorIsSmall(sample: real)
    ensures var error := Decoded(Encoded(sample)) as real * SCALE - Clamped(sample);
            -511.0 / MAX32 as real < error < 511.0 / MAX32 as real
  {
    hide Decoded, Encoded, Quantized, Clamped;
    DecodedIs256Times(sample);
    QuantizedBounds(sample);
    var s, v := Clamped(sample), Quantized(sample) as real;
    var d := 256.0 * (s * MAX24 as real - v) + 255.0 * s;
    assert -511.0 < d < 511.0;
    assert s * MAX32 as real - 256.0 * v == d;
  }

  // ---------------------------------------------------------------- many samples

  /** `data` with three bytes put in at `p`. */
  function Put(data: seq<Byte>, p: nat, three: seq<Byte>): (r: seq<Byte>)
    requires |three| == 3 && p + 3 <= |data|
    ensures |r| == |data|
  {
    data[..p] + three + data[p + 3..]
  }

  /** `data` with samples put in at `start` and every `step` bytes from there. */
  function Written(data: seq<Byte>, start: nat, step: nat, samples: seq<real>): (r: seq<Byte>)
    requires samples != [] ==> start + (|samples| - 1) * step + 3 <= |data|
    ensures |r| == |data|
    decreases |samples|
  {
    if samples == [] then data
    else
      var n := |samples| - 1;
      RoomForFewer(start, step, |samples|, |data|);
      Put(Written(data, start, step, samples[..n]), start + n * step, Encoded(samples[n]))
  }

  lemma Monotone(a: nat, b: nat, d: nat)
    requires a <= b
    ensures a * d <= b * d
  {
  }

  lemma NextMultiple(a: nat, d: nat)
    ensures (a + 1) * d == a * d + d
  {
  }

  lemma RoomForFewer(start: nat, step: nat, count: nat, size: nat)
    requires count > 0 && start + (count - 1) * step + 3 <= size
    ensures count > 1 ==> start + (count - 2) * step + 3 <= size
    ensures forall i :: 0 <= i < count ==> start + i * step + 3 <= size
  {
    forall i | 0 <= i < count ensures start + i * step + 3 <= size {
      Monotone(i, count - 1, step);
    }
    if count > 1 {
      Monotone(count - 2, count - 1, step);
    }
  }

  method To24LE(samples: seq<real>, out: array<Byte>, start: nat, frames: nat, step: nat)
    requires frames <= |samples| && (frames > 0 ==> start + (frames - 1) * step + 3 <= out.Length)
    modifies out
    ensures out[..] == Written(old(out[..]), start, step, samples[..frames])
  {
    hide Encoded;
    var p := start;
    ghost var before := out[..];
    for i := 0 to frames
      invariant p == start + i * step
      invariant i > 0 ==> start + (i - 1) * step + 3 <= out.Length
      invariant out[..] == Written(before, start, step, samples[..i])
    {
      RoomForFewer(start, step, frames, out.Length);
      ghost var now := out[..];
      StoreSample(samples[i], out, p);
      assert samples[..i + 1][..i] == samples[..i];
      assert (i + 1) * step == i * step + step;
      p := p + step;
    }
  }

  method StoreSample(sampleIn: real, out: array<Byte>, p: nat)
    requires p + 3 <= out.Length
    modifies out
    ensures out[..] == Put(old(out[..]), p, Encoded(sampleIn))
  {
    hide Truncated;
    var sample := sampleIn;
    if sample > 1.0 {
      sample := 1.0;
    } else if sample < -1.0 {
      sample := -1.0;
    }
    var sampleOut := Truncated(sample * MAX24 as real);
    out[p] := sampleOut % 256;
    out[p + 1] := sampleOut / 0x100 % 256;
    out[p + 2] := sampleOut / 0x1_0000 % 256;
  }

  /** The three bytes of slot `j`. */
  function Slot(data: seq<Byte>, j: nat): (three: seq<Byte>)
    requires 3 * j + 3 <= |data|
    ensures |three| == 3
  {
    data[3 * j..3 * j + 3]
  }

  lemma SlotOfPut(data: seq<Byte>, i: nat, three: seq<Byte>, j: nat)
    requires |three| == 3 && 3 * i + 3 <= |data| && 3 * j + 3 <= |data|
    ensures Slot(Put(data, 3 * i, three), j) == if i == j then three else Slot(data, j)
  {
    var after := Put(data, 3 * i, three);
    forall k | 0 <= k < 3
      ensures after[3 * j + k] == if i == j then three[k] else data[3 * j + k]
    {
    }
  }

  /** Slots of different channels or frames differ. */
  lemma SlotsDiffer(c: nat, f: nat, d: nat, g: nat, n: nat)
    requires c < n && d < n && c + f * n == d + g * n
    ensures c == d && f == g
  {
    if f < g {
      Monotone(f + 1, g, n);
      NextMultiple(f, n);
    } else if g < f {
      Monotone(g + 1, f, n);
      NextMultiple(g, n);
    }
  }

  lemma SlotFits(c: nat, f: nat, n: nat, frames: nat)
    requires c < n && f < frames
    ensures c + f * n < frames * n && f * (3 * n) == 3 * (f * n)
  {
    Monotone(f + 1, frames, n);
    NextMultiple(f, n);
    assert f * (3 * n) == 3 * (f * n);
  }

  lemma WrittenUnfolds(data: seq<Byte>, start: nat, step: nat, samples: seq<real>)
    requires samples != [] ==> start + (|samples| - 1) * step + 3 <= |data|
    ensures samples == [] ==> Written(data, start, step, samples) == data
    ensures samples != [] ==>
              var n := |samples| - 1;
              && (n > 0 ==> start + (n - 1) * step + 3 <= |data|)
              && Written(data, start, step, samples)
                 == Put(Written(data, start, step, samples[..n]), start + n * step, Encoded(samples[n]))
  {
    hide Encoded, Put;
    if samples != [] {
      RoomForFewer(start, step, |samples|, |data|);
    }
  }

  /** Writing one channel changes its own slots and no others. */
  lemma {:induction false} SlotOfWritten(data: seq<Byte>, d: nat, n: nat, samples: seq<real>, frames: nat, c: nat, f: nat)
    requires c < n && d < n && f < frames && |samples| <= frames && |data| == 3 * (frames * n)
    requires samples != [] ==> 3 * d + (|samples| - 1) * (3 * n) + 3 <= |data|
    ensures 3 * (c + f * n) + 3 <= |data|
    ensures Slot(Written(data, 3 * d, 3 * n, samples), c + f * n)
         == if c == d && f < |samples| then Encoded(samples[f]) else Slot(data, c + f * n)
    decreases |samples|
  {
    hide Encoded, Slot, Put, Written;
    SlotFits(c, f, n, frames);
    WrittenUnfolds(data, 3 * d, 3 * n, samples);
    if samples != [] {
      var m := |samples| - 1;
      SlotOfWritten(data, d, n, samples[..m], frames, c, f);
      SlotFits(d, m, n, frames);
      var before := Written(data, 3 * d, 3 * n, samples[..m]);
      SlotOfPut(before, d + m * n, Encoded(samples[m]), c + f * n);
      if c + f * n == d + m * n {
        SlotsDiffer(c, f, d, m, n);
      }
    }
  }

  // ---------------------------------------------------------------- writing all channels

  predicate Captured(channels: seq<seq<real>>, frames: nat) {
    forall c :: 0 <= c < |channels| ==> |channels[c]| == frames
  }

  /** The write buffer after the first `count` channels were put in. */
  function Filled(data: seq<Byte>, channels: seq<seq<real>>, frames: nat, count: nat): (r: seq<Byte>)
    requires Captured(channels, frames) && count <= |channels| && |data| == 3 * (frames * |channels|)
    ensures |r| == |data|
  {
    if count == 0 then data
    else
      ChannelFits(count - 1, |channels|, frames);
      Written(Filled(data, channels, frames, count - 1), 3 * (count - 1), 3 * |channels|, channels[count - 1])
  }

  lemma ChannelFits(c: nat, n: nat, frames: nat)
    requires c < n
    ensures frames > 0 ==> 3 * c + (frames - 1) * (3 * n) + 3 <= 3 * (frames * n)
  {
    if frames > 0 {
      SlotFits(c, frames - 1, n, frames);
    }
  }

  /** Interleaves the channels of a recording. */
  method FillWriteBuffer(channels: seq<seq<real>>, frames: nat) returns (buffer: array<Byte>)
    requires Captured(channels, frames)
    ensures fresh(buffer) && buffer.Length == 3 * (frames * |channels|)
    ensures buffer[..] == Filled(ZeroBytes(buffer.Length), channels, frames, |channels|)
  {
    hide Written;
    var bytesPerSample := 3;
    var step := |channels| * bytesPerSample;
    var size := bytesPerSample * (frames * |channels|);
    buffer := new Byte[size](_ => 0);
    assert buffer[..] == ZeroBytes(size);
    var channelStart := 0;
    for c := 0 to |channels|
      invariant channelStart == 3 * c
      invariant buffer[..] == Filled(ZeroBytes(size), channels, frames, c)
    {
      ChannelFits(c, |channels|, frames);
      assert channels[c][..frames] == channels[c];
      To24LE(channels[c], buffer, channelStart, frames, step);
      channelStart := channelStart + bytesPerSample;
    }
  }

  function ZeroBytes(n: nat): (r: seq<Byte>)
    ensures |r| == n
  {
    seq(n, _ => 0)
  }

  lemma {:induction false} SlotOfFilled(data: seq<Byte>, channels: seq<seq<real>>, frames: nat, count: nat, c: nat, f: nat)
    requires Captured(channels, frames) && count <= |channels| && |data| == 3 * (frames * |channels|)
    requires c < |channels| && f < frames
    ensures 3 * (c + f * |channels|) + 3 <= |data|
    ensures Slot(Filled(data, channels, frames, count), c + f * |channels|)
         == if c < count then Encoded(channels[c][f]) else Slot(data, c + f * |channels|)
  {
    hide Encoded, Slot, Written;
    SlotFits(c, f, |channels|, frames);
    if count > 0 {
      SlotOfFilled(data, channels, frames, count - 1, c, f);
      ChannelFits(count - 1, |channels|, frames);
      SlotOfWritten(Filled(data, channels, frames, count - 1), count - 1, |channels|, channels[count - 1], frames, c, f);
    }
  }

  // ---------------------------------------------------------------- playing

  /** Reads one sample of some bytes. */
  method DecodeSample(data: seq<Byte>, start: nat, bytesPerSample: nat) returns (sample: int)
    requires bytesPerSample <= 4 && start + bytesPerSample <= |data|
    ensures sample == Decoded(data[start..start + bytesPerSample])
  {
    hide Pow2;
    var bits := 0;
    var shift := 8 * (4 - bytesPerSample);
    ghost var piece := data[start..start + bytesPerSample];
    for i := 0 to bytesPerSample
      invariant shift == 8 * (4 - bytesPerSample) + 8 * i
      invariant bits + Shifted(piece[i..], shift) == Shifted(piece, 8 * (4 - bytesPerSample))
    {
      var byte: int := data[start + i];
      assert piece[i..][1..] == piece[i + 1..];
      bits := bits + byte * Pow2(shift);
      shift := shift + 8;
    }
    sample := Signed32(bits);
  }

  /** The bytes of a sample of a file with `channels` channels. */
  function SampleBytes(data: seq<Byte>, bytesPerSample: nat, channels: nat, frame: nat, channel: nat): (r: seq<Byte>)
    requires channel < channels && (frame + 1) * (bytesPerSample * channels) <= |data|
    ensures |r| == bytesPerSample
  {
    SampleFits(bytesPerSample, channels, frame, channel);
    var start := frame * (bytesPerSample * channels) + bytesPerSample * channel;
    data[start..start + bytesPerSample]
  }

  lemma SampleFits(bytesPerSample: nat, channels: nat, frame: nat, channel: nat)
    requires channel < channels
    ensures frame * (bytesPerSample * channels) + bytesPerSample * channel + bytesPerSample <= (frame + 1) * (bytesPerSample * channels)
  {
    NextMultiple(frame, bytesPerSample * channels);
    Monotone(channel + 1, channels, bytesPerSample);
    NextMultiple(channel, bytesPerSample);
    assert bytesPerSample * channel == channel * bytesPerSample && bytesPerSample * channels == channels * bytesPerSample;
  }

  /** What is added to an output for a frame, which is nothing past the end: a mono file goes to all outputs. */
  function Played(data: seq<Byte>, bytesPerSample: nat, channels: nat, frame: nat, output: nat): real
    requires bytesPerSample <= 4 && (channels == 1 || output < channels)
  {
    if (frame + 1) * (bytesPerSample * channels) <= |data| then
      Decoded(SampleBytes(data, bytesPerSample, channels, frame, if channels == 1 then 0 else output)) as real * SCALE
    else 0.0
  }

  predicate Distinct(outs: seq<array<real>>) {
    forall v, w :: 0 <= v < w < |outs| ==> outs[v] != outs[w]
  }

  /** How many outputs a file reaches: as many as it has channels, or all if it is mono. */
  function Reached(outs: nat, channels: nat): nat {
    if channels == 1 || outs <= channels then outs else channels
  }

  /** Adds one sample to the same place of all outputs. */
  method AddToAll(outs: seq<array<real>>, at: nat, value: real)
    requires Distinct(outs) && forall w :: 0 <= w < |outs| ==> at < outs[w].Length
    modifies set w | 0 <= w < |outs| :: outs[w]
    ensures forall w, i :: 0 <= w < |outs| && 0 <= i < outs[w].Length ==>
              outs[w][i] == if i == at then old(outs[w][i]) + value else old(outs[w][i])
  {
    for v := 0 to |outs|
      invariant forall w, i :: 0 <= w < |outs| && 0 <= i < outs[w].Length ==>
                  outs[w][i] == if i == at && w < v then old(outs[w][i]) + value else old(outs[w][i])
    {
      outs[v][at] := outs[v][at] + value;
    }
  }

  /** Adds a frame of a file with more channels, each to its own output. */
  method AddToEach(outs: seq<array<real>>, at: nat, reached: nat, data: seq<Byte>, start: nat, bytesPerSample: nat,
                   channels: nat, ghost frame: nat)
    returns (end: nat)
    requires Distinct(outs) && reached <= |outs| && reached <= channels && bytesPerSample <= 4 && channels != 1
    requires forall w :: 0 <= w < |outs| ==> at < outs[w].Length
    requires start == frame * (bytesPerSample * channels) && (frame + 1) * (bytesPerSample * channels) <= |data|
    modifies set w | 0 <= w < |outs| :: outs[w]
    ensures end == start + bytesPerSample * reached
    ensures forall w, i :: 0 <= w < |outs| && 0 <= i < outs[w].Length ==>
              outs[w][i] == if i == at && w < reached then old(outs[w][i]) + Played(data, bytesPerSample, channels, frame, w)
                            else old(outs[w][i])
  {
    hide Decoded;
    end := start;
    for v := 0 to reached
      invariant end == start + bytesPerSample * v
      invariant forall w, i :: 0 <= w < |outs| && 0 <= i < outs[w].Length ==>
                  outs[w][i] == if i == at && w < v then old(outs[w][i]) + Played(data, bytesPerSample, channels, frame, w)
                                else old(outs[w][i])
    {
      SampleFits(bytesPerSample, channels, frame, v);
      var sample := DecodeSample(data, end, bytesPerSample);
      assert sample as real * SCALE == Played(data, bytesPerSample, channels, frame, v);
      outs[v][at] := outs[v][at] + sample as real * SCALE;
      NextProduct(bytesPerSample, v);
      end := end + bytesPerSample;
    }
  }

  lemma NextProduct(d: nat, a: nat)
    ensures d * (a + 1) == d * a + d
  {
  }

  /** Adds frames of a file to the outputs. */
  method PlayIntoBuffers(outs: seq<array<real>>, startOutFrame: nat, data: seq<Byte>, startInFrame: nat, numFrames: nat,
                         bytesPerSample: nat, channels: nat)
    requires Distinct(outs) && channels > 0 && bytesPerSample <= 4
    requires forall w :: 0 <= w < |outs| ==> startOutFrame + numFrames <= outs[w].Length
    requires (startInFrame + numFrames) * (bytesPerSample * channels) <= |data|
    modifies set w | 0 <= w < |outs| :: outs[w]
    ensures forall w, i :: 0 <= w < |outs| && 0 <= i < outs[w].Length ==>
              outs[w][i] == if (channels == 1 || w < channels) && startOutFrame <= i < startOutFrame + numFrames
                            then old(outs[w][i]) + Played(data, bytesPerSample, channels, startInFrame + (i - startOutFrame), w)
                            else old(outs[w][i])
  {
    hide Played;
    var bytesPerFrame := bytesPerSample * channels;
    var p := startInFrame * bytesPerFrame;
    var reached := Reached(|outs|, channels);
    for f := 0 to numFrames
      invariant p == (startInFrame + f) * bytesPerFrame
      invariant forall w, i :: 0 <= w < |outs| && 0 <= i < outs[w].Length ==>
                  outs[w][i] == if w < reached && startOutFrame <= i < startOutFrame + f
                                then old(outs[w][i]) + Played(data, bytesPerSample, channels, startInFrame + (i - startOutFrame), w)
                                else old(outs[w][i])
    {
      Monotone(startInFrame + f + 1, startInFrame + numFrames, bytesPerFrame);
      PlayFrame(outs, startOutFrame + f, reached, data, p, bytesPerSample, channels, startInFrame + f);
      NextMultiple(startInFrame + f, bytesPerFrame);
      p := p + bytesPerFrame;
    }
  }

  /** Adds one frame; the pointer then skips the channels that have no output. */
  method PlayFrame(outs: seq<array<real>>, at: nat, reached: nat, data: seq<Byte>, p: nat, bytesPerSample: nat,
                   channels: nat, ghost frame: nat)
    requires Distinct(outs) && channels > 0 && bytesPerSample <= 4 && reached == Reached(|outs|, channels)
    requires forall w :: 0 <= w < |outs| ==> at < outs[w].Length
    requires p == frame * (bytesPerSample * channels) && (frame + 1) * (bytesPerSample * channels) <= |data|
    modifies set w | 0 <= w < |outs| :: outs[w]
    ensures forall w, i :: 0 <= w < |outs| && 0 <= i < outs[w].Length ==>
              outs[w][i] == if i == at && w < reached then old(outs[w][i]) + Played(data, bytesPerSample, channels, frame, w)
                            else old(outs[w][i])
  {
    hide Decoded;
    if channels == 1 {
      SampleFits(bytesPerSample, 1, frame, 0);
      var sample := DecodeSample(data, p, bytesPerSample);
      var value := sample as real * SCALE;
      assert forall w :: 0 <= w < |outs| ==> value == Played(data, bytesPerSample, channels, frame, w);
      AddToAll(outs, at, value);
    } else {
      var _ := AddToEach(outs, at, reached, data, p, bytesPerSample, channels, frame);
    }
  }

  // ---------------------------------------------------------------- recorded and played

  /** The slot that is filled from a sample is where it is looked for to be played. */
  lemma SlotIsPlayed(channels: seq<seq<real>>, frames: nat, f: nat, output: nat)
    requires Captured(channels, frames) && f < frames && (|channels| == 1 || output < |channels|)
    ensures var n := |channels|;
            var file := Filled(ZeroBytes(3 * (frames * n)), channels, frames, n);
            Played(file, 3, n, f, output) == Decoded(Encoded(channels[if n == 1 then 0 else output][f])) as real * SCALE
  {
    hide Decoded, Encoded, Filled;
    var n := |channels|;
    var c := if n == 1 then 0 else output;
    SlotOfFilled(ZeroBytes(3 * (frames * n)), channels, frames, n, c, f);
    SlotFits(c, f, n, frames);
    Monotone(f + 1, frames, 3 * n);
    assert frames * (3 * n) == 3 * (frames * n);
    assert 3 * c + f * (3 * n) == 3 * (c + f * n);
  }

  /**
    Record and play.  Each sample of each channel that was captured is played at the same
    frame and the same channel, or everywhere if it is the only channel, and what is
    played is within 511 / (2^31 - 1) of it, clamped; exactly, it is 256 times what was stored.
   */
  lemma RecordedIsPlayed(channels: seq<seq<real>>, frames: nat, f: nat, output: nat)
    requires Captured(channels, frames) && f < frames && (|channels| == 1 || output < |channels|)
    ensures var n := |channels|;
            var file := Filled(ZeroBytes(3 * (frames * n)), channels, frames, n);
            var sample := channels[if n == 1 then 0 else output][f];
            && n > 0
            && Played(file, 3, n, f, output) == (256 * Quantized(sample)) as real * SCALE
            && -511.0 / MAX32 as real < Played(file, 3, n, f, output) - Clamped(sample) < 511.0 / MAX32 as real
  {
    hide Decoded, Encoded, Quantized, Clamped, Filled, Played;
    var sample := channels[if |channels| == 1 then 0 else output][f];
    SlotIsPlayed(channels, frames, f, output);
    DecodedIs256Times(sample);
    ErrorIsSmall(sample);
  }

  // ---------------------------------------------------------------- the converse conversion

  /** A 24-bit number, the highest bit of which is the sign. */
  function Signed24(data: seq<Byte>): int
    requires |data| == 3
  {
    var (b0: int, b1: int, b2: int) := (data[0], data[1], data[2]);
    var v := b0 + b1 * 0x100 + b2 * 0x1_0000;
    if v >= 0x80_0000 then v - 0x100_0000 else v
  }

  /** `from_24_le` gives back the very value that `to_24_le` stored. */
  lemma From24InvertsTo24(sample: real)
    ensures Signed24(Encoded(sample)) == Quantized(sample)
  {
    hide Quantized;
    QuantizedBounds(sample);
    BytesOf24(Quantized(sample));
    var v := Quantized(sample);
    var v1, v2 := v / 0x100, v / 0x1_0000;
    assert v1 / 256 == v2 && -128 <= v2 < 128;
    assert v == 256 * v1 + v % 256 && v1 == 256 * v2 + v1 % 256;
    assert v2 % 256 == if v2 >= 0 then v2 else v2 + 256;
  }

  /** The sample of frame `f` among bytes that begin at `start`. */
  function Sample24(data: seq<Byte>, start: nat, step: nat, f: nat): real
    requires start + f * step + 3 <= |data|
  {
    Signed24(data[start + f * step..start + f * step + 3]) as real / MAX24 as real
  }

  /** What was interleaved for writing is converted back, frame by frame and channel by channel, to the stored value. */
  lemma ConvertedBack(channels: seq<seq<real>>, frames: nat, f: nat, c: nat)
    requires Captured(channels, frames) && f < frames && c < |channels|
    ensures var n := |channels|;
            var file := Filled(ZeroBytes(3 * (frames * n)), channels, frames, n);
            3 * c + f * (3 * n) + 3 <= |file|
            && Sample24(file, 3 * c, 3 * n, f) == Quantized(channels[c][f]) as real / MAX24 as real
  {
    hide Signed24, Encoded, Filled, Quantized;
    var n := |channels|;
    SlotOfFilled(ZeroBytes(3 * (frames * n)), channels, frames, n, c, f);
    SlotFits(c, f, n, frames);
    assert 3 * c + f * (3 * n) == 3 * (c + f * n);
    From24InvertsTo24(channels[c][f]);
  }

  predicate HasFrames(data: seq<Byte>, start: nat, step: nat, frames: nat) {
    forall f :: 0 <= f < frames ==> HasFrame(data, start, step, f)
  }

  predicate HasFrame(data: seq<Byte>, start: nat, step: nat, f: nat) {
    start + f * step + 3 <= |data|
  }

  method From24LE(data: seq<Byte>, start: nat, out: array<real>, frames: nat, step: nat)
    requires frames <= out.Length && HasFrames(data, start, step, frames)
    modifies out
    ensures forall f :: 0 <= f < frames ==> HasFrame(data, start, step, f) && out[f] == Sample24(data, start, step, f)
    ensures forall f :: frames <= f < out.Length ==> out[f] == old(out[f])
  {
    hide Signed24;
    var p := start;
    for i := 0 to frames
      invariant p == start + i * step
      invariant forall f :: 0 <= f < i ==> HasFrame(data, start, step, f) && out[f] == Sample24(data, start, step, f)
      invariant forall f :: i <= f < out.Length ==> out[f] == old(out[f])
    {
      assert HasFrame(data, start, step, i);
      var sample := Signed24(data[p..p + 3]) as real / MAX24 as real;
      assert sample == Sample24(data, start, step, i);
      hide Sample24, HasFrame;
      out[i] := sample;
      NextMultiple(i, step);
      p := p + step;
    }
  }
}
