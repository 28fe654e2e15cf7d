/**
  Mixing a tree of tracks.  Each track borrows a buffer for each channel, adds to it what
  it hears, what it plays and what its children send it, adds the result, amplified, to
  the buffers of its parent, and gives its own buffers back.  Samples are real numbers.
 */
module Mixers {
  import opened Wrappers

  /** `playlist` is what the track's playlist plays in this buffer, by channel. */
  datatype Track = Track(
    gain: real, sendsToParent: bool, recordArmed: bool, monitorInput: bool,
    captureChannels: Option<seq<int>>, playlist: seq<seq<real>>, children: seq<Track>)

  /** What all tracks see: whether the engine plays and records, and what was captured. */
  datatype Environment = Environment(playing: bool, recording: bool, captured: seq<Option<seq<real>>>)

  // ---------------------------------------------------------------- what should come out

  /** The buffers of a track and of its tallest child. */
  function Height(t: Track): nat
    decreases t
  {
    1 + Tallest(t.children)
  }

  function Tallest(tracks: seq<Track>): nat
    decreases tracks
  {
    if tracks == [] then 0
    else
      var rest := Tallest(tracks[..|tracks| - 1]);
      var last := Height(tracks[|tracks| - 1]);
      if last > rest then last else rest
  }

  /** A buffer's worth of samples. */
  type Signal = seq<real>

  function Silence(size: nat): (s: Signal)
    ensures |s| == size
  {
    seq(size, _ => 0.0)
  }

  function Sum(a: Signal, b: Signal): (s: Signal)
    requires |a| == |b|
    ensures |s| == |a|
  {
    seq(|a|, i requires 0 <= i < |a| => a[i] + b[i])
  }

  function Amplified(gain: real, a: Signal): (s: Signal)
    ensures |s| == |a|
  {
    seq(|a|, i requires 0 <= i < |a| => gain * a[i])
  }

  /** As much of a signal as fits in a buffer, and silence after it. */
  function Fitted(a: Signal, size: nat): (s: Signal)
    ensures |s| == size
  {
    seq(size, i requires 0 <= i < size => if i < |a| then a[i] else 0.0)
  }

  /** Which capture channel an armed track looks up for a channel, if any; a mono input is for all. */
  function LookedUp(t: Track, channel: nat): Option<int> {
    if !t.recordArmed || t.captureChannels.None? then None
    else
      var channels := t.captureChannels.value;
      if |channels| == 1 then Some(channels[0])
      else if channel < |channels| then Some(channels[channel])
      else None
  }

  datatype Capture = NoBuffer | Captured(signal: Signal) | OutOfBounds

  /** The engine finds no buffer for channels beyond one past the last; that one, and those below 0, it looks for outside the array. */
  function CaptureBuffer(env: Environment, channel: int): Capture {
    if channel > |env.captured| then NoBuffer
    else if channel < 0 || channel == |env.captured| then OutOfBounds
    else if env.captured[channel].None? then NoBuffer
    else Captured(env.captured[channel].value)
  }

  /** Everything that a track looks up for its channels is inside the array, or far enough outside to be seen to be. */
  predicate InBounds(env: Environment, t: Track, channels: nat) {
    forall b :: 0 <= b < channels ==> OneInBounds(env, t, b)
  }

  predicate OneInBounds(env: Environment, t: Track, channel: nat) {
    var capture := LookedUp(t, channel);
    capture.Some? ==> 0 <= capture.value && capture.value != |env.captured|
  }

  /** So is everything that the tracks below it look up. */
  predicate AllInBounds(env: Environment, t: Track, channels: nat)
    decreases t
  {
    InBounds(env, t, channels) && EachInBounds(env, t.children, channels)
  }

  predicate EachInBounds(env: Environment, tracks: seq<Track>, channels: nat)
    decreases tracks
  {
    forall i :: 0 <= i < |tracks| ==> AllInBounds(env, tracks[i], channels)
  }

  /** What a track monitors. */
  function Heard(env: Environment, t: Track, channel: nat, size: nat): (s: Signal)
    ensures |s| == size
  {
    var capture := LookedUp(t, channel);
    if !t.monitorInput || capture.None? || !CaptureBuffer(env, capture.value).Captured? then Silence(size)
    else Fitted(CaptureBuffer(env, capture.value).signal, size)
  }

  /** An armed track does not play while recording. */
  predicate Plays(env: Environment, t: Track) {
    env.playing && !(t.recordArmed && env.recording)
  }

  function Played(env: Environment, t: Track, channel: nat, size: nat): (s: Signal)
    ensures |s| == size
  {
    if Plays(env, t) && channel < |t.playlist| then Fitted(t.playlist[channel], size) else Silence(size)
  }

  /** What a track adds to its parent: nothing, or the sum, amplified, of what it hears, what it plays and its children. */
  function Mix(env: Environment, t: Track, channel: nat, size: nat): (s: Signal)
    ensures |s| == size
    decreases t, 1
  {
    if t.sendsToParent then Amplified(t.gain, Inside(env, t, channel, size)) else Silence(size)
  }

  function Inside(env: Environment, t: Track, channel: nat, size: nat): (s: Signal)
    ensures |s| == size
    decreases t, 0
  {
    Sum(Sum(Heard(env, t, channel, size), Played(env, t, channel, size)), MixAll(env, t.children, channel, size))
  }

  function MixAll(env: Environment, tracks: seq<Track>, channel: nat, size: nat): (s: Signal)
    ensures |s| == size
    decreases tracks
  {
    if tracks == [] then Silence(size)
    else Sum(MixAll(env, tracks[..|tracks| - 1], channel, size), Mix(env, tracks[|tracks| - 1], channel, size))
  }

  // ---------------------------------------------------------------- buffers

  /** What the buffers hold.  A buffer is known by its number. */
  type Memory = map<nat, Signal>

  ghost predicate Sized(memory: Memory, size: nat) {
    forall id :: id in memory ==> |memory[id]| == size
  }

  ghost predicate Distinct(ids: seq<nat>) {
    forall b, c :: 0 <= b < c < |ids| ==> ids[b] != ids[c]
  }

  ghost function Ids(ids: seq<nat>): (s: set<nat>)
    ensures forall b :: 0 <= b < |ids| ==> ids[b] in s
  {
    set b | 0 <= b < |ids| :: ids[b]
  }

  /** The same buffers, perhaps in another order. */
  ghost predicate SameIds(a: seq<nat>, b: seq<nat>) {
    |a| == |b| && Ids(a) == Ids(b)
  }

  /** Buffers that are all different, and exist. */
  ghost predicate Are(ids: seq<nat>, memory: Memory) {
    Distinct(ids) && Ids(ids) <= memory.Keys
  }

  /** Only these buffers may hold something else. */
  ghost predicate SameBut(before: Memory, after: Memory, changed: set<nat>) {
    after.Keys == before.Keys && forall id :: id in before && id !in changed ==> after[id] == before[id]
  }

  function Reversed<T>(s: seq<T>): (r: seq<T>)
    ensures |r| == |s|
  {
    if s == [] then [] else Reversed(s[1..]) + [s[0]]
  }

  /** An engine's buffers, and those that are free, the first of which is handed out first. */
  class Engine {
    const bufferSize: nat
    var memory: Memory
    var free: seq<nat>

    ghost predicate Valid()
      reads this
    {
      Sized(memory, bufferSize) && Are(free, memory)
    }

    constructor (size: nat)
      ensures Valid() && free == [] && bufferSize == size
    {
      bufferSize := size;
      memory, free := map[], [];
    }

    method GetBuffer() returns (buffer: Option<nat>)
      modifies this`free
      ensures old(free) == [] ==> buffer == None && free == []
      ensures old(free) != [] ==> buffer == Some(old(free)[0]) && free == old(free)[1..]
    {
      if free == [] {
        return None;
      }
      buffer := Some(free[0]);
      free := free[1..];
    }

    method FreeBuffer(buffer: Option<nat>)
      modifies this`free
      ensures free == if buffer == None then old(free) else [buffer.value] + old(free)
    {
      if buffer == None {
        return;
      }
      free := [buffer.value] + free;
    }

    /** Gets a cleared buffer for each channel; without one, the track cannot go on. */
    method GetBuffers(channels: nat) returns (ok: bool, buffers: seq<nat>)
      requires Valid()
      modifies this
      ensures ok <==> channels <= |old(free)|
      ensures ok ==> Valid() && buffers == old(free)[..channels] && free == old(free)[channels..]
      ensures ok ==> SameBut(old(memory), memory, Ids(buffers))
      ensures ok ==> forall b :: 0 <= b < channels ==> memory[buffers[b]] == Silence(bufferSize)
    {
      hide Silence;
      buffers := [];
      ghost var all := free;
      for channel := 0 to channels
        invariant channel <= |all| && buffers == all[..channel] && free == all[channel..]
        invariant Sized(memory, bufferSize) && SameBut(old(memory), memory, Ids(buffers))
        invariant forall b :: 0 <= b < channel ==> memory[buffers[b]] == Silence(bufferSize)
      {
        var buffer := GetBuffer();
        if buffer == None {
          return false, buffers;
        }
        assert buffer.value == all[channel];
        memory := memory[buffer.value := Silence(bufferSize)];
        buffers := buffers + [buffer.value];
      }
      ok := true;
    }

    method FreeBuffers(buffers: seq<nat>)
      modifies this`free
      ensures free == Reversed(buffers) + old(free)
    {
      hide Reversed;
      NothingReversed<nat>();
      assert buffers[..0] == [];
      for channel := 0 to |buffers|
        invariant free == Reversed(buffers[..channel]) + old(free)
      {
        ReversedAppend(buffers[..channel], buffers[channel]);
        assert buffers[..channel + 1] == buffers[..channel] + [buffers[channel]];
        FreeBuffer(Some(buffers[channel]));
      }
      assert buffers[..|buffers|] == buffers;
    }

    /** Adds a signal to a buffer, sample by sample. */
    method Add(signal: Signal, buffer: nat)
      requires buffer in memory && |memory[buffer]| == |signal|
      modifies this`memory
      ensures SameBut(old(memory), memory, {buffer}) && memory[buffer] == Sum(old(memory)[buffer], signal)
    {
      var out := memory[buffer];
      for i := 0 to |signal|
        invariant |out| == |signal| && forall j :: 0 <= j < |out| ==> out[j] == if j < i then old(memory)[buffer][j] + signal[j] else old(memory)[buffer][j]
      {
        out := out[i := out[i] + signal[i]];
      }
      assert out == Sum(memory[buffer], signal);
      memory := memory[buffer := out];
    }

    /** Adds what is captured to the track's buffers, unless it would have to be looked for outside the array. */
    method AddInput(env: Environment, t: Track, buffers: seq<nat>) returns (ok: bool)
      requires Sized(memory, bufferSize) && Are(buffers, memory)
      modifies this`memory
      ensures ok <==> InBounds(env, t, |buffers|)
      ensures Sized(memory, bufferSize) && SameBut(old(memory), memory, Ids(buffers))
      ensures ok ==> forall b :: 0 <= b < |buffers| ==>
                       memory[buffers[b]] == Sum(old(memory)[buffers[b]], Heard(env, t, b, bufferSize))
    {
      hide Sum, Silence, Fitted, Ids;
      AddSilence(bufferSize);
      if !t.recordArmed || t.captureChannels.None? {
        return true;
      }
      var captureChannels := t.captureChannels.value;
      var monoCapture := |captureChannels| == 1;
      for channel := 0 to |buffers|
        invariant forall b :: 0 <= b < channel ==> OneInBounds(env, t, b)
        invariant Sized(memory, bufferSize) && SameBut(old(memory), memory, Ids(buffers))
        invariant forall b :: 0 <= b < |buffers| ==>
                    memory[buffers[b]] == if b < channel then Sum(old(memory)[buffers[b]], Heard(env, t, b, bufferSize))
                                          else old(memory)[buffers[b]]
      {
        if !monoCapture && channel >= |captureChannels| {
          break;
        }
        var index := if monoCapture then 0 else channel;
        assert LookedUp(t, channel) == Some(captureChannels[index]);
        var input := CaptureBuffer(env, captureChannels[index]);
        if input.OutOfBounds? {
          assert !OneInBounds(env, t, channel);
          return false;
        }
        if input.Captured? && t.monitorInput {
          Add(Fitted(input.signal, bufferSize), buffers[channel]);
        }
      }
      ok := true;
    }

    method AddPlaylist(env: Environment, t: Track, buffers: seq<nat>)
      requires Sized(memory, bufferSize) && Are(buffers, memory)
      modifies this`memory
      ensures Sized(memory, bufferSize) && SameBut(old(memory), memory, Ids(buffers))
      ensures forall b :: 0 <= b < |buffers| ==> memory[buffers[b]] == Sum(old(memory)[buffers[b]], Played(env, t, b, bufferSize))
    {
      hide Sum, Silence, Fitted, Ids;
      AddSilence(bufferSize);
      if !Plays(env, t) {
        return;
      }
      for channel := 0 to |buffers|
        invariant Sized(memory, bufferSize) && SameBut(old(memory), memory, Ids(buffers))
        invariant forall b :: 0 <= b < |buffers| ==>
                    memory[buffers[b]] == if b < channel then Sum(old(memory)[buffers[b]], Played(env, t, b, bufferSize))
                                          else old(memory)[buffers[b]]
      {
        if channel < |t.playlist| {
          Add(Fitted(t.playlist[channel], bufferSize), buffers[channel]);
        }
      }
    }

    /**
      Mixes a track into the outputs.  It succeeds if and only if there are free buffers
      for every channel of every track on the longest path down, and no track looks for
      its input outside the array of capture buffers; otherwise some track has no buffer,
      or reads what is none, and cannot go on.  Afterwards the same buffers are free.
     */
    method Run(env: Environment, t: Track, outs: seq<nat>) returns (ok: bool)
      requires Valid() && Are(outs, memory) && Ids(outs) !! Ids(free)
      modifies this
      ensures ok <==> |outs| * Height(t) <= |old(free)| && AllInBounds(env, t, |outs|)
      ensures ok ==> Valid() && SameIds(old(free), free) && SameBut(old(memory), memory, Ids(outs) + Ids(old(free)))
      ensures ok ==> forall b :: 0 <= b < |outs| ==> memory[outs[b]] == Sum(old(memory)[outs[b]], Mix(env, t, b, bufferSize))
      decreases t, 2
    {
      hide Inside, Mix, Height, Tallest, Sum, Silence, Ids, Distinct, InBounds, EachInBounds;
      ghost var all := free;
      Unfold(|outs|, t);
      var buffers;
      ok, buffers := GetBuffers(|outs|);
      if !ok {
        return;
      }
      Parts(all, |outs|);
      ok := Gather(env, t, buffers);
      if !ok {
        return;
      }
      if t.sendsToParent {
        Emit(env, t, buffers, outs);
      } else {
        NothingSent(env, t, bufferSize);
      }
      ghost var rest := free;
      FreeBuffers(buffers);
      BackTogether(all, |outs|, rest);
    }

    /** Fills the track's buffers, which are silent. */
    method Gather(env: Environment, t: Track, buffers: seq<nat>) returns (ok: bool)
      requires Valid() && Are(buffers, memory) && Ids(buffers) !! Ids(free)
      requires forall b :: 0 <= b < |buffers| ==> memory[buffers[b]] == Silence(bufferSize)
      modifies this
      ensures ok <==> |buffers| * Tallest(t.children) <= |old(free)| && AllInBounds(env, t, |buffers|)
      ensures ok ==> Valid() && SameIds(old(free), free) && SameBut(old(memory), memory, Ids(buffers) + Ids(old(free)))
      ensures ok ==> forall b :: 0 <= b < |buffers| ==> memory[buffers[b]] == Inside(env, t, b, bufferSize)
      decreases t, 1
    {
      hide Heard, Played, MixAll, Tallest, Sum, Silence, Ids, Distinct, InBounds, EachInBounds;
      ok := AddInput(env, t, buffers);
      if !ok {
        return;
      }
      SilenceAdded(env, t, bufferSize);
      AddPlaylist(env, t, buffers);
      ok := RunChildren(env, t, buffers);
    }

    /** Each child adds to the track's buffers. */
    method RunChildren(env: Environment, t: Track, buffers: seq<nat>) returns (ok: bool)
      requires Valid() && Are(buffers, memory) && Ids(buffers) !! Ids(free)
      modifies this
      ensures ok <==> |buffers| * Tallest(t.children) <= |old(free)| && EachInBounds(env, t.children, |buffers|)
      ensures ok ==> Valid() && SameIds(old(free), free) && SameBut(old(memory), memory, Ids(buffers) + Ids(old(free)))
      ensures ok ==> forall b :: 0 <= b < |buffers| ==>
                       memory[buffers[b]] == Sum(old(memory)[buffers[b]], MixAll(env, t.children, b, bufferSize))
      decreases t, 0
    {
      hide Mix, MixAll, Height, Tallest, Sum, Silence, Ids, Distinct, AllInBounds;
      NoTracks(env, bufferSize);
      AddSilence(bufferSize);
      ghost var all, before := free, memory;
      assert t.children[..0] == [];
      for k := 0 to |t.children|
        invariant Valid() && SameIds(all, free) && SameBut(before, memory, Ids(buffers) + Ids(all))
        invariant |buffers| * Tallest(t.children[..k]) <= |all| && EachInBounds(env, t.children[..k], |buffers|)
        invariant forall b :: 0 <= b < |buffers| ==>
                    memory[buffers[b]] == Sum(before[buffers[b]], MixAll(env, t.children[..k], b, bufferSize))
      {
        OneMoreTrack(env, t.children, k, |buffers|, bufferSize);
        forall b | 0 <= b < |buffers| {
          SumAssociates(before[buffers[b]], MixAll(env, t.children[..k], b, bufferSize), Mix(env, t.children[k], b, bufferSize));
        }
        ok := Run(env, t.children[k], buffers);
        if !ok {
          TallestGrows(t.children, k + 1, |buffers|);
          return;
        }
      }
      assert t.children[..|t.children|] == t.children;
      ok := true;
    }

    /** Adds the track's buffers, amplified, to the outputs. */
    method Emit(env: Environment, t: Track, buffers: seq<nat>, outs: seq<nat>)
      requires Sized(memory, bufferSize) && Are(buffers, memory) && Are(outs, memory) && Ids(outs) !! Ids(buffers)
      requires |buffers| == |outs| && t.sendsToParent
      requires forall b :: 0 <= b < |buffers| ==> memory[buffers[b]] == Inside(env, t, b, bufferSize)
      modifies this`memory
      ensures Sized(memory, bufferSize) && SameBut(old(memory), memory, Ids(outs))
      ensures forall b :: 0 <= b < |outs| ==> memory[outs[b]] == Sum(old(memory)[outs[b]], Mix(env, t, b, bufferSize))
    {
      hide Inside, Sum, Amplified, Mix, Ids;
      MixSent(env, t, bufferSize);
      for channel := 0 to |outs|
        invariant Sized(memory, bufferSize) && SameBut(old(memory), memory, Ids(outs))
        invariant forall b :: 0 <= b < |outs| ==>
                    memory[outs[b]] == if b < channel then Sum(old(memory)[outs[b]], Mix(env, t, b, bufferSize))
                                       else old(memory)[outs[b]]
      {
        assert memory[buffers[channel]] == Inside(env, t, channel, bufferSize);
        Add(Amplified(t.gain, memory[buffers[channel]]), outs[channel]);
      }
    }
  }

  // ---------------------------------------------------------------- facts about mixing

  lemma AddSilence(size: nat)
    ensures forall a: Signal :: |a| == size ==> Sum(a, Silence(size)) == a && Sum(Silence(size), a) == a
  {
  }

  lemma SumAssociates(a: Signal, b: Signal, c: Signal)
    requires |a| == |b| == |c|
    ensures Sum(Sum(a, b), c) == Sum(a, Sum(b, c))
  {
  }

  lemma SilenceAdded(env: Environment, t: Track, size: nat)
    ensures forall b: nat :: Sum(Silence(size), Heard(env, t, b, size)) == Heard(env, t, b, size)
  {
    hide Heard, Silence, Sum;
    AddSilence(size);
  }

  lemma MixSent(env: Environment, t: Track, size: nat)
    requires t.sendsToParent
    ensures forall b: nat :: Mix(env, t, b, size) == Amplified(t.gain, Inside(env, t, b, size))
  {
    hide Inside, Amplified;
  }

  lemma NothingSent(env: Environment, t: Track, size: nat)
    requires !t.sendsToParent
    ensures forall b: nat, a: Signal :: |a| == size ==> Sum(a, Mix(env, t, b, size)) == a
  {
    hide Silence, Sum;
    AddSilence(size);
  }

  /**
    With two capture buffers an input "In 3", which is channel 2, is looked for right behind
    the array and an input of no number, which is channel -1, right before it, while the
    engine sees that there is no channel 3.
   */
  lemma ThirdInputOfTwo(env: Environment, t: Track)
    requires |env.captured| == 2 && t.recordArmed
    ensures t.captureChannels == Some([2]) || t.captureChannels == Some([-1]) ==> !AllInBounds(env, t, 2)
    ensures t.captureChannels == Some([3]) && t.children == [] ==> AllInBounds(env, t, 2) && Heard(env, t, 0, 1) == [0.0]
  {
    assert t.captureChannels == Some([2]) || t.captureChannels == Some([-1]) ==> !OneInBounds(env, t, 0);
  }

  lemma Unfold(channels: nat, t: Track)
    ensures channels * Height(t) == channels + channels * Tallest(t.children)
  {
  }

  lemma NoTracks(env: Environment, size: nat)
    ensures Tallest([]) == 0 && forall b: nat :: MixAll(env, [], b, size) == Silence(size)
  {
  }

  /** One child more: what it adds, and how many buffers all of them need. */
  lemma OneMoreTrack(env: Environment, tracks: seq<Track>, k: nat, channels: nat, size: nat)
    requires k < |tracks|
    ensures forall b: nat :: MixAll(env, tracks[..k + 1], b, size) == Sum(MixAll(env, tracks[..k], b, size), Mix(env, tracks[k], b, size))
    ensures Tallest(tracks[..k + 1]) == Tallest(tracks[..k]) || Tallest(tracks[..k + 1]) == Height(tracks[k])
    ensures Tallest(tracks[..k + 1]) >= Tallest(tracks[..k]) && Tallest(tracks[..k + 1]) >= Height(tracks[k])
    ensures channels * Height(tracks[k]) <= channels * Tallest(tracks[..k + 1])
  {
    hide Mix, Height, Sum;
    var more := tracks[..k + 1];
    assert more[..|more| - 1] == tracks[..k] && more[|more| - 1] == tracks[k];
    Monotone(Height(tracks[k]), Tallest(more), channels);
  }

  lemma NothingReversed<T>()
    ensures Reversed<T>([]) == []
  {
  }

  lemma {:induction false} ReversedAppend<T>(s: seq<T>, x: T)
    ensures Reversed(s + [x]) == [x] + Reversed(s)
  {
    if s == [] {
      assert [x][1..] == [];
    } else {
      assert (s + [x])[1..] == s[1..] + [x];
      ReversedAppend(s[1..], x);
    }
  }

  lemma Monotone(a: nat, b: nat, d: nat)
    requires a <= b
    ensures d * a <= d * b
  {
  }

  lemma {:induction false} TallestGrows(tracks: seq<Track>, k: nat, channels: nat)
    requires k <= |tracks|
    ensures Tallest(tracks[..k]) <= Tallest(tracks) && channels * Tallest(tracks[..k]) <= channels * Tallest(tracks)
    decreases |tracks| - k
  {
    hide Height;
    if k < |tracks| {
      var more := tracks[..k + 1];
      assert more[..|more| - 1] == tracks[..k];
      TallestGrows(tracks, k + 1, channels);
    } else {
      assert tracks[..k] == tracks;
    }
    Monotone(Tallest(tracks[..k]), Tallest(tracks), channels);
  }

  // ---------------------------------------------------------------- what the mix is

  /** A track that is armed hears an input if it is the only one of the track, or the one for the channel. */
  predicate LooksUp(t: Track, channel: nat, input: int) {
    && t.recordArmed && t.captureChannels.Some?
    && (t.captureChannels.value == [input]
        || (|t.captureChannels.value| != 1 && channel < |t.captureChannels.value| && t.captureChannels.value[channel] == input))
  }

  lemma LookedUpIs(env: Environment, t: Track, channel: nat)
    ensures forall input :: LooksUp(t, channel, input) <==> LookedUp(t, channel) == Some(input)
    ensures OneInBounds(env, t, channel) <==> forall input :: LooksUp(t, channel, input) ==> 0 <= input && input != |env.captured|
  {
    if LookedUp(t, channel).Some? {
      assert LooksUp(t, channel, LookedUp(t, channel).value);
    }
  }

  /** The sample at a place, or none past the end. */
  function At(a: Signal, i: nat): real {
    if i < |a| then a[i] else 0.0
  }

  /** A track that monitors its input hears one that it looks up, if it was captured. */
  ghost predicate Hears(env: Environment, t: Track, channel: nat, input: nat) {
    t.monitorInput && LooksUp(t, channel, input) && input < |env.captured| && env.captured[input].Some?
  }

  /** What a track itself contributes to a sample: its input, and its playlist unless it is being recorded. */
  ghost function Own(env: Environment, t: Track, channel: nat, i: nat): real {
    (if input: nat :| Hears(env, t, channel, input) then At(env.captured[input].value, i) else 0.0)
    + (if env.playing && !(t.recordArmed && env.recording) && channel < |t.playlist| then At(t.playlist[channel], i) else 0.0)
  }

  lemma OwnIs(env: Environment, t: Track, channel: nat, size: nat, i: nat)
    requires i < size
    ensures Own(env, t, channel, i) == Heard(env, t, channel, size)[i] + Played(env, t, channel, size)[i]
  {
    LookedUpIs(env, t, channel);
    if input: nat :| Hears(env, t, channel, input) {
      assert LookedUp(t, channel) == Some(input);
    } else {
      var lookedUp := LookedUp(t, channel);
      assert lookedUp.Some? && lookedUp.value >= 0 ==> !Hears(env, t, channel, lookedUp.value);
    }
  }

  /**
    A sample as the sum over all tracks, each weighted by the gains on its way up: those
    of its own and of the tracks above it, which together make `factor`.  A track that
    does not send to its parent silences all below it.
   */
  ghost function Weighted(env: Environment, t: Track, channel: nat, i: nat, factor: real): real
    decreases t, 1
  {
    if !t.sendsToParent then 0.0
    else factor * t.gain * Own(env, t, channel, i) + WeightedAll(env, t.children, channel, i, factor * t.gain)
  }

  ghost function WeightedAll(env: Environment, tracks: seq<Track>, channel: nat, i: nat, factor: real): real
    decreases tracks, 0
  {
    if tracks == [] then 0.0
    else
      WeightedAll(env, tracks[..|tracks| - 1], channel, i, factor) + Weighted(env, tracks[|tracks| - 1], channel, i, factor)
  }

  lemma WeightedSends(env: Environment, t: Track, channel: nat, i: nat, factor: real)
    requires t.sendsToParent
    ensures Weighted(env, t, channel, i, factor)
         == factor * t.gain * Own(env, t, channel, i) + WeightedAll(env, t.children, channel, i, factor * t.gain)
  {
  }

  /** Mixing step by step up the tree is weighting every track by all gains above it. */
  lemma {:induction false} MixIsWeightedSum(env: Environment, t: Track, channel: nat, size: nat, i: nat, factor: real)
    requires i < size
    ensures factor * Mix(env, t, channel, size)[i] == Weighted(env, t, channel, i, factor)
    decreases t, 1
  {
    hide Heard, Played, Own;
    if t.sendsToParent {
      OwnIs(env, t, channel, size, i);
      WeightedSends(env, t, channel, i, factor);
      MixAllIsWeightedSum(env, t.children, channel, size, i, factor * t.gain);
      Distributes(factor, t.gain, Own(env, t, channel, i), MixAll(env, t.children, channel, size)[i]);
    } else {
      assert Mix(env, t, channel, size)[i] == 0.0;
    }
  }

  lemma {:induction false} MixAllIsWeightedSum(env: Environment, tracks: seq<Track>, channel: nat, size: nat, i: nat, factor: real)
    requires i < size
    ensures factor * MixAll(env, tracks, channel, size)[i] == WeightedAll(env, tracks, channel, i, factor)
    decreases tracks, 0
  {
    hide Mix, Weighted;
    if tracks != [] {
      var rest, last := tracks[..|tracks| - 1], tracks[|tracks| - 1];
      MixAllIsWeightedSum(env, rest, channel, size, i, factor);
      MixIsWeightedSum(env, last, channel, size, i, factor);
      Distributes(1.0, factor, MixAll(env, rest, channel, size)[i], Mix(env, last, channel, size)[i]);
    }
  }

  lemma Distributes(a: real, b: real, c: real, d: real)
    ensures a * (b * (c + d)) == a * b * c + a * b * d
  {
  }

  // ---------------------------------------------------------------- facts about buffers

  lemma Parts(all: seq<nat>, n: nat)
    requires Distinct(all) && n <= |all|
    ensures Distinct(all[..n]) && Distinct(all[n..]) && Ids(all[..n]) !! Ids(all[n..])
    ensures Ids(all) == Ids(all[..n]) + Ids(all[n..])
  {
    assert forall b :: 0 <= b < n ==> all[..n][b] == all[b];
    assert forall b :: n <= b < |all| ==> all[n..][b - n] == all[b];
  }

  lemma {:induction false} ReversedIds(s: seq<nat>)
    requires Distinct(s)
    ensures Distinct(Reversed(s)) && Ids(Reversed(s)) == Ids(s)
  {
    if s != [] {
      ReversedIds(s[1..]);
      Joined(s[..1], s[1..]);
      Parts(s, 1);
      Joined(Reversed(s[1..]), [s[0]]);
      assert s == s[..1] + s[1..] && s[..1] == [s[0]];
    }
  }

  lemma Joined(a: seq<nat>, b: seq<nat>)
    ensures Ids(a + b) == Ids(a) + Ids(b)
    ensures Distinct(a) && Distinct(b) && Ids(a) !! Ids(b) ==> Distinct(a + b)
  {
    var whole := a + b;
    assert forall i :: 0 <= i < |a| ==> whole[i] == a[i];
    assert forall i :: 0 <= i < |b| ==> whole[|a| + i] == b[i];
  }

  /** The buffers that were taken and returned and the others are all there were. */
  lemma BackTogether(all: seq<nat>, n: nat, rest: seq<nat>)
    requires n <= |all| && Distinct(all) && Distinct(rest) && SameIds(all[n..], rest)
    ensures var now := Reversed(all[..n]) + rest;
            Distinct(now) && SameIds(all, now)
  {
    hide Ids, Distinct;
    Parts(all, n);
    ReversedIds(all[..n]);
    Joined(Reversed(all[..n]), rest);
  }
}
