/**
  A playlist sounds like its clips.  As long as reads are supplied and completed in
  time, every buffer of a forward run receives just what the clips have at that time,
  although the walk over the playlist does not visit all of them.
 */
module SeamlessPlaylists {
  import opened Clips
  import opened ClipTheorems
  import opened Playlists
  import opened PlaylistTheorems

  // ---------------------------------------------------------------- what should be heard

  /** What a clip has at a frame of the timeline. */
  function Part(clip: Extent, file: int -> real, time: int): real {
    if clip.start <= time < clip.End() then file(clip.fileStart + (time - clip.start)) else 0.0
  }

  /** What all clips, from `i` on, have at a frame of the timeline. */
  function Parts(line: Line, time: int, i: nat): real
    requires |line.files| == |line.clips| && i <= |line.clips|
    decreases |line.clips| - i
  {
    if i == |line.clips| then 0.0 else Part(line.clips[i], line.files[i], time) + Parts(line, time, i + 1)
  }

  /** A buffer with what the clips have while it is played. */
  function Sounding(line: Line, playHead: int, out: seq<real>): (heard: seq<real>)
    requires |line.files| == |line.clips|
    ensures |heard| == |out|
  {
    seq(|out|, j requires 0 <= j < |out| => out[j] + Parts(line, playHead + j, 0))
  }

  /** Every clip, from `i` on, adds what it should. */
  function IdealFrom(line: Line, playHead: int, out: seq<real>, i: nat): (heard: seq<real>)
    requires |line.files| == |line.clips| && i <= |line.clips|
    ensures |heard| == |out|
    decreases |line.clips| - i
  {
    if i == |line.clips| then out
    else IdealFrom(line, playHead, Ideal(line.clips[i], line.files[i], playHead, out), i + 1)
  }

  lemma IdealAt(clip: Extent, file: int -> real, playHead: int, out: seq<real>, j: nat)
    requires j < |out|
    ensures Ideal(clip, file, playHead, out)[j] == out[j] + Part(clip, file, playHead + j)
  {
    var frame := clip.PlayFrame(playHead) + j;
    assert frame == clip.fileStart + (playHead + j - clip.start);
    assert clip.fileStart <= frame < clip.FileEnd() <==> clip.start <= playHead + j < clip.End();
    assert Ideal(clip, file, playHead, out)[j] == if clip.fileStart <= frame < clip.FileEnd() then out[j] + file(frame) else out[j];
  }

  lemma {:induction false} IdealIsSum(line: Line, playHead: int, out: seq<real>, i: nat, j: nat)
    requires |line.files| == |line.clips| && i <= |line.clips| && j < |out|
    ensures IdealFrom(line, playHead, out, i)[j] == out[j] + Parts(line, playHead + j, i)
    decreases |line.clips| - i
  {
    if i < |line.clips| {
      IdealAt(line.clips[i], line.files[i], playHead, out, j);
      IdealIsSum(line, playHead, Ideal(line.clips[i], line.files[i], playHead, out), i + 1, j);
    }
  }

  lemma EndedIsSilent(clip: Extent, file: int -> real, playHead: int, out: seq<real>)
    requires clip.End() <= playHead
    ensures Ideal(clip, file, playHead, out) == out
  {
    forall j | 0 <= j < |out|
      ensures Ideal(clip, file, playHead, out)[j] == out[j]
    {
      IdealAt(clip, file, playHead, out, j);
    }
  }

  /** Clips that have ended need not be visited. */
  lemma {:induction false} EndedAreIdeal(line: Line, playHead: int, out: seq<real>, i: nat, first: nat)
    requires |line.files| == |line.clips| && i <= first <= |line.clips|
    requires forall k :: 0 <= k < first ==> line.clips[k].End() <= playHead
    ensures IdealFrom(line, playHead, out, i) == IdealFrom(line, playHead, out, first)
    decreases first - i
  {
    if i < first {
      EndedIsSilent(line.clips[i], line.files[i], playHead, out);
      EndedAreIdeal(line, playHead, out, i + 1, first);
    }
  }

  lemma FarIsSilent(clip: Extent, file: int -> real, playHead: int, out: seq<real>)
    requires playHead + |out| <= clip.start
    ensures Ideal(clip, file, playHead, out) == out
  {
    forall j | 0 <= j < |out|
      ensures Ideal(clip, file, playHead, out)[j] == out[j]
    {
      IdealAt(clip, file, playHead, out, j);
    }
  }

  /** Nor need clips that begin after the buffer. */
  lemma {:induction false} FarAreIdeal(line: Line, playHead: int, out: seq<real>, i: nat)
    requires line.Valid() && i < |line.clips| && playHead + |out| <= line.clips[i].start
    ensures IdealFrom(line, playHead, out, i) == out
    decreases |line.clips| - i
  {
    hide Ideal;
    FarIsSilent(line.clips[i], line.files[i], playHead, out);
    if i + 1 < |line.clips| {
      assert line.clips[i].Valid() && line.clips[i].End() <= line.clips[i + 1].start;
      FarAreIdeal(line, playHead, out, i + 1);
    }
  }

  // ---------------------------------------------------------------- one clip

  /** What holds of a clip before every buffer of a forward run with reads in time. */
  ghost predicate Ready(clip: Extent, state: State, playHead: int) {
    Good(clip, state, playHead) && NoGapFrom(clip, state.table, playHead) && InStep(clip, state, playHead)
  }

  /** There was a request for the clip's read, if it needed one, and what it needs for the buffer has arrived. */
  ghost predicate SuppliedOne(clip: Extent, state: State, playHead: int, requests: nat, arrival: (bool, bool), size: nat) {
    && NotRefused(clip, state.table, playHead, requests > 0)
    && InTime(clip, AfterCompletion(AfterReadAhead(clip, state.table, playHead, requests > 0).0, arrival.0, arrival.1), playHead, size)
  }

  lemma OneIsIdeal(clip: Extent, file: int -> real, state: State, playHead: int, requests: nat, arrival: (bool, bool), out: seq<real>)
    requires Ready(clip, state, playHead) && |out| <= clip.window
    requires SuppliedOne(clip, state, playHead, requests, arrival, |out|)
    ensures var (read, _) := ReadOne(clip, state, playHead, requests);
            var (state', out') := RunOne(clip, file, read, playHead, arrival, out);
            out' == Ideal(clip, file, playHead, out) && Ready(clip, state', playHead + |out|)
  {
    hide AfterReadAhead, AfterRun, AfterCompletion, Ideal, InTime, Covers, WellFormed, LeavesGap, Good, Table.HasFrames;
    GoodIsWellFormed(clip, state, playHead);
    ReadOneGood(clip, state, playHead, requests);
    var (read, _) := ReadOne(clip, state, playHead, requests);
    RunOneGood(clip, file, read, playHead, arrival, out);
    CoveredUnlessGap(clip, state.table, playHead, requests > 0);
    NoGapIsKept(clip, state.table, playHead, requests > 0);
    ReadAheadKeepsTable(clip, state.table, playHead, requests > 0);
    CompletionKeeps(clip, read.table, arrival.0, arrival.1, playHead);
    var arrived := read.(table := AfterCompletion(read.table, arrival.0, arrival.1));
    CoverLess(clip, arrived.table, clip.PlayFrame(playHead), |out|, clip.window);
    RunInTime(clip, arrived, file, playHead, out);
    RunLeavesTable(clip, arrived, file, playHead, out);
  }

  lemma GoodIsWellFormed(clip: Extent, state: State, playHead: int)
    requires Good(clip, state, playHead)
    ensures clip.Valid() && WellFormed(clip, state.table)
  {
  }

  /** A clip that is out of reach is as ready for the next buffer. */
  lemma FarStaysReady(clip: Extent, state: State, playHead: int, size: nat, requests: nat)
    requires Ready(clip, state, playHead) && playHead + clip.window < clip.start && size <= clip.window
    ensures Ready(clip, state, playHead + size) && ReadOne(clip, state, playHead, requests).0 == state
  {
    ReadOneGood(clip, state, playHead, requests);
  }

  lemma PreparedOneIsReady(clip: Extent, state: State, playHead: int, requests: nat)
    requires clip.Valid() && WellFormed(clip, state.table) && !state.playing && !LeavesGap(clip, state.table, playHead)
    ensures Ready(clip, ReadOne(clip, state, playHead, requests).0, playHead)
  {
    hide AfterReadAhead, Good, LeavesGap;
    PreparedOneIsGood(clip, state, playHead, requests);
    NoGapIsKept(clip, state.table, playHead, requests > 0);
  }

  // ---------------------------------------------------------------- one buffer

  /** Clips from `first` on are ready, those before `split` for the next buffer and the others for this one. */
  ghost predicate AllReady(line: Line, states: seq<State>, playHead: int, size: nat, split: nat, first: nat) {
    && Tables(line, states) && size <= line.window
    && forall k :: first <= k < |states| ==>
         Ready(line.clips[k], states[k], if k < split then playHead + size else playHead)
  }

  /** Every clip that the walk visits, from `i` on, is supplied. */
  ghost predicate Supplied(line: Line, walk: Walk, playHead: int, buffer: Buffer, i: nat)
    requires Sized(line, walk.states, buffer) && i <= |walk.states|
    decreases |line.clips| - i
  {
    hide ReadOne, RunOne, WellFormed;
    i == |line.clips| || playHead + line.window < line.clips[i].start ||
    (SuppliedOne(line.clips[i], walk.states[i], playHead, walk.requests, buffer.arrivals[i], |walk.out|) &&
     var (read, requests) := ReadOne(line.clips[i], walk.states[i], playHead, walk.requests);
     var (state, out) := RunOne(line.clips[i], line.files[i], read, playHead, buffer.arrivals[i], walk.out);
     Supplied(line, Walk(walk.states[i := state], out, requests), playHead, buffer, i + 1))
  }

  lemma {:induction false} WalkIsIdeal(line: Line, walk: Walk, playHead: int, buffer: Buffer, i: nat, first: nat)
    requires line.Valid() && Sized(line, walk.states, buffer) && first <= i <= |line.clips|
    requires AllReady(line, walk.states, playHead, |walk.out|, i, first) && Supplied(line, walk, playHead, buffer, i)
    requires forall k :: 0 <= k < first ==> line.clips[k].End() <= playHead
    ensures var (result, first') := RunSome(line, walk, playHead, buffer, i, first);
            && result.out == IdealFrom(line, playHead, walk.out, i)
            && first' <= |line.clips| && AllReady(line, result.states, playHead + |walk.out|, |walk.out|, 0, first')
            && forall k :: 0 <= k < first' ==> line.clips[k].End() <= playHead
    decreases |line.clips| - i
  {
    hide ReadOne, RunOne, Ready, SuppliedOne, WellFormed, Ideal;
    if i < |line.clips| {
      var clip := line.clips[i];
      var (read, requests) := ReadOne(clip, walk.states[i], playHead, walk.requests);
      var first' := if playHead > clip.End() then i + 1 else first;
      BeforeHaveEnded(line, playHead, i);
      if playHead + line.window < clip.start {
        FarAreIdeal(line, playHead, walk.out, i);
        RestStaysReady(line, walk, playHead, i, first);
      } else {
        OneIsIdeal(clip, line.files[i], walk.states[i], playHead, walk.requests, buffer.arrivals[i], walk.out);
        var (state, out) := RunOne(clip, line.files[i], read, playHead, buffer.arrivals[i], walk.out);
        WalkIsIdeal(line, Walk(walk.states[i := state], out, requests), playHead, buffer, i + 1, first');
      }
    }
  }

  /** If a clip has ended, so have those before it. */
  lemma BeforeHaveEnded(line: Line, playHead: int, i: nat)
    requires line.Valid() && i < |line.clips|
    ensures playHead > line.clips[i].End() ==> forall k :: 0 <= k <= i ==> line.clips[k].End() <= playHead
  {
    assert line.clips[i].Valid();
  }

  /** Where the walk stops, all clips from there on are as ready for the next buffer. */
  lemma RestStaysReady(line: Line, walk: Walk, playHead: int, i: nat, first: nat)
    requires line.Valid() && first <= i < |line.clips| && playHead + line.window < line.clips[i].start
    requires AllReady(line, walk.states, playHead, |walk.out|, i, first)
    ensures ReadOne(line.clips[i], walk.states[i], playHead, walk.requests).0 == walk.states[i]
    ensures AllReady(line, walk.states, playHead + |walk.out|, |walk.out|, 0, first)
  {
    hide ReadOne, Ready, WellFormed;
    forall k | i <= k < |line.clips|
      ensures Ready(line.clips[k], walk.states[k], playHead + |walk.out|)
    {
      assert line.clips[i].Valid() && line.clips[k].window == line.window;
      FarStaysReady(line.clips[k], walk.states[k], playHead, |walk.out|, walk.requests);
    }
    FarStaysReady(line.clips[i], walk.states[i], playHead, |walk.out|, walk.requests);
  }

  // ---------------------------------------------------------------- whole runs

  /** Reads were supplied and completed in time in every buffer of a run of `Playlist.Run`. */
  ghost predicate AllSupplied(line: Line, states: seq<State>, first: nat, playHead: int, size: nat, buffers: seq<Buffer>)
    requires Fits(line, size, buffers) && Tables(line, states) && first <= |line.clips|
    decreases |buffers|
  {
    buffers == [] ||
    (var walk := Walk(states, buffers[0].out, buffers[0].requests);
     Supplied(line, walk, playHead, buffers[0], first) &&
     var (after, first') := RunSome(line, walk, playHead, buffers[0], first, first);
     AllSupplied(line, after.states, first', playHead + size, size, buffers[1..]))
  }

  /** One buffer: it receives what the clips have, and the clips are ready for the next. */
  lemma BufferIsSeamless(line: Line, states: seq<State>, first: nat, playHead: int, buffer: Buffer)
    requires line.Valid() && Sized(line, states, buffer) && first <= |line.clips|
    requires AllReady(line, states, playHead, |buffer.out|, 0, first)
    requires forall k :: 0 <= k < first ==> line.clips[k].End() <= playHead
    requires Supplied(line, Walk(states, buffer.out, buffer.requests), playHead, buffer, first)
    ensures var (after, first') := RunSome(line, Walk(states, buffer.out, buffer.requests), playHead, buffer, first, first);
            && after.out == Sounding(line, playHead, buffer.out)
            && first' <= |line.clips| && AllReady(line, after.states, playHead + |buffer.out|, |buffer.out|, 0, first')
            && forall k :: 0 <= k < first' ==> line.clips[k].End() <= playHead
  {
    hide Ready, WellFormed, RunSome, Supplied, IdealFrom;
    WalkIsIdeal(line, Walk(states, buffer.out, buffer.requests), playHead, buffer, first, first);
    EndedAreIdeal(line, playHead, buffer.out, 0, first);
    forall j | 0 <= j < |buffer.out|
      ensures IdealFrom(line, playHead, buffer.out, 0)[j] == Sounding(line, playHead, buffer.out)[j]
    {
      IdealIsSum(line, playHead, buffer.out, 0, j);
    }
  }

  lemma {:induction false} RunIsSeamless(line: Line, states: seq<State>, first: nat, playHead: int, size: nat, buffers: seq<Buffer>, k: nat)
    requires Fits(line, size, buffers) && Tables(line, states) && first <= |line.clips| && k < |buffers|
    requires AllReady(line, states, playHead, size, 0, first)
    requires forall i :: 0 <= i < first ==> line.clips[i].End() <= playHead
    requires AllSupplied(line, states, first, playHead, size, buffers)
    ensures var outs := Windowed(line, states, first, playHead, size, buffers);
            k < |outs| && outs[k].0 == Sounding(line, playHead + k * size, buffers[k].out)
    decreases k
  {
    hide AllReady, Supplied, RunSome, Sounding, WellFormed;
    var buffer := buffers[0];
    BufferIsSeamless(line, states, first, playHead, buffer);
    if k == 0 {
      assert playHead + 0 * size == playHead;
    } else {
      var (after, first') := RunSome(line, Walk(states, buffer.out, buffer.requests), playHead, buffer, first, first);
      RunIsSeamless(line, after.states, first', playHead + size, size, buffers[1..], k - 1);
      assert playHead + size + (k - 1) * size == playHead + k * size;
    }
  }

  lemma {:induction false} PreparedIsReady(line: Line, walk: Walk, playHead: int, i: nat)
    requires line.Valid() && Tables(line, walk.states) && i <= |line.clips|
    requires forall k :: 0 <= k < i ==> Ready(line.clips[k], walk.states[k], playHead)
    requires forall k :: i <= k < |line.clips| ==> !LeavesGap(line.clips[k], walk.states[k].table, playHead)
    ensures var prepared := Prepared(line, walk, playHead, i).states;
            |prepared| == |line.clips| && forall k :: 0 <= k < |prepared| ==> Ready(line.clips[k], prepared[k], playHead)
    decreases |line.clips| - i
  {
    hide ReadOne, Ready, WellFormed, LeavesGap;
    if i < |line.clips| {
      var stopped := walk.states[i].(playing := false, playFrame := line.clips[i].PlayFrame(playHead));
      PreparedOneIsReady(line.clips[i], stopped, playHead, walk.requests);
      var (read, requests) := ReadOne(line.clips[i], stopped, playHead, walk.requests);
      PreparedIsReady(line, Walk(walk.states[i := read], walk.out, requests), playHead, i + 1);
    }
  }

  /**
    Seamless playback of a playlist.  Prepare it at a position that leaves no clip a gap,
    as any does for clips that have no reads yet, and run it forward with reads supplied
    and completed in time.  Then sample `j` of buffer `k` becomes what it was plus what
    the clips have at frame `playHead + k * size + j` of the timeline.
   */
  lemma PlaylistIsSeamless(line: Line, states: seq<State>, requests: nat, playHead: int, size: nat, buffers: seq<Buffer>, k: nat)
    requires Fits(line, size, buffers) && Tables(line, states) && k < |buffers|
    requires forall i :: 0 <= i < |states| ==> !LeavesGap(line.clips[i], states[i].table, playHead)
    requires var prepared := Prepared(line, Walk(states, [], requests), playHead, 0).states;
             AllSupplied(line, prepared, FirstPlaying(line, playHead), playHead, size, buffers)
    ensures var prepared := Prepared(line, Walk(states, [], requests), playHead, 0).states;
            var outs := Windowed(line, prepared, FirstPlaying(line, playHead), playHead, size, buffers);
            k < |outs| && outs[k].0 == Sounding(line, playHead + k * size, buffers[k].out)
  {
    hide Ready, AllSupplied, WellFormed, LeavesGap, Windowed, Prepared, Sounding;
    PreparedIsReady(line, Walk(states, [], requests), playHead, 0);
    var prepared := Prepared(line, Walk(states, [], requests), playHead, 0).states;
    RunIsSeamless(line, prepared, FirstPlaying(line, playHead), playHead, size, buffers, k);
  }
}
