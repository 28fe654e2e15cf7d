/**
  The short walk over a playlist is indistinguishable from visiting every clip: it
  produces the same buffers and takes the same read requests, buffer after buffer.
 */
module PlaylistTheorems {
  import opened Clips
  import opened ClipTheorems
  import opened Playlists

  /** What holds of a clip before every buffer of a forward run. */
  ghost predicate Good(clip: Extent, state: State, playHead: int) {
    && clip.Valid() && WellFormed(clip, state.table)
    && (state.playing ==> clip.start <= playHead && clip.PlayFrame(playHead) <= state.playFrame)
    && (playHead + clip.window < clip.start ==> state.table == Fresh.table && !state.playing)
  }

  /** The copying loop advances by at least the rest of the buffer, unless it stops. */
  lemma {:induction false} PlayedAdvances(clip: Extent, table: Table, file: int -> real, out: seq<real>, at: int, frame: int)
    requires clip.Valid() && WellFormed(clip, table) && 0 <= at <= |out|
    ensures var played := Played(clip, table, file, out, at, frame);
            played.playing ==> frame + |out| - at <= played.playFrame
    decreases |out| - at
  {
    hide Played;
    PlayedEnds(clip, table, file, out, at, frame);
    if at < |out| && frame < clip.FileEnd() {
      var here := SlotAt(table, frame);
      var later := SlotAfter(table, frame, frame + |out| - at);
      if Playable(here) || Playable(later) {
        var (slot, at', frame') :=
          if Playable(here) then (here, at, frame) else (later, at + later.start - frame, later.start);
        var copied := Min(|out| - at', slot.End() - frame');
        PlayedCopies(clip, table, file, out, at, frame, slot, at', frame', copied);
        PlayedAdvances(clip, table, file, Mixed(out, at', file, frame', copied), at' + copied, frame' + copied);
      }
    }
  }

  /** A clip takes a request if and only if there is one and some frame is still to be read. */
  lemma RequestTaken(clip: Extent, state: State, playHead: int, requests: nat)
    requires clip.Valid() && WellFormed(clip, state.table)
    ensures var left := ReadOne(clip, state, playHead, requests).1;
            left == if requests > 0 && NeedsRead(clip, state.table, playHead) then requests - 1 else requests
  {
    hide NeedsRead, WellFormed, AfterReadAhead;
    StartedIfNeeded(clip, state.table, playHead, requests > 0);
  }

  lemma ReadOneGood(clip: Extent, state: State, playHead: int, requests: nat)
    requires Good(clip, state, playHead)
    ensures var (state', requests') := ReadOne(clip, state, playHead, requests);
            && Good(clip, state', playHead)
            && (clip.End() <= playHead ==> requests' == requests)
            && (playHead + clip.window < clip.start ==> state' == state && requests' == requests)
  {
  }

  lemma RunOneGood(clip: Extent, file: int -> real, state: State, playHead: int, arrival: (bool, bool), out: seq<real>)
    requires Good(clip, state, playHead) && |out| <= clip.window
    ensures var (state', out') := RunOne(clip, file, state, playHead, arrival, out);
            && Good(clip, state', playHead + |out|)
            && (clip.End() <= playHead ==> out' == out)
            && (playHead + clip.window < clip.start ==> state' == state && out' == out)
  {
    hide Played;
    if state.playing || clip.start <= playHead + |out| {
      var table := AfterCompletion(state.table, arrival.0, arrival.1);
      var at := if state.playing || playHead > clip.start then 0 else clip.start - playHead;
      var frame := if state.playing then state.playFrame else clip.fileStart + Max(playHead - clip.start, 0);
      PlayedAdvances(clip, table, file, out, at, frame);
      PlayedEnds(clip, table, file, out, at, frame);
    }
  }

  /** Clips before `split` have been through the current buffer, the others have not. */
  ghost predicate AllGood(line: Line, states: seq<State>, playHead: int, size: nat, split: nat) {
    && Tables(line, states) && size <= line.window
    && forall k :: 0 <= k < |states| ==>
         Good(line.clips[k], states[k], if k < split then playHead + size else playHead)
  }

  ghost predicate SameFrom(naive: seq<State>, walked: seq<State>, first: nat) {
    |naive| == |walked| && forall k :: first <= k < |naive| ==> naive[k] == walked[k]
  }

  /** Visiting clips that have ended neither sounds nor takes a request. */
  lemma {:induction false} EndedAreSilent(line: Line, walk: Walk, playHead: int, buffer: Buffer, i: nat, first: nat)
      returns (states: seq<State>)
    requires line.Valid() && Sized(line, walk.states, buffer) && i <= first <= |line.clips|
    requires AllGood(line, walk.states, playHead, |walk.out|, i)
    requires forall k :: 0 <= k < first ==> line.clips[k].End() <= playHead
    ensures Sized(line, states, buffer) && AllGood(line, states, playHead, |walk.out|, first)
    ensures SameFrom(states, walk.states, first)
    ensures RunAll(line, walk, playHead, buffer, i) == RunAll(line, walk.(states := states), playHead, buffer, first)
    decreases first - i
  {
    hide ReadOne, RunOne, Good, WellFormed;
    states := walk.states;
    if i < first {
      ReadOneGood(line.clips[i], walk.states[i], playHead, walk.requests);
      var (read, requests) := ReadOne(line.clips[i], walk.states[i], playHead, walk.requests);
      RunOneGood(line.clips[i], line.files[i], read, playHead, buffer.arrivals[i], walk.out);
      var (state, out) := RunOne(line.clips[i], line.files[i], read, playHead, buffer.arrivals[i], walk.out);
      states := EndedAreSilent(line, Walk(walk.states[i := state], out, requests), playHead, buffer, i + 1, first);
    }
  }

  /** Visiting clips that are still out of reach changes nothing at all. */
  lemma {:induction false} FarAreIdle(line: Line, walk: Walk, playHead: int, buffer: Buffer, i: nat)
    requires line.Valid() && Sized(line, walk.states, buffer) && i < |line.clips|
    requires AllGood(line, walk.states, playHead, |walk.out|, i)
    requires playHead + line.window < line.clips[i].start
    ensures RunAll(line, walk, playHead, buffer, i) == walk
    ensures AllGood(line, walk.states, playHead, |walk.out|, |line.clips|)
    decreases |line.clips| - i
  {
    hide ReadOne, RunOne, Good, WellFormed;
    ReadOneGood(line.clips[i], walk.states[i], playHead, walk.requests);
    RunOneGood(line.clips[i], line.files[i], walk.states[i], playHead, buffer.arrivals[i], walk.out);
    assert walk.states[i := walk.states[i]] == walk.states;
    if i + 1 < |line.clips| {
      assert line.clips[i].start <= line.clips[i].End() <= line.clips[i + 1].start;
      FarAreIdle(line, walk, playHead, buffer, i + 1);
    }
  }

  /** From the first clip that has not ended, the two walks stay together until the end. */
  lemma {:induction false} SameWalk(line: Line, naive: Walk, walked: Walk, playHead: int, buffer: Buffer, i: nat, first: nat)
    requires line.Valid() && Sized(line, naive.states, buffer) && Sized(line, walked.states, buffer)
    requires first <= i <= |line.clips|
    requires AllGood(line, naive.states, playHead, |naive.out|, i)
    requires SameFrom(naive.states, walked.states, first)
    requires naive.out == walked.out && naive.requests == walked.requests
    requires forall k :: 0 <= k < first ==> line.clips[k].End() <= playHead
    ensures var all := RunAll(line, naive, playHead, buffer, i);
            var (some, first') := RunSome(line, walked, playHead, buffer, i, first);
            && all.out == some.out && all.requests == some.requests
            && first' <= |line.clips| && SameFrom(all.states, some.states, first')
            && AllGood(line, all.states, playHead, |naive.out|, |line.clips|)
            && forall k :: 0 <= k < first' ==> line.clips[k].End() <= playHead
    decreases |line.clips| - i
  {
    hide ReadOne, RunOne, Good, WellFormed;
    if i < |line.clips| {
      ReadOneGood(line.clips[i], naive.states[i], playHead, naive.requests);
      var (read, requests) := ReadOne(line.clips[i], naive.states[i], playHead, naive.requests);
      var first' := if playHead > line.clips[i].End() then i + 1 else first;
      assert forall k :: 0 <= k < first' ==> line.clips[k].End() <= line.clips[i].End();
      if playHead + line.window < line.clips[i].start {
        FarAreIdle(line, naive, playHead, buffer, i);
        assert walked.states[i := walked.states[i]] == walked.states;
      } else {
        RunOneGood(line.clips[i], line.files[i], read, playHead, buffer.arrivals[i], naive.out);
        var (state, out) := RunOne(line.clips[i], line.files[i], read, playHead, buffer.arrivals[i], naive.out);
        SameWalk(line, Walk(naive.states[i := state], out, requests), Walk(walked.states[i := state], out, requests),
                 playHead, buffer, i + 1, first');
      }
    }
  }

  /** One buffer: same sound, same requests, and the two states still agree. */
  lemma SameBuffer(line: Line, naive: seq<State>, walked: seq<State>, first: nat, playHead: int, buffer: Buffer)
    requires line.Valid() && Sized(line, naive, buffer) && Sized(line, walked, buffer)
    requires AllGood(line, naive, playHead, |buffer.out|, 0)
    requires first <= |line.clips| && SameFrom(naive, walked, first)
    requires forall k :: 0 <= k < first ==> line.clips[k].End() <= playHead
    ensures var all := RunAll(line, Walk(naive, buffer.out, buffer.requests), playHead, buffer, 0);
            var (some, first') := RunSome(line, Walk(walked, buffer.out, buffer.requests), playHead, buffer, first, first);
            && all.out == some.out && all.requests == some.requests
            && first' <= |line.clips| && SameFrom(all.states, some.states, first')
            && AllGood(line, all.states, playHead, |buffer.out|, |line.clips|)
            && forall k :: 0 <= k < first' ==> line.clips[k].End() <= playHead
  {
    var skipped := EndedAreSilent(line, Walk(naive, buffer.out, buffer.requests), playHead, buffer, 0, first);
    SameWalk(line, Walk(skipped, buffer.out, buffer.requests), Walk(walked, buffer.out, buffer.requests),
             playHead, buffer, first, first);
  }

  // ---------------------------------------------------------------- whole runs

  ghost predicate Fits(line: Line, size: nat, buffers: seq<Buffer>) {
    && line.Valid() && size <= line.window
    && forall k :: 0 <= k < |buffers| ==> |buffers[k].arrivals| == |line.clips| && |buffers[k].out| == size
  }

  /** The buffers, and the requests left after each, when every clip is visited every time. */
  function Naive(line: Line, states: seq<State>, playHead: int, size: nat, buffers: seq<Buffer>): seq<(seq<real>, nat)>
    requires Fits(line, size, buffers) && Tables(line, states)
    decreases |buffers|
  {
    if buffers == [] then []
    else
      var walk := RunAll(line, Walk(states, buffers[0].out, buffers[0].requests), playHead, buffers[0], 0);
      [(walk.out, walk.requests)] + Naive(line, walk.states, playHead + size, size, buffers[1..])
  }

  /** The same for the walk of `Playlist.Run`, which starts at `first`. */
  function Windowed(line: Line, states: seq<State>, first: nat, playHead: int, size: nat, buffers: seq<Buffer>)
    : seq<(seq<real>, nat)>
    requires Fits(line, size, buffers) && Tables(line, states) && first <= |line.clips|
    decreases |buffers|
  {
    if buffers == [] then []
    else
      var (walk, first') := RunSome(line, Walk(states, buffers[0].out, buffers[0].requests), playHead, buffers[0], first, first);
      [(walk.out, walk.requests)] + Windowed(line, walk.states, first', playHead + size, size, buffers[1..])
  }

  lemma {:induction false} SameRun(line: Line, naive: seq<State>, walked: seq<State>, first: nat, playHead: int, size: nat,
                                   buffers: seq<Buffer>)
    requires Fits(line, size, buffers) && Tables(line, naive) && Tables(line, walked)
    requires AllGood(line, naive, playHead, size, 0)
    requires first <= |line.clips| && SameFrom(naive, walked, first)
    requires forall k :: 0 <= k < first ==> line.clips[k].End() <= playHead
    ensures Naive(line, naive, playHead, size, buffers) == Windowed(line, walked, first, playHead, size, buffers)
    decreases |buffers|
  {
    hide RunAll, RunSome, Good, WellFormed;
    if buffers != [] {
      var buffer := buffers[0];
      SameBuffer(line, naive, walked, first, playHead, buffer);
      var all := RunAll(line, Walk(naive, buffer.out, buffer.requests), playHead, buffer, 0);
      var (some, first') := RunSome(line, Walk(walked, buffer.out, buffer.requests), playHead, buffer, first, first);
      assert AllGood(line, all.states, playHead + size, size, 0);
      SameRun(line, all.states, some.states, first', playHead + size, size, buffers[1..]);
    }
  }

  /** `PrepareToPlay` puts every clip in the state that a forward run starts from. */
  lemma PreparedOneIsGood(clip: Extent, state: State, playHead: int, requests: nat)
    requires clip.Valid() && WellFormed(clip, state.table) && !state.playing
    ensures Good(clip, ReadOne(clip, state, playHead, requests).0, playHead)
  {
  }

  lemma {:induction false} PreparedIsGood(line: Line, walk: Walk, playHead: int, i: nat)
    requires line.Valid() && Tables(line, walk.states) && i <= |line.clips|
    requires forall k :: 0 <= k < i ==> Good(line.clips[k], walk.states[k], playHead)
    ensures var prepared := Prepared(line, walk, playHead, i).states;
            |prepared| == |line.clips| && forall k :: 0 <= k < |prepared| ==> Good(line.clips[k], prepared[k], playHead)
    decreases |line.clips| - i
  {
    hide ReadOne, Good, WellFormed;
    if i < |line.clips| {
      var stopped := walk.states[i].(playing := false, playFrame := line.clips[i].PlayFrame(playHead));
      PreparedOneIsGood(line.clips[i], stopped, playHead, walk.requests);
      var (read, requests) := ReadOne(line.clips[i], stopped, playHead, walk.requests);
      PreparedIsGood(line, Walk(walk.states[i := read], walk.out, requests), playHead, i + 1);
    }
  }

  /**
    After `PrepareToPlay` at any position, whatever state the clips were left in, the
    walk that skips ended clips and stops early gives the same buffers, and uses the
    same requests, as running every clip in every buffer.
   */
  lemma WalkIsFaithful(line: Line, states: seq<State>, requests: nat, playHead: int, size: nat, buffers: seq<Buffer>)
    requires Fits(line, size, buffers) && Tables(line, states)
    ensures var prepared := Prepared(line, Walk(states, [], requests), playHead, 0).states;
            Naive(line, prepared, playHead, size, buffers)
            == Windowed(line, prepared, FirstPlaying(line, playHead), playHead, size, buffers)
  {
    PreparedIsGood(line, Walk(states, [], requests), playHead, 0);
    var prepared := Prepared(line, Walk(states, [], requests), playHead, 0).states;
    SameRun(line, prepared, prepared, FirstPlaying(line, playHead), playHead, size, buffers);
  }
}
