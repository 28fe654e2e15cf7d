/**
  A clip plays an extent of an audio file at a place on the timeline.  While the
  transport moves, the clip keeps at most two reads of that file: `ReadAhead`
  drops the reads that are no longer useful and asks for the next one, and
  `Run` stitches the reads into the output buffer.

  All positions are whole frames; the file and the engine share one sample rate.
  A read is an interval of the file and a flag that says its data has arrived.
 */
module Clips {
  import opened Wrappers

  /** One entry of the clip's table of reads. */
  datatype Slot = Empty | Filled(start: int, frames: int, playable: bool)
  {
    predicate Contains(frame: int) {
      Filled? && start <= frame < start + frames
    }

    function End(): int
      requires Filled?
    {
      start + frames
    }
  }

  /**
    The part of a clip that does not change during playback: where it sits on the
    timeline (`start`), which frames of the file it plays, and how far the engine
    reads ahead (`window`, the read-ahead seconds times the sample rate).
   */
  datatype Extent = Extent(start: int, fileStart: int, length: int, window: int)
  {
    ghost predicate Valid() {
      0 <= fileStart && 0 <= length && 0 < window
    }

    function FileEnd(): int {
      fileStart + length
    }

    /** The file frame that sounds when the play head is at `playHead`. */
    function PlayFrame(playHead: int): int {
      playHead - start + fileStart
    }

    /** Just past the clip on the timeline. */
    function End(): int {
      start + length
    }
  }

  /** The clip's table of reads. */
  datatype Table = Table(first: Slot, second: Slot)
  {
    /** No read is empty; `ReadAhead` never asks for an empty one. */
    predicate HasFrames() {
      (first.Filled? ==> first.frames > 0) && (second.Filled? ==> second.frames > 0)
    }
  }

  datatype State = State(table: Table, playing: bool, playFrame: int)

  const Fresh := State(Table(Empty, Empty), false, 0)

  // ---------------------------------------------------------------- reading ahead

  datatype Outcome = NothingToRead | Started | SlotOverflow | RequestsExhausted

  predicate Unneeded(slot: Slot, next: int, readAheadPoint: int) {
    slot.Filled? && (next >= slot.End() || slot.start > readAheadPoint)
  }

  function Keep(slot: Slot, next: int, readAheadPoint: int): Slot {
    if Unneeded(slot, next, readAheadPoint) then Empty else slot
  }

  function LastFrame(slot: Slot): int {
    if slot.Filled? && slot.End() - 1 > -1 then slot.End() - 1 else -1
  }

  function Max(a: int, b: int): int {
    if a >= b then a else b
  }

  function Min(a: int, b: int): int {
    if a <= b then a else b
  }

  /** The table after the reads that are no longer needed have been disposed. */
  function Disposed(clip: Extent, table: Table, playHead: int): Table {
    var next := clip.PlayFrame(playHead);
    var point := next + clip.window;
    Table(Keep(table.first, next, point), Keep(table.second, next, point))
  }

  /** The interval `ReadAhead` wants to request, given the reads that were kept. */
  function WantedRead(clip: Extent, kept: Table, playHead: int): Option<(int, int)> {
    var next := clip.PlayFrame(playHead);
    var point := next + clip.window;
    var last := Max(LastFrame(kept.first), LastFrame(kept.second));
    var readStart := if last < 0 then Max(next, clip.fileStart) else last + 1;
    if point >= clip.fileStart && last < point && readStart < clip.FileEnd() then
      Some((readStart, Min(clip.window, clip.FileEnd() - readStart)))
    else
      None
  }

  /** Puts a new, not yet playable, read in the first empty slot. */
  function AfterStartRead(table: Table, wanted: (int, int), haveRequest: bool): (Table, Outcome) {
    if table.first.Filled? && table.second.Filled? then (table, SlotOverflow)
    else if !haveRequest then (table, RequestsExhausted)
    else if table.first.Empty? then (table.(first := Filled(wanted.0, wanted.1, false)), Started)
    else (table.(second := Filled(wanted.0, wanted.1, false)), Started)
  }

  function AfterReadAhead(clip: Extent, table: Table, playHead: int, haveRequest: bool): (Table, Outcome) {
    var kept := Disposed(clip, table, playHead);
    match WantedRead(clip, kept, playHead)
    case None => (kept, NothingToRead)
    case Some(wanted) => AfterStartRead(kept, wanted, haveRequest)
  }

  /** The file data for the chosen reads arrives. */
  function AfterCompletion(table: Table, first: bool, second: bool): Table {
    Table(if table.first.Filled? then table.first.(playable := table.first.playable || first) else Empty,
    if table.second.Filled? then table.second.(playable := table.second.playable || second) else Empty)
  }

  // ---------------------------------------------------------------- playing

  /** `out` with `count` frames of the file, from `fileFrame` on, added at index `at`. */
  function Mixed(out: seq<real>, at: int, file: int -> real, fileFrame: int, count: int): (mixed: seq<real>)
    requires 0 <= at && 0 <= count && at + count <= |out|
    ensures |mixed| == |out|
  {
    seq(|out|, j requires 0 <= j < |out| =>
      if at <= j < at + count then out[j] + file(fileFrame + (j - at)) else out[j])
  }

  function SlotAt(table: Table, frame: int): Slot {
    if table.first.Contains(frame) then table.first
    else if table.second.Contains(frame) then table.second
    else Empty
  }

  predicate StartsWithin(slot: Slot, frame: int, bufferEnd: int) {
    slot.Filled? && slot.start > frame && slot.End() < bufferEnd
  }

  /** Where playback skips to when the wanted read is missing. */
  function SlotAfter(table: Table, frame: int, bufferEnd: int): Slot {
    if StartsWithin(table.first, frame, bufferEnd) then table.first
    else if StartsWithin(table.second, frame, bufferEnd) then table.second
    else Empty
  }

  predicate Playable(slot: Slot) {
    slot.Filled? && slot.playable
  }

  datatype Playback = Playback(out: seq<real>, playing: bool, playFrame: int, missed: bool)

  /** The copying loop of `Run`, from output index `at` and file frame `frame` on. */
  function Played(clip: Extent, table: Table, file: int -> real, out: seq<real>, at: int, frame: int): (result: Playback)
    requires 0 <= at && table.HasFrames()
    ensures |result.out| == |out|
    decreases |out| - at
  {
    if at >= |out| then Playback(out, true, frame, false)
    else if frame >= clip.FileEnd() then Playback(out, false, frame, false)
    else
      var slot := SlotAt(table, frame);
      if Playable(slot) then
        var count := Min(|out| - at, slot.End() - frame);
        Played(clip, table, file, Mixed(out, at, file, frame, count), at + count, frame + count)
      else
        var later := SlotAfter(table, frame, frame + |out| - at);
        if Playable(later) then
          var at' := at + later.start - frame;
          var count := Min(|out| - at', later.frames);
          Played(clip, table, file, Mixed(out, at', file, later.start, count), at' + count, later.start + count)
          .(missed := true)
        else
          Playback(out, true, (if later.Filled? then later.start else frame) + |out|, true)
  }

  /** What is copied is not nothing, and fits. */
  lemma CopyFits(table: Table, out: seq<real>, at: int, frame: int, slot: Slot, at': int, frame': int)
    requires table.HasFrames() && 0 <= at < |out| && Playable(slot)
    requires var here := SlotAt(table, frame);
             if Playable(here) then slot == here && at' == at && frame' == frame
             else slot == SlotAfter(table, frame, frame + |out| - at) && at' == at + slot.start - frame && frame' == slot.start
    ensures at <= at' < |out| && frame' < slot.End() && (frame' == slot.start ==> slot.End() - frame' == slot.frames)
  {
  }

  /** Unfolds one iteration of the copying loop that copies something. */
  lemma PlayedCopies(clip: Extent, table: Table, file: int -> real, out: seq<real>, at: int, frame: int,
                     slot: Slot, at': int, frame': int, count: int)
    requires table.HasFrames() && 0 <= at < |out| && frame < clip.FileEnd() && Playable(slot)
    requires var here := SlotAt(table, frame);
             if Playable(here) then slot == here && at' == at && frame' == frame
             else slot == SlotAfter(table, frame, frame + |out| - at) && at' == at + slot.start - frame && frame' == slot.start
    requires count == Min(|out| - at', slot.End() - frame')
    ensures 0 <= at' && 0 < count && at' + count <= |out|
    ensures var whole := Played(clip, table, file, out, at, frame);
            var rest := Played(clip, table, file, Mixed(out, at', file, frame', count), at' + count, frame' + count);
            whole.(missed := rest.missed) == rest && (whole.missed <==> rest.missed || !Playable(SlotAt(table, frame)))
  {
    CopyFits(table, out, at, frame, slot, at', frame');
    hide SlotAt, SlotAfter, Mixed, Table.HasFrames;
  }

  /** The ways the copying loop ends. */
  lemma PlayedEnds(clip: Extent, table: Table, file: int -> real, out: seq<real>, at: int, frame: int)
    requires table.HasFrames() && 0 <= at
    ensures var whole := Played(clip, table, file, out, at, frame);
            && (at >= |out| ==> whole == Playback(out, true, frame, false))
            && (at < |out| && frame >= clip.FileEnd() ==> whole == Playback(out, false, frame, false))
            && (at < |out| && frame < clip.FileEnd() && !Playable(SlotAt(table, frame)) ==>
                  var later := SlotAfter(table, frame, frame + |out| - at);
                  !Playable(later) ==>
                    whole == Playback(out, true, (if later.Filled? then later.start else frame) + |out|, true))
  {
  }

  /** One call of `Run`: the new state and what `out` becomes. */
  function AfterRun(clip: Extent, state: State, file: int -> real, playHead: int, out: seq<real>)
    : (result: (State, seq<real>))
    requires state.table.HasFrames()
    ensures |result.1| == |out|
  {
    if !state.playing && playHead + |out| < clip.start then
      (state, out)
    else
      var at := if state.playing || playHead > clip.start then 0 else clip.start - playHead;
      var frame := if state.playing then state.playFrame else clip.fileStart + Max(playHead - clip.start, 0);
      var played := Played(clip, state.table, file, out, at, frame);
      (State(state.table, played.playing, played.playFrame), played.out)
  }

  // ---------------------------------------------------------------- the clip object

  class Clip {
    const extent: Extent
    const file: int -> real
    const slots: array<Slot>
    var playing: bool
    var playFrame: int

    ghost predicate Valid()
      reads this, slots
    {
      slots.Length == 2 && extent.Valid() && Reads().HasFrames()
    }

    function Reads(): Table
      reads this, slots
      requires slots.Length == 2
    {
      Table(slots[0], slots[1])
    }

    function Contents(): State
      reads this, slots
      requires slots.Length == 2
    {
      State(Reads(), playing, playFrame)
    }

    constructor (extent: Extent, file: int -> real)
      requires extent.Valid()
      ensures Valid() && fresh(slots) && this.extent == extent && this.file == file
      ensures Contents() == Fresh
    {
      this.extent := extent;
      this.file := file;
      playing, playFrame := false, 0;
      slots := new Slot[2](_ => Empty);
    }

    method StartRead(startFrame: int, frames: int, haveRequest: bool) returns (outcome: Outcome)
      requires Valid() && 0 < frames
      modifies slots
      ensures Valid()
      ensures (Reads(), outcome) == AfterStartRead(old(Reads()), (startFrame, frames), haveRequest)
    {
      var i := 0;
      while i < 2 && slots[i] != Empty
        invariant 0 <= i <= 2 && (i > 0 ==> slots[0].Filled?) && (i > 1 ==> slots[1].Filled?)
      {
        i := i + 1;
      }
      if i >= 2 {
        return SlotOverflow;
      }
      if !haveRequest {
        return RequestsExhausted;
      }
      slots[i] := Filled(startFrame, frames, false);
      outcome := Started;
    }

    method ReadAhead(playHead: int, haveRequest: bool) returns (outcome: Outcome)
      requires Valid()
      modifies slots
      ensures Valid()
      ensures (Reads(), outcome) == AfterReadAhead(extent, old(Reads()), playHead, haveRequest)
    {
      var next := extent.PlayFrame(playHead);
      var readAheadPoint := next + extent.window;
      var last := -1;
      ghost var kept := Disposed(extent, Reads(), playHead);
      for i := 0 to 2
        invariant i == 0 ==> last == -1 && slots[0] == old(slots[0]) && slots[1] == old(slots[1])
        invariant i == 1 ==> last == LastFrame(slots[0]) && slots[0] == kept.first && slots[1] == old(slots[1])
        invariant i == 2 ==> last == Max(LastFrame(slots[0]), LastFrame(slots[1])) && Reads() == kept
      {
        if slots[i].Filled? {
          if next >= slots[i].End() || slots[i].start > readAheadPoint {
            slots[i] := Empty;
          } else if slots[i].End() - 1 > last {
            last := slots[i].End() - 1;
          }
        }
      }
      outcome := NothingToRead;
      if readAheadPoint >= extent.fileStart && last < readAheadPoint {
        var readStart := last + 1;
        if last < 0 {
          readStart := next;
          if readStart < extent.fileStart {
            readStart := extent.fileStart;
          }
        }
        if readStart < extent.FileEnd() {
          var frames := extent.window;
          if frames > extent.FileEnd() - readStart {
            frames := extent.FileEnd() - readStart;
          }
          outcome := StartRead(readStart, frames, haveRequest);
        }
      }
    }

    method PrepareToPlay(playHead: int, haveRequest: bool) returns (outcome: Outcome)
      requires Valid()
      modifies this, slots
      ensures Valid()
      ensures (Reads(), outcome) == AfterReadAhead(extent, old(Reads()), playHead, haveRequest)
      ensures !playing && playFrame == extent.PlayFrame(playHead)
    {
      playing := false;
      playFrame := extent.PlayFrame(playHead);
      outcome := ReadAhead(playHead, haveRequest);
    }

    /** Adds `count` frames of the file to `out`, from index `at` on. */
    method PlayIntoBuffer(out: array<real>, at: int, fileFrame: int, count: int)
      requires 0 <= at && 0 <= count && at + count <= out.Length
      modifies out
      ensures out[..] == Mixed(old(out[..]), at, file, fileFrame, count)
    {
      for i := 0 to count
        invariant out[..] == Mixed(old(out[..]), at, file, fileFrame, i)
      {
        out[at + i] := out[at + i] + file(fileFrame + i);
      }
    }

    /** The index of the read that holds `frame`, or -1. */
    method FindRead(frame: int) returns (which: int)
      requires Valid()
      ensures -1 <= which < 2 && (which >= 0 ==> slots[which].Filled?)
      ensures (if which < 0 then Empty else slots[which]) == SlotAt(Reads(), frame)
    {
      which := -1;
      if slots[0].Contains(frame) {
        which := 0;
      } else if slots[1].Contains(frame) {
        which := 1;
      }
    }

    /** The index of the read to skip to when `frame` is missing, or -1. */
    method FindLaterRead(frame: int, bufferEnd: int) returns (which: int)
      requires Valid()
      ensures -1 <= which < 2 && (which >= 0 ==> slots[which].Filled?)
      ensures (if which < 0 then Empty else slots[which]) == SlotAfter(Reads(), frame, bufferEnd)
    {
      which := -1;
      if StartsWithin(slots[0], frame, bufferEnd) {
        which := 0;
      } else if StartsWithin(slots[1], frame, bufferEnd) {
        which := 1;
      }
    }

    /**
      The read to copy from next, skipping over frames that were not read in time:
      `at'` and the new `playFrame` say where the copy goes on.  `which` is -1, and
      `playFrame` has moved by a whole buffer, when there is nothing to copy.
     */
    method NextRead(at: int, size: int) returns (which: int, at': int)
      requires Valid() && 0 <= at < size
      modifies this`playFrame
      ensures -1 <= which < 2 && (which >= 0 ==> Playable(slots[which]))
      ensures var frame := old(playFrame);
              var slot := SlotAt(Reads(), frame);
              var later := SlotAfter(Reads(), frame, frame + size - at);
              if Playable(slot) then which >= 0 && slots[which] == slot && at' == at && playFrame == frame
              else if Playable(later) then
                which >= 0 && slots[which] == later && at' == at + later.start - frame && playFrame == later.start
              else which < 0 && playFrame == (if later.Filled? then later.start else frame) + size
    {
      at' := at;
      which := FindRead(playFrame);
      if which < 0 || !slots[which].playable {
        which := FindLaterRead(playFrame, playFrame + size - at);
        if which >= 0 {
          at', playFrame := at + slots[which].start - playFrame, slots[which].start;
        }
        if which < 0 || !slots[which].playable {
          playFrame := playFrame + size;
          which := -1;
        }
      }
    }

    /** The copying loop of `Run`, from output index `start` and file frame `playFrame` on. */
    method CopyFrames(out: array<real>, start: int)
      requires Valid() && 0 <= start && playing
      modifies this, out
      ensures Valid()
      ensures var played := Played(extent, old(Reads()), file, old(out[..]), start, old(playFrame));
              out[..] == played.out && playing == played.playing && playFrame == played.playFrame
    {
      hide Played;
      var at := start;
      ghost var table := Reads();
      ghost var whole := Played(extent, table, file, out[..], at, playFrame);
      while at < out.Length
        invariant Valid() && 0 <= at && playing && Reads() == table
        invariant var rest := Played(extent, table, file, out[..], at, playFrame);
                  whole.out == rest.out && whole.playing == rest.playing && whole.playFrame == rest.playFrame
        decreases out.Length - at
      {
        PlayedEnds(extent, table, file, out[..], at, playFrame);
        if playFrame >= extent.FileEnd() {
          playing := false;
          return;
        }
        ghost var before, frame := at, playFrame;
        var which;
        which, at := NextRead(at, out.Length);
        if which < 0 {
          return;
        }
        var count := Min(out.Length - at, slots[which].End() - playFrame);
        PlayedCopies(extent, table, file, out[..], before, frame, slots[which], at, playFrame, count);
        ghost var mixed := Mixed(out[..], at, file, playFrame, count);
        PlayIntoBuffer(out, at, playFrame, count);
        playFrame := playFrame + count;
        at := at + count;
        assert out[..] == mixed;
      }
      PlayedEnds(extent, table, file, out[..], at, playFrame);
    }

    method Run(out: array<real>, playHead: int)
      requires Valid()
      modifies this, out
      ensures Valid()
      ensures (Contents(), out[..]) == AfterRun(extent, old(Contents()), file, playHead, old(out[..]))
    {
      var at := 0;
      if !playing {
        if playHead + out.Length < extent.start {
          return;
        }
        if playHead > extent.start {
          playFrame := extent.fileStart + playHead - extent.start;
        } else {
          playFrame := extent.fileStart;
          at := extent.start - playHead;
        }
        playing := true;
      }
      CopyFrames(out, at);
    }
  }
}
