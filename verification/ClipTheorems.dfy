/**
  What the clip scheduler achieves: the table of reads never overflows whatever the
  play head does, the frames about to be played are covered exactly when no kept
  read starts after the play position, and uninterrupted playback is the file itself.
 */
module ClipTheorems {
  import opened Clips
  import opened Wrappers

  // ---------------------------------------------------------------- the table of reads

  ghost predicate WellFormedSlot(clip: Extent, slot: Slot) {
    slot.Filled? ==>
      && clip.fileStart <= slot.start && 0 < slot.frames <= clip.window && slot.End() <= clip.FileEnd()
      && (slot.frames == clip.window || slot.End() == clip.FileEnd())
  }

  /**
    Reads lie in the clip, are a whole window long unless they end at its end, and
    the second of two reads starts where the first one ends.
   */
  ghost predicate WellFormed(clip: Extent, table: Table) {
    && WellFormedSlot(clip, table.first) && WellFormedSlot(clip, table.second)
    && (table.first.Filled? && table.second.Filled? ==>
          table.first.End() == table.second.start || table.second.End() == table.first.start)
  }

  /** Everything that can happen to a clip, with a play head that moves freely. */
  datatype Event =
    | PrepareToPlay(playHead: int, haveRequest: bool)
    | ReadAhead(playHead: int, haveRequest: bool)
    | Complete(first: bool, second: bool)
    | Run(playHead: int, out: seq<real>)

  function After(clip: Extent, file: int -> real, state: State, event: Event): (State, Outcome)
    requires state.table.HasFrames()
  {
    match event
    case PrepareToPlay(playHead, haveRequest) =>
      var (table, outcome) := AfterReadAhead(clip, state.table, playHead, haveRequest);
      (State(table, false, clip.PlayFrame(playHead)), outcome)
    case ReadAhead(playHead, haveRequest) =>
      var (table, outcome) := AfterReadAhead(clip, state.table, playHead, haveRequest);
      (state.(table := table), outcome)
    case Complete(first, second) =>
      (state.(table := AfterCompletion(state.table, first, second)), NothingToRead)
    case Run(playHead, out) =>
      (AfterRun(clip, state, file, playHead, out).0, NothingToRead)
  }

  /** `states` and `outcomes` record one run of the clip over `events`. */
  ghost predicate IsHistory(clip: Extent, file: int -> real, events: seq<Event>, states: seq<State>, outcomes: seq<Outcome>) {
    && |states| == |events| + 1 && |outcomes| == |events|
    && states[0] == Fresh
    && forall i :: 0 <= i < |events| ==>
         states[i].table.HasFrames() && After(clip, file, states[i], events[i]) == (states[i + 1], outcomes[i])
  }

  lemma ReadAheadKeepsTable(clip: Extent, table: Table, playHead: int, haveRequest: bool)
    requires clip.Valid() && WellFormed(clip, table)
    ensures var (table', outcome) := AfterReadAhead(clip, table, playHead, haveRequest);
            WellFormed(clip, table') && outcome != SlotOverflow
  {
  }

  lemma EventKeepsTable(clip: Extent, file: int -> real, state: State, event: Event)
    requires clip.Valid() && WellFormed(clip, state.table) && state.table.HasFrames()
    ensures var (state', outcome) := After(clip, file, state, event);
            WellFormed(clip, state'.table) && outcome != SlotOverflow
  {
    hide AfterReadAhead, Played;
    match event
    case PrepareToPlay(playHead, haveRequest) => ReadAheadKeepsTable(clip, state.table, playHead, haveRequest);
    case ReadAhead(playHead, haveRequest) => ReadAheadKeepsTable(clip, state.table, playHead, haveRequest);
    case Complete(_, _) =>
    case Run(_, _) =>
  }

  /** However the play head moves, no read is ever turned away for want of a slot. */
  lemma {:induction false} NeverOverflows(clip: Extent, file: int -> real, events: seq<Event>, states: seq<State>,
                                          outcomes: seq<Outcome>, n: nat)
    requires clip.Valid() && IsHistory(clip, file, events, states, outcomes)
    requires n < |states|
    ensures WellFormed(clip, states[n].table)
    ensures forall i :: 0 <= i < n ==> outcomes[i] != SlotOverflow
  {
    hide After;
    if n > 0 {
      NeverOverflows(clip, file, events, states, outcomes, n - 1);
      assert After(clip, file, states[n - 1], events[n - 1]) == (states[n], outcomes[n - 1]);
      EventKeepsTable(clip, file, states[n - 1], events[n - 1]);
    }
  }

  // ---------------------------------------------------------------- what is read

  /** A read that still has frames to play and starts within the window. */
  predicate Useful(clip: Extent, slot: Slot, playHead: int) {
    var next := clip.PlayFrame(playHead);
    slot.Filled? && next < slot.start + slot.frames && slot.start <= next + clip.window
  }

  /** A frame of the clip within the window that lies after all reads that start within the window. */
  predicate StillToRead(clip: Extent, table: Table, playHead: int, frame: int) {
    var next := clip.PlayFrame(playHead);
    && next <= frame <= next + clip.window && clip.fileStart <= frame < clip.fileStart + clip.length
    && (Useful(clip, table.first, playHead) ==> table.first.start + table.first.frames <= frame)
    && (Useful(clip, table.second, playHead) ==> table.second.start + table.second.frames <= frame)
  }

  ghost predicate NeedsRead(clip: Extent, table: Table, playHead: int) {
    exists frame :: StillToRead(clip, table, playHead, frame)
  }

  /** The first frame still to be read is where the useful reads end, or else where the clip sounds first. */
  function FirstToRead(clip: Extent, table: Table, playHead: int): int {
    var first := if Useful(clip, table.first, playHead) then table.first.End() else Max(clip.PlayFrame(playHead), clip.fileStart);
    if Useful(clip, table.second, playHead) then Max(first, table.second.End()) else first
  }

  lemma FirstIsFirst(clip: Extent, table: Table, playHead: int)
    requires clip.Valid() && WellFormed(clip, table)
    ensures NeedsRead(clip, table, playHead) <==> StillToRead(clip, table, playHead, FirstToRead(clip, table, playHead))
    ensures forall frame :: StillToRead(clip, table, playHead, frame) ==> FirstToRead(clip, table, playHead) <= frame
  {
  }

  /**
    When a read is started, refused or not needed.  With a request free, one is started if
    and only if some frame is still to be read; without one, it is refused just then.
   */
  lemma StartedIfNeeded(clip: Extent, table: Table, playHead: int, haveRequest: bool)
    requires clip.Valid() && WellFormed(clip, table)
    ensures var outcome := AfterReadAhead(clip, table, playHead, haveRequest).1;
            && (outcome == Started <==> haveRequest && NeedsRead(clip, table, playHead))
            && (outcome == RequestsExhausted <==> !haveRequest && NeedsRead(clip, table, playHead))
            && (outcome == NothingToRead <==> !NeedsRead(clip, table, playHead))
  {
    FirstIsFirst(clip, table, playHead);
    hide NeedsRead, WellFormed;
    WantedIsNeeded(clip, table, playHead);
    if NeedsRead(clip, table, playHead) {
      NoSlotIsMissing(clip, table, playHead);
    }
  }

  lemma WantedIsNeeded(clip: Extent, table: Table, playHead: int)
    requires clip.Valid() && WellFormed(clip, table)
    ensures var first := FirstToRead(clip, table, playHead);
            WantedRead(clip, Disposed(clip, table, playHead), playHead)
            == if StillToRead(clip, table, playHead, first) then Some((first, Min(clip.window, clip.FileEnd() - first))) else None
  {
  }

  /** While something is still to be read, at least one of the reads is of no use any more. */
  lemma NoSlotIsMissing(clip: Extent, table: Table, playHead: int)
    requires clip.Valid() && WellFormed(clip, table)
    requires StillToRead(clip, table, playHead, FirstToRead(clip, table, playHead))
    ensures !Useful(clip, table.first, playHead) || !Useful(clip, table.second, playHead)
  {
  }

  /** The reads that stay. */
  function UsefulReads(clip: Extent, table: Table, playHead: int): Table {
    Table(if Useful(clip, table.first, playHead) then table.first else Empty,
    if Useful(clip, table.second, playHead) then table.second else Empty)
  }

  /** A read in the first slot that is left. */
  function Added(table: Table, read: Slot): Table {
    if table.first == Empty then table.(first := read) else table.(second := read)
  }

  /** From the first frame still to be read, for a window or to the end of the clip. */
  function NewRead(clip: Extent, frame: int): Slot {
    Filled(frame, Min(clip.window, clip.fileStart + clip.length - frame), false)
  }

  ghost predicate IsFirstToRead(clip: Extent, table: Table, playHead: int, frame: int) {
    StillToRead(clip, table, playHead, frame) && forall other :: StillToRead(clip, table, playHead, other) ==> frame <= other
  }

  /**
    What a `ReadAhead` does to the slots.  Useful reads stay and others go; the read that is
    started, in the first slot that is left, begins at the first frame still to be read.
   */
  lemma ReadsWhatIsNeeded(clip: Extent, table: Table, playHead: int, haveRequest: bool)
    requires clip.Valid() && WellFormed(clip, table)
    ensures var table' := AfterReadAhead(clip, table, playHead, haveRequest).0;
            var kept := UsefulReads(clip, table, playHead);
            if haveRequest && NeedsRead(clip, table, playHead) then
              exists frame :: IsFirstToRead(clip, table, playHead, frame) && table' == Added(kept, NewRead(clip, frame))
            else table' == kept
  {
    FirstIsFirst(clip, table, playHead);
    var frame := FirstToRead(clip, table, playHead);
    assert NeedsRead(clip, table, playHead) ==> IsFirstToRead(clip, table, playHead, frame);
    hide NeedsRead, WellFormed, StillToRead, FirstToRead, IsFirstToRead;
    WantedIsNeeded(clip, table, playHead);
    assert Disposed(clip, table, playHead) == UsefulReads(clip, table, playHead);
    if NeedsRead(clip, table, playHead) {
      NoSlotIsMissing(clip, table, playHead);
    }
  }

  // ---------------------------------------------------------------- coverage

  ghost predicate Covers(clip: Extent, table: Table, from: int, to: int) {
    forall frame :: from <= frame < to && clip.fileStart <= frame < clip.FileEnd() ==>
      table.first.Contains(frame) || table.second.Contains(frame)
  }

  /**
    A read that will be kept starts after the first frame to play, and no kept read
    reaches back to it.  This is what a short backward seek leads to.
   */
  predicate LeavesGap(clip: Extent, table: Table, playHead: int) {
    var from := Max(clip.PlayFrame(playHead), clip.fileStart);
    && (Useful(clip, table.first, playHead) || Useful(clip, table.second, playHead))
    && (Useful(clip, table.first, playHead) ==> from < table.first.start)
    && (Useful(clip, table.second, playHead) ==> from < table.second.start)
  }

  /** `ReadAhead` is not kept from reading: there is a request, or no need for one. */
  ghost predicate NotRefused(clip: Extent, table: Table, playHead: int, haveRequest: bool) {
    haveRequest || !NeedsRead(clip, table, playHead)
  }

  /**
    After a `ReadAhead` with a request free, or with no frame still to be read, the whole
    window from the play position is covered if and only if no gap is left before the
    useful reads.
   */
  lemma CoveredUnlessGap(clip: Extent, table: Table, playHead: int, haveRequest: bool)
    requires clip.Valid() && WellFormed(clip, table) && NotRefused(clip, table, playHead, haveRequest)
    ensures var next := clip.PlayFrame(playHead);
            var table' := AfterReadAhead(clip, table, playHead, haveRequest).0;
            Covers(clip, table', next, next + clip.window) <==> !LeavesGap(clip, table, playHead)
  {
    StartedIfNeeded(clip, table, playHead, haveRequest);
    hide NeedsRead;
    var next := clip.PlayFrame(playHead);
    var table' := AfterReadAhead(clip, table, playHead, haveRequest).0;
    if LeavesGap(clip, table, playHead) {
      var from := Max(next, clip.fileStart);
      assert !table'.first.Contains(from) && !table'.second.Contains(from);
    }
  }

  /** A seek back by less than a window with a read at the play position: nothing covers the gap. */
  lemma ShortBackwardSeekLeavesGap()
    ensures var clip := Extent(0, 0, 100, 10);
            var (first, _) := AfterReadAhead(clip, Fresh.table, 50, true);
            var (second, outcome) := AfterReadAhead(clip, first, 45, true);
            WellFormed(clip, first) && outcome == NothingToRead && !Covers(clip, second, 45, 55)
  {
    hide AfterReadAhead;
    FirstRead();
    SecondRead();
    assert !OneRead.first.Contains(45) && !OneRead.second.Contains(45);
  }

  const HundredFrames := Extent(0, 0, 100, 10)
  const OneRead := Table(Filled(50, 10, false), Empty)

  lemma FirstRead()
    ensures AfterReadAhead(HundredFrames, Fresh.table, 50, true) == (OneRead, Started)
  {
  }

  lemma SecondRead()
    ensures AfterReadAhead(HundredFrames, OneRead, 45, true) == (OneRead, NothingToRead)
  {
  }

  /** Moving the play head forward never opens a gap. */
  ghost predicate NoGapFrom(clip: Extent, table: Table, playHead: int) {
    forall later :: playHead <= later ==> !LeavesGap(clip, table, later)
  }

  lemma NoGapIsKept(clip: Extent, table: Table, playHead: int, haveRequest: bool)
    requires clip.Valid() && WellFormed(clip, table)
    requires !LeavesGap(clip, table, playHead)
    ensures NoGapFrom(clip, AfterReadAhead(clip, table, playHead, haveRequest).0, playHead)
  {
    ReadAheadKeepsTable(clip, table, playHead, haveRequest);
    var table' := AfterReadAhead(clip, table, playHead, haveRequest).0;
    forall later | playHead <= later
      ensures !LeavesGap(clip, table', later)
    {
    }
  }

  /** Arriving data makes the reads it is for playable, and changes neither the shape of the table nor what it covers. */
  lemma CompletionKeeps(clip: Extent, table: Table, first: bool, second: bool, playHead: int)
    requires clip.Valid() && WellFormed(clip, table)
    ensures var table' := AfterCompletion(table, first, second);
            && WellFormed(clip, table')
            && (Playable(table'.first) <==> Playable(table.first) || (table.first.Filled? && first))
            && (Playable(table'.second) <==> Playable(table.second) || (table.second.Filled? && second))
            && (NoGapFrom(clip, table, playHead) ==> NoGapFrom(clip, table', playHead))
            && forall from, to :: Covers(clip, table, from, to) ==> Covers(clip, table', from, to)
  {
    var table' := AfterCompletion(table, first, second);
    if NoGapFrom(clip, table, playHead) {
      forall later | playHead <= later
        ensures !LeavesGap(clip, table', later)
      {
        assert !LeavesGap(clip, table, later);
      }
    }
    forall from, to | Covers(clip, table, from, to)
      ensures Covers(clip, table', from, to)
    {
      forall frame | from <= frame < to && clip.fileStart <= frame < clip.FileEnd()
        ensures table'.first.Contains(frame) || table'.second.Contains(frame)
      {
        assert table.first.Contains(frame) || table.second.Contains(frame);
      }
    }
  }

  /** The play heads of a history never move backward. */
  ghost predicate MovesForward(events: seq<Event>) {
    forall i, j :: 0 <= i < j < |events| && !events[i].Complete? && !events[j].Complete? ==>
      events[i].playHead <= events[j].playHead
  }

  /**
    While the play head only moves forward, every `ReadAhead` that finds a free request, or
    has no frame left to read, leaves the whole window covered, even after earlier ones
    that were refused.
   */
  lemma ForwardCoverage(clip: Extent, file: int -> real, events: seq<Event>, states: seq<State>,
                        outcomes: seq<Outcome>, n: nat)
    requires clip.Valid() && IsHistory(clip, file, events, states, outcomes) && MovesForward(events)
    requires n < |events| && (events[n].ReadAhead? || events[n].PrepareToPlay?)
    requires NotRefused(clip, states[n].table, events[n].playHead, events[n].haveRequest)
    ensures var next := clip.PlayFrame(events[n].playHead);
            Covers(clip, states[n + 1].table, next, next + clip.window)
  {
    NeverOverflows(clip, file, events, states, outcomes, n);
    ForwardHasNoGap(clip, file, events, states, outcomes, n, events[n].playHead);
    assert After(clip, file, states[n], events[n]) == (states[n + 1], outcomes[n]);
    CoveredUnlessGap(clip, states[n].table, events[n].playHead, events[n].haveRequest);
  }

  lemma {:induction false} ForwardHasNoGap(clip: Extent, file: int -> real, events: seq<Event>, states: seq<State>,
                                           outcomes: seq<Outcome>, n: nat, playHead: int)
    requires clip.Valid() && IsHistory(clip, file, events, states, outcomes) && MovesForward(events)
    requires n < |states|
    requires forall i :: 0 <= i < n && !events[i].Complete? ==> events[i].playHead <= playHead
    ensures NoGapFrom(clip, states[n].table, playHead)
  {
    if n > 0 {
      var event := events[n - 1];
      var state := states[n - 1];
      assert After(clip, file, state, event) == (states[n], outcomes[n - 1]);
      NeverOverflows(clip, file, events, states, outcomes, n - 1);
      if event.ReadAhead? || event.PrepareToPlay? {
        ForwardHasNoGap(clip, file, events, states, outcomes, n - 1, event.playHead);
        NoGapIsKept(clip, state.table, event.playHead, event.haveRequest);
      } else {
        ForwardHasNoGap(clip, file, events, states, outcomes, n - 1, playHead);
        if event.Complete? {
          CompletionKeeps(clip, state.table, event.first, event.second, playHead);
        }
      }
    }
  }

  // ---------------------------------------------------------------- seamless playback

  /** What the clip should add to a buffer that starts at `playHead`. */
  function Ideal(clip: Extent, file: int -> real, playHead: int, out: seq<real>): (ideal: seq<real>)
    ensures |ideal| == |out|
  {
    seq(|out|, j requires 0 <= j < |out| =>
      var frame := clip.PlayFrame(playHead) + j;
      if clip.fileStart <= frame < clip.FileEnd() then out[j] + file(frame) else out[j])
  }

  /** Every read that meets the frames of this buffer has arrived. */
  predicate InTime(clip: Extent, table: Table, playHead: int, size: nat) {
    var next := clip.PlayFrame(playHead);
    && (table.first.Filled? && table.first.start < next + size && next < table.first.End() ==> table.first.playable)
    && (table.second.Filled? && table.second.start < next + size && next < table.second.End() ==> table.second.playable)
  }

  /** The playing state agrees with the play head. */
  ghost predicate InStep(clip: Extent, state: State, playHead: int) {
    state.playing ==> state.playFrame == clip.PlayFrame(playHead) && clip.fileStart <= state.playFrame
  }

  /** The copying loop, when nothing is missing, copies to the end of the buffer or of the clip. */
  lemma {:induction false} PlayedInTime(clip: Extent, table: Table, file: int -> real, out: seq<real>, at: int, frame: int)
    requires clip.Valid() && WellFormed(clip, table) && 0 <= at <= |out| && clip.fileStart <= frame
    requires forall f :: frame <= f < frame + |out| - at && f < clip.FileEnd() ==> Playable(SlotAt(table, f))
    ensures var count := Max(0, Min(|out| - at, clip.FileEnd() - frame));
            var played := Played(clip, table, file, out, at, frame);
            && played.out == Mixed(out, at, file, frame, count)
            && !played.missed
            && (played.playing ==> played.playFrame == frame + |out| - at)
    decreases |out| - at
  {
    hide Played;
    PlayedEnds(clip, table, file, out, at, frame);
    if at < |out| && frame < clip.FileEnd() {
      var slot := SlotAt(table, frame);
      var copied := Min(|out| - at, slot.End() - frame);
      var out' := Mixed(out, at, file, frame, copied);
      PlayedCopies(clip, table, file, out, at, frame, slot, at, frame, copied);
      PlayedInTime(clip, table, file, out', at + copied, frame + copied);
      var count := Max(0, Min(|out| - at, clip.FileEnd() - frame));
      assert Mixed(out', at + copied, file, frame + copied, count - copied) == Mixed(out, at, file, frame, count);
    }
  }

  /**
    Even when reads are missing, a buffer never receives a frame at the wrong place:
    whatever is copied lines up with where the copying started.
   */
  lemma {:induction false} NeverMisplaced(clip: Extent, table: Table, file: int -> real, out: seq<real>, at: int, frame: int)
    requires clip.Valid() && WellFormed(clip, table) && 0 <= at
    ensures var played := Played(clip, table, file, out, at, frame).out;
            forall j :: 0 <= j < |out| && played[j] != out[j] ==>
              && at <= j && frame + (j - at) < clip.FileEnd()
              && played[j] == out[j] + file(frame + (j - at))
    decreases |out| - at
  {
    hide Played;
    PlayedEnds(clip, table, file, out, at, frame);
    if at < |out| && frame < clip.FileEnd() {
      var here := SlotAt(table, frame);
      var later := SlotAfter(table, frame, frame + |out| - at);
      if Playable(here) || Playable(later) {
        var (slot, at', frame') :=
          if Playable(here) then (here, at, frame) else (later, at + later.start - frame, later.start);
        var copied := Min(|out| - at', slot.End() - frame');
        PlayedCopies(clip, table, file, out, at, frame, slot, at', frame', copied);
        NeverMisplaced(clip, table, file, Mixed(out, at', file, frame', copied), at' + copied, frame' + copied);
      }
    }
  }

  /** No read with the frame has arrived. */
  predicate IsMissing(table: Table, frame: int) {
    !(table.first.Contains(frame) && table.first.playable) && !(table.second.Contains(frame) && table.second.playable)
  }

  /** A read lies strictly within what is left of a buffer of which the next frame is `frame`. */
  predicate LiesWithin(slot: Slot, frame: int, rest: int) {
    slot.Filled? && frame < slot.start && slot.start + slot.frames < frame + rest
  }

  /**
    When the next frame is missing, playback goes on with the first slot whose read lies
    within the rest of the buffer: if that has arrived, all of it sounds at its place.
    Otherwise nothing of the rest of the buffer does.
   */
  lemma MissingFramesAreSkipped(clip: Extent, table: Table, file: int -> real, out: seq<real>, at: int, frame: int)
    requires clip.Valid() && WellFormed(clip, table) && 0 <= at < |out| && frame < clip.FileEnd() && IsMissing(table, frame)
    ensures var rest := |out| - at;
            var later := if LiesWithin(table.first, frame, rest) then table.first else table.second;
            var played := Played(clip, table, file, out, at, frame);
            played.missed &&
            if LiesWithin(later, frame, rest) && later.playable then
              forall f :: later.start <= f < later.End() ==> played.out[at + (f - frame)] == out[at + (f - frame)] + file(f)
            else played.out == out
  {
    hide Played;
    PlayedEnds(clip, table, file, out, at, frame);
    var later := SlotAfter(table, frame, frame + |out| - at);
    if Playable(later) {
      var at' := at + later.start - frame;
      PlayedCopies(clip, table, file, out, at, frame, later, at', later.start, later.frames);
      NeverMisplaced(clip, table, file, Mixed(out, at', file, later.start, later.frames), at' + later.frames, later.End());
    }
  }

  lemma RunInTime(clip: Extent, state: State, file: int -> real, playHead: int, out: seq<real>)
    requires clip.Valid() && WellFormed(clip, state.table) && InStep(clip, state, playHead)
    requires var next := clip.PlayFrame(playHead); Covers(clip, state.table, next, next + |out|)
    requires InTime(clip, state.table, playHead, |out|)
    ensures var (state', out') := AfterRun(clip, state, file, playHead, out);
            out' == Ideal(clip, file, playHead, out) && InStep(clip, state', playHead + |out|)
  {
    hide Played;
    if !state.playing && playHead + |out| < clip.start {
      assert Ideal(clip, file, playHead, out) == out;
    } else {
      var at := if state.playing || playHead > clip.start then 0 else clip.start - playHead;
      var frame := if state.playing then state.playFrame else clip.fileStart + Max(playHead - clip.start, 0);
      assert frame - at == clip.PlayFrame(playHead);
      CoveredIsPlayable(clip, state.table, playHead, |out|);
      PlayedInTime(clip, state.table, file, out, at, frame);
      MixedIsIdeal(clip, file, playHead, out, at, frame);
    }
  }

  /** Frames that are covered by reads that have arrived can be played. */
  lemma CoveredIsPlayable(clip: Extent, table: Table, playHead: int, size: nat)
    requires var next := clip.PlayFrame(playHead); Covers(clip, table, next, next + size)
    requires InTime(clip, table, playHead, size)
    ensures forall f :: clip.PlayFrame(playHead) <= f < clip.PlayFrame(playHead) + size && clip.fileStart <= f < clip.FileEnd() ==>
              Playable(SlotAt(table, f))
  {
  }

  /** Copying from where the clip begins in the buffer, or from its start, up to its end adds just what is wanted. */
  lemma MixedIsIdeal(clip: Extent, file: int -> real, playHead: int, out: seq<real>, at: int, frame: int)
    requires 0 <= at <= |out| && clip.fileStart <= frame && frame - at == clip.PlayFrame(playHead)
    requires at == 0 || frame == clip.fileStart
    ensures Mixed(out, at, file, frame, Max(0, Min(|out| - at, clip.FileEnd() - frame))) == Ideal(clip, file, playHead, out)
  {
  }

  /** What the other thread contributes before each buffer. */
  datatype Supply = Supply(haveRequest: bool, firstArrives: bool, secondArrives: bool, out: seq<real>)

  /** Uninterrupted playback: each buffer reads ahead, receives data and runs. */
  datatype Playback = Playback(clip: Extent, file: int -> real, initial: State, playHead: int, size: nat, supplies: seq<Supply>)
  {
    ghost predicate Valid() {
      && clip.Valid() && size <= clip.window && initial.table.HasFrames()
      && forall i :: 0 <= i < |supplies| ==> |supplies[i].out| == size
    }

    /** The play head when buffer `k` is prepared. */
    function PlayHead(k: nat): int {
      playHead + k * size
    }

    /** Reads at buffer `k`, once `ReadAhead` is done and data has arrived. */
    function Ready(table: Table, k: nat): Table
      requires k < |supplies|
    {
      AfterCompletion(AfterReadAhead(clip, table, PlayHead(k), supplies[k].haveRequest).0,
                      supplies[k].firstArrives, supplies[k].secondArrives)
    }
  }

  /** `states[k]` is the state before buffer `k`, and `outs[k]` what that buffer becomes. */
  ghost predicate IsRun(run: Playback, states: seq<State>, outs: seq<seq<real>>) {
    && |states| == |run.supplies| + 1 && |outs| == |run.supplies|
    && states[0] == run.initial
    && forall k :: 0 <= k < |outs| ==>
         var table := run.Ready(states[k].table, k);
         && table.HasFrames()
         && AfterRun(run.clip, states[k].(table := table), run.file, run.PlayHead(k), run.supplies[k].out)
            == (states[k + 1], outs[k])
  }

  /** There was a request for the read of buffer `k`, if one was needed, and what was read arrived in time. */
  ghost predicate Supplied(run: Playback, states: seq<State>, k: nat)
    requires k < |run.supplies| && k < |states|
  {
    && NotRefused(run.clip, states[k].table, run.PlayHead(k), run.supplies[k].haveRequest)
    && InTime(run.clip, run.Ready(states[k].table, k), run.PlayHead(k), run.size)
  }

  ghost predicate OnTrack(run: Playback, state: State, k: nat) {
    && WellFormed(run.clip, state.table)
    && NoGapFrom(run.clip, state.table, run.PlayHead(k))
    && InStep(run.clip, state, run.PlayHead(k))
  }

  lemma CoverLess(clip: Extent, table: Table, from: int, less: int, more: int)
    requires less <= more && Covers(clip, table, from, from + more)
    ensures Covers(clip, table, from, from + less)
  {
  }

  lemma RunLeavesTable(clip: Extent, state: State, file: int -> real, playHead: int, out: seq<real>)
    requires WellFormed(clip, state.table)
    ensures state.table.HasFrames() && AfterRun(clip, state, file, playHead, out).0.table == state.table
  {
    hide Played;
  }

  lemma BufferOnTrack(run: Playback, states: seq<State>, outs: seq<seq<real>>, k: nat)
    requires run.Valid() && IsRun(run, states, outs)
    requires k < |outs| && Supplied(run, states, k) && OnTrack(run, states[k], k)
    ensures OnTrack(run, states[k + 1], k + 1)
    ensures outs[k] == Ideal(run.clip, run.file, run.PlayHead(k), run.supplies[k].out)
  {
    hide AfterReadAhead, AfterRun, AfterCompletion, Ideal, InTime, Covers, WellFormed, LeavesGap, Table.HasFrames;
    var playHead := run.PlayHead(k);
    var supply := run.supplies[k];
    var (table, outcome) := AfterReadAhead(run.clip, states[k].table, playHead, supply.haveRequest);
    ReadAheadKeepsTable(run.clip, states[k].table, playHead, supply.haveRequest);
    CoveredUnlessGap(run.clip, states[k].table, playHead, supply.haveRequest);
    NoGapIsKept(run.clip, states[k].table, playHead, supply.haveRequest);
    var state := states[k].(table := run.Ready(states[k].table, k));
    CompletionKeeps(run.clip, table, supply.firstArrives, supply.secondArrives, playHead);
    CoverLess(run.clip, state.table, run.clip.PlayFrame(playHead), run.size, run.clip.window);
    RunInTime(run.clip, state, run.file, playHead, supply.out);
    RunLeavesTable(run.clip, state, run.file, playHead, supply.out);
    assert run.PlayHead(k + 1) == playHead + run.size;
  }

  /**
    Seamless playback.  Start from any well-formed table, stopped, at a position that
    leaves no gap.  As long as reads are supplied and completed in time, every buffer
    receives exactly the file frames that belong to it, across slot boundaries,
    starts in the middle of a buffer and the end of the clip.
   */
  lemma {:induction false} SeamlessPlayback(run: Playback, states: seq<State>, outs: seq<seq<real>>, n: nat)
    requires run.Valid() && IsRun(run, states, outs) && n <= |outs|
    requires WellFormed(run.clip, run.initial.table) && !run.initial.playing
    requires NoGapFrom(run.clip, run.initial.table, run.playHead)
    requires forall k :: 0 <= k < n ==> Supplied(run, states, k)
    ensures OnTrack(run, states[n], n)
    ensures forall k :: 0 <= k < n ==> outs[k] == Ideal(run.clip, run.file, run.PlayHead(k), run.supplies[k].out)
  {
    if n == 0 {
      assert run.PlayHead(0) == run.playHead;
    } else {
      SeamlessPlayback(run, states, outs, n - 1);
      BufferOnTrack(run, states, outs, n - 1);
    }
  }

  lemma GapStays(clip: Extent, table: Table, playHead: int, haveRequest: bool)
    requires clip.Valid() && WellFormed(clip, table) && LeavesGap(clip, table, playHead)
    ensures LeavesGap(clip, AfterReadAhead(clip, table, playHead, haveRequest).0, playHead)
  {
  }

  /** `PrepareToPlay` sets up the start of such a run exactly when it leaves no gap. */
  lemma PreparedToPlay(clip: Extent, table: Table, playHead: int, haveRequest: bool)
    requires clip.Valid() && WellFormed(clip, table)
    ensures var (table', _) := AfterReadAhead(clip, table, playHead, haveRequest);
            WellFormed(clip, table') && (NoGapFrom(clip, table', playHead) <==> !LeavesGap(clip, table, playHead))
  {
    hide AfterReadAhead, LeavesGap, WellFormed;
    ReadAheadKeepsTable(clip, table, playHead, haveRequest);
    if LeavesGap(clip, table, playHead) {
      GapStays(clip, table, playHead, haveRequest);
    } else {
      NoGapIsKept(clip, table, playHead, haveRequest);
    }
  }
}
