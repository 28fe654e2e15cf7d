/**
  The engine's part of recording as the engine runs it: a loop over the armed channels,
  the clips, and at the end the free `RecordBuffers`.  What one buffer's recording does,
  from beginning to end, is a number of steps of the system, uninterrupted.
 */
module RecordingEngines {
  import opened Recording
  import MessageQueues

  /** Messages that fit in a queue. */
  const ROOM := MessageQueues.DEFAULT_CAPACITY - 1

  predicate IsFull(s: State) {
    |s.fromEngine| >= ROOM
  }

  /** The capture channels, from `c` on, that are armed. */
  function ArmedFrom(armed: seq<bool>, c: nat): (r: seq<nat>)
    ensures forall i :: 0 <= i < |r| ==> c <= r[i] < |armed|
    decreases |armed| - c
  {
    if c >= |armed| then [] else (if armed[c] then [c] else []) + ArmedFrom(armed, c + 1)
  }

  // ---------------------------------------------------------------- what the methods do

  /** The captured buffers of these channels are exchanged for new ones. */
  function AfterAdds(s: State, record: RecordBuffers, channels: seq<nat>): (r: State)
    requires s.engine == Adding(record, channels) && forall i :: 0 <= i < |channels| ==> channels[i] < |s.pool.capture|
    ensures r.engine.Adding? && r.engine.channels == []
    decreases |channels|
  {
    if channels == [] then s
    else
      var next := AfterAdd(s, record, channels);
      AfterAdds(next, next.engine.record, channels[1..])
  }

  /** All free `RecordBuffers` are sent off to be deleted. */
  function AfterDisposes(s: State): State
    decreases |s.freeRecords|
  {
    if s.freeRecords == [] then AfterEnd(s) else AfterDisposes(AfterDispose(s, IsFull(s)))
  }

  function AfterRecord(s: State, channels: seq<nat>): State
    requires forall i :: 0 <= i < |channels| ==> channels[i] < |s.pool.capture|
  {
    var taken := AfterTake(s, channels);
    if s.freeRecords == [] then taken
    else
      var added := AfterAdds(taken, s.freeRecords[0], channels);
      AfterSend(added, added.engine.record, IsFull(added))
  }

  /** All of `run_recording`. */
  function AfterRunRecording(s: State, size: nat, channels: seq<nat>): State
    requires forall i :: 0 <= i < |channels| ==> channels[i] < |s.pool.capture|
  {
    var updated := AfterUpdate(AfterRecord(s, channels), size);
    var counted := AfterCountDown(updated, size, IsFull(updated));
    if counted.engine == Ending then AfterDisposes(counted) else counted
  }

  /**
    The engine gets two buffers to play into and gives them back when they were played.  If
    one of them is missing nothing is played, and nothing is given back.
   */
  function AfterOutputs(s: State): State {
    var once := AfterGet(s.pool);
    var twice := AfterGet(once);
    var outs := [Got(s.pool), Got(once)];
    if 0 in outs then
      s.(pool := twice, starved := s.starved || s.pool.free == [] || once.free == [], lost := s.lost + Buffers(outs))
    else s.(pool := twice.(free := AfterFree(twice.free, outs)))
  }

  /** The other thread is told that playing has stopped; then a recording is ended at once. */
  function AfterPause(s: State): State {
    var told := AfterOther(s, IsFull(s));
    var paused := AfterMessage(told, Pause, IsFull(told));
    if s.recording then AfterDisposes(paused) else paused
  }

  /** The other thread is told that playing has stopped; then a recording begins to count down. */
  function AfterStop(s: State): State {
    var told := AfterOther(s, IsFull(s));
    AfterMessage(told, Stop, IsFull(told))
  }

  // ---------------------------------------------------------------- which buffers are sent off

  ghost predicate Ascending(channels: seq<nat>) {
    forall i, j :: 0 <= i < j < |channels| ==> channels[i] < channels[j]
  }

  /** All channels that are armed, no others, and each once. */
  lemma {:induction false} ArmedAre(armed: seq<bool>, c: nat)
    ensures Ascending(ArmedFrom(armed, c))
    ensures forall channel :: channel in ArmedFrom(armed, c) <==> c <= channel < |armed| && armed[channel]
    decreases |armed| - c
  {
    if c < |armed| {
      ArmedAre(armed, c + 1);
    }
  }

  /** What was captured on these channels. */
  function CapturedOn(pool: Pool, channels: seq<nat>): seq<nat>
    requires forall i :: 0 <= i < |channels| ==> channels[i] < |pool.capture|
  {
    seq(|channels|, i requires 0 <= i < |channels| => pool.capture[channels[i]])
  }

  lemma AddOne(s: State, record: RecordBuffers, channels: seq<nat>)
    requires channels != [] && channels[0] < |s.pool.capture|
    ensures var next := AfterAdd(s, record, channels);
            && next.engine == Adding(record.(buffers := record.buffers + [s.pool.capture[channels[0]]]), channels[1..])
            && next.fromEngine == s.fromEngine && next.pool.capture == s.pool.capture[channels[0] := Got(s.pool)]
  {
  }

  /** The buffers of the channels go into the record, in order, and those of other channels stay. */
  lemma {:induction false} AddsCaptured(s: State, record: RecordBuffers, channels: seq<nat>)
    requires s.engine == Adding(record, channels) && forall i :: 0 <= i < |channels| ==> channels[i] < |s.pool.capture|
    requires Ascending(channels)
    ensures var r := AfterAdds(s, record, channels);
            && r.engine == Adding(record.(buffers := record.buffers + CapturedOn(s.pool, channels)), [])
            && r.fromEngine == s.fromEngine && |r.pool.capture| == |s.pool.capture|
            && forall c :: 0 <= c < |s.pool.capture| && c !in channels ==> r.pool.capture[c] == s.pool.capture[c]
    decreases |channels|
  {
    hide AfterAdd;
    if channels == [] {
      assert record.buffers + CapturedOn(s.pool, channels) == record.buffers;
    } else {
      var next := AfterAdd(s, record, channels);
      AddOne(s, record, channels);
      AddsCaptured(next, next.engine.record, channels[1..]);
      assert CapturedOn(s.pool, channels) == [s.pool.capture[channels[0]]] + CapturedOn(next.pool, channels[1..]);
      assert channels == [channels[0]] + channels[1..];
    }
  }

  /** A free record is sent off with the buffers of all armed channels, in their order, and no others. */
  lemma ArmedAreSent(s: State, armed: seq<bool>)
    requires |armed| <= |s.pool.capture| && s.freeRecords != [] && !IsFull(s)
    ensures var sent := AfterRecord(s, ArmedFrom(armed, 0));
            var first := s.freeRecords[0];
            && sent.fromEngine == s.fromEngine
                                + [Continue(RecordBuffers(first.id, Writing, first.buffers + CapturedOn(s.pool, ArmedFrom(armed, 0))))]
            && |sent.pool.capture| == |s.pool.capture|
            && forall c :: 0 <= c < |s.pool.capture| && !(c < |armed| && armed[c]) ==> sent.pool.capture[c] == s.pool.capture[c]
  {
    hide AfterAdds, AfterAdd, ArmedFrom;
    ArmedAre(armed, 0);
    AddsCaptured(AfterTake(s, ArmedFrom(armed, 0)), s.freeRecords[0], ArmedFrom(armed, 0));
  }

  // ---------------------------------------------------------------- it is made of steps

  ghost predicate Reaches(s: State, size: nat, steps: seq<Step>, t: State)
    decreases |steps|
  {
    if steps == [] then t == s
    else Enabled(s, steps[0]) && Reaches(Next(s, size, steps[0]), size, steps[1..], t)
  }

  lemma {:induction false} ReachesConcat(s: State, size: nat, a: seq<Step>, t: State, b: seq<Step>, u: State)
    requires Reaches(s, size, a, t) && Reaches(t, size, b, u)
    ensures Reaches(s, size, a + b, u)
    decreases |a|
  {
    hide Enabled, Next;
    if a == [] {
      assert a + b == b;
    } else {
      assert (a + b)[1..] == a[1..] + b;
      ReachesConcat(Next(s, size, a[0]), size, a[1..], t, b, u);
    }
  }

  lemma ReachesOne(s: State, size: nat, step: Step)
    requires Enabled(s, step)
    ensures Reaches(s, size, [step], Next(s, size, step))
  {
    hide Enabled, Next;
    assert [step][1..] == [];
    assert Reaches(Next(s, size, step), size, [], Next(s, size, step));
  }

  /** A step in front. */
  lemma StepFirst(s: State, size: nat, step: Step, next: State, rest: seq<Step>, t: State)
    requires Enabled(s, step) && Next(s, size, step) == next && Reaches(next, size, rest, t)
    ensures Reaches(s, size, [step] + rest, t)
  {
    hide Enabled, Next;
    ReachesOne(s, size, step);
    ReachesConcat(s, size, [step], next, rest, t);
  }

  lemma {:induction false} AddsAreSteps(s: State, size: nat, record: RecordBuffers, channels: seq<nat>) returns (steps: seq<Step>)
    requires s.engine == Adding(record, channels) && forall i :: 0 <= i < |channels| ==> channels[i] < |s.pool.capture|
    ensures Reaches(s, size, steps, AfterAdds(s, record, channels))
    decreases |channels|
  {
    steps := [];
    if channels != [] {
      hide AfterAdd, Enabled, Next;
      AddIsStep(s, size, record, channels);
      var next := AfterAdd(s, record, channels);
      var rest := AddsAreSteps(next, size, next.engine.record, channels[1..]);
      StepFirst(s, size, AddChannel, next, rest, AfterAdds(s, record, channels));
      steps := [AddChannel] + rest;
    }
  }

  lemma AddIsStep(s: State, size: nat, record: RecordBuffers, channels: seq<nat>)
    requires s.engine == Adding(record, channels) && channels != [] && channels[0] < |s.pool.capture|
    ensures Enabled(s, AddChannel) && Next(s, size, AddChannel) == AfterAdd(s, record, channels)
    ensures var next := AfterAdd(s, record, channels);
            next.engine.Adding? && next.engine.channels == channels[1..] && |next.pool.capture| == |s.pool.capture|
  {
  }

  lemma {:induction false} DisposesAreSteps(s: State, size: nat) returns (steps: seq<Step>)
    requires s.engine == Ending
    ensures Reaches(s, size, steps, AfterDisposes(s))
    decreases |s.freeRecords|
  {
    hide AfterDispose, Enabled, Next, AfterEnd;
    if s.freeRecords == [] {
      EndIsStep(s, size);
      ReachesOne(s, size, EndRecording);
      steps := [EndRecording];
    } else {
      DisposeIsStep(s, size, IsFull(s));
      var next := AfterDispose(s, IsFull(s));
      var rest := DisposesAreSteps(next, size);
      StepFirst(s, size, DisposeRecord(IsFull(s)), next, rest, AfterDisposes(s));
      steps := [DisposeRecord(IsFull(s))] + rest;
    }
  }

  lemma EndIsStep(s: State, size: nat)
    requires s.engine == Ending && s.freeRecords == []
    ensures Enabled(s, EndRecording) && Next(s, size, EndRecording) == AfterEnd(s)
  {
  }

  lemma DisposeIsStep(s: State, size: nat, drop: bool)
    requires s.engine == Ending && s.freeRecords != []
    ensures Enabled(s, DisposeRecord(drop)) && Next(s, size, DisposeRecord(drop)) == AfterDispose(s, drop)
    ensures AfterDispose(s, drop).engine == Ending && AfterDispose(s, drop).freeRecords == s.freeRecords[1..]
  {
    hide AfterFree, InFromEngine;
  }

  lemma RecordIsSteps(s: State, size: nat, channels: seq<nat>) returns (steps: seq<Step>)
    requires s.engine == Ready && s.recording && forall i :: 0 <= i < |channels| ==> channels[i] < |s.pool.capture|
    ensures Reaches(s, size, steps, AfterRecord(s, channels)) && AfterRecord(s, channels).engine == Sent
  {
    hide AfterTake, AfterSend, AfterAdds, Enabled, Next;
    TakeIsStep(s, size, channels);
    var taken := AfterTake(s, channels);
    if s.freeRecords == [] {
      ReachesOne(s, size, TakeRecord(channels));
      steps := [TakeRecord(channels)];
    } else {
      var adds := AddsAreSteps(taken, size, s.freeRecords[0], channels);
      var added := AfterAdds(taken, s.freeRecords[0], channels);
      var drop := IsFull(added);
      SendIsStep(added, size, drop);
      ReachesOne(added, size, SendRecord(drop));
      ReachesConcat(taken, size, adds, added, [SendRecord(drop)], AfterRecord(s, channels));
      StepFirst(s, size, TakeRecord(channels), taken, adds + [SendRecord(drop)], AfterRecord(s, channels));
      steps := [TakeRecord(channels)] + (adds + [SendRecord(drop)]);
    }
  }

  lemma TakeIsStep(s: State, size: nat, channels: seq<nat>)
    requires s.engine == Ready && s.recording && forall i :: 0 <= i < |channels| ==> channels[i] < |s.pool.capture|
    ensures Enabled(s, TakeRecord(channels)) && Next(s, size, TakeRecord(channels)) == AfterTake(s, channels)
    ensures AfterTake(s, channels).pool == s.pool
    ensures AfterTake(s, channels).engine == if s.freeRecords == [] then Sent else Adding(s.freeRecords[0], channels)
  {
  }

  lemma SendIsStep(s: State, size: nat, drop: bool)
    requires s.engine.Adding? && s.engine.channels == []
    ensures Enabled(s, SendRecord(drop)) && Next(s, size, SendRecord(drop)) == AfterSend(s, s.engine.record, drop)
    ensures AfterSend(s, s.engine.record, drop).engine == Sent
  {
    hide InFromEngine;
  }

  lemma UpdateIsStep(s: State, size: nat)
    requires s.engine == Sent
    ensures Enabled(s, UpdateClips) && Next(s, size, UpdateClips) == AfterUpdate(s, size) && AfterUpdate(s, size).engine == Updated
  {
  }

  lemma CountIsStep(s: State, size: nat, drop: bool)
    requires s.engine == Updated
    ensures Enabled(s, CountDown(drop)) && Next(s, size, CountDown(drop)) == AfterCountDown(s, size, drop)
  {
    hide AfterCountDown;
  }

  /** Taking up a message, before which another one is sent. */
  lemma ToldIsSteps(s: State, size: nat)
    requires s.engine == Ready && s.toEngine != []
    ensures var told := AfterOther(s, IsFull(s));
            var drop := IsFull(told);
            && AfterHandle(told, drop) == AfterMessage(AfterOther(s.(toEngine := s.toEngine[1..]), IsFull(s)), s.toEngine[0], drop)
            && Reaches(s, size, [SendOther(IsFull(s)), HandleMessage(drop)], AfterHandle(told, drop))
  {
    hide AfterMessage;
    var told := AfterOther(s, IsFull(s));
    var drop := IsFull(told);
    assert Enabled(s, SendOther(IsFull(s))) && Next(s, size, SendOther(IsFull(s))) == told;
    assert Enabled(told, HandleMessage(drop)) && Next(told, size, HandleMessage(drop)) == AfterHandle(told, drop);
    hide Enabled, Next, AfterHandle;
    ReachesOne(told, size, HandleMessage(drop));
    StepFirst(s, size, SendOther(IsFull(s)), told, [HandleMessage(drop)], AfterHandle(told, drop));
    assert [SendOther(IsFull(s))] + [HandleMessage(drop)] == [SendOther(IsFull(s)), HandleMessage(drop)];
  }

  /** A stop, from message to message, is a run of the system's steps. */
  lemma StopIsSteps(s: State, size: nat) returns (steps: seq<Step>)
    requires s.engine == Ready && s.toEngine != [] && s.toEngine[0] == Stop
    ensures Reaches(s, size, steps, AfterStop(s.(toEngine := s.toEngine[1..])))
  {
    hide AfterMessage, Reaches, AfterHandle;
    ToldIsSteps(s, size);
    steps := [SendOther(IsFull(s)), HandleMessage(IsFull(AfterOther(s, IsFull(s))))];
  }

  /** So is a pause, including what it does about the free `RecordBuffers`. */
  lemma PauseIsSteps(s: State, size: nat) returns (steps: seq<Step>)
    requires s.engine == Ready && s.toEngine != [] && s.toEngine[0] == Pause
    ensures Reaches(s, size, steps, AfterPause(s.(toEngine := s.toEngine[1..])))
  {
    hide Reaches, AfterHandle, AfterDisposes, InFromEngine;
    ToldIsSteps(s, size);
    var told := AfterOther(s, IsFull(s));
    steps := [SendOther(IsFull(s)), HandleMessage(IsFull(told))];
    if s.recording {
      var paused := AfterHandle(told, IsFull(told));
      var rest := DisposesAreSteps(paused, size);
      ReachesConcat(s, size, steps, paused, rest, AfterDisposes(paused));
      steps := steps + rest;
    }
  }

  /** What the engine does about recording in each buffer is a run of the system's steps. */
  lemma RunRecordingIsSteps(s: State, size: nat, channels: seq<nat>) returns (steps: seq<Step>)
    requires s.engine == Ready && s.recording && forall i :: 0 <= i < |channels| ==> channels[i] < |s.pool.capture|
    ensures Reaches(s, size, steps, AfterRunRecording(s, size, channels))
  {
    hide AfterRecord, AfterUpdate, AfterCountDown, AfterDisposes, Enabled, Next;
    var first := RecordIsSteps(s, size, channels);
    var sent := AfterRecord(s, channels);
    UpdateIsStep(sent, size);
    var updated := AfterUpdate(sent, size);
    var drop := IsFull(updated);
    CountIsStep(updated, size, drop);
    var counted := AfterCountDown(updated, size, drop);
    var last: seq<Step> := [];
    assert Reaches(counted, size, [], counted);
    if counted.engine == Ending {
      last := DisposesAreSteps(counted, size);
    }
    var end := AfterRunRecording(s, size, channels);
    StepFirst(updated, size, CountDown(drop), counted, last, end);
    StepFirst(sent, size, UpdateClips, updated, [CountDown(drop)] + last, end);
    ReachesConcat(s, size, first, sent, [UpdateClips] + ([CountDown(drop)] + last), end);
    steps := first + ([UpdateClips] + ([CountDown(drop)] + last));
  }
}
