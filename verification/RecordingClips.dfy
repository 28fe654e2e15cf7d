/**
  What the clips of a recording are in the end.  Buffers are counted from the steps of
  the run: a clip has all buffers since the recording began, less the first ones if it
  was ended by a stop, which is when a fixed number of buffers has come after the stop.
 */
module RecordingClips {
  import opened Recording
  import opened RecordingConsistency
  import opened Wrappers

  // ---------------------------------------------------------------- counting

  /** How many buffers were recorded in the first `k` steps, since the last start. */
  function BuffersRecorded(steps: seq<Step>, k: nat): nat
    requires k <= |steps|
  {
    if k == 0 || steps[k - 1].StartSession? then 0
    else BuffersRecorded(steps, k - 1) + if steps[k - 1].UpdateClips? then 1 else 0
  }

  /** The engine takes a request to stop while it records. */
  predicate TakesStop(s: State, step: Step) {
    step.HandleMessage? && s.toEngine != [] && s.toEngine[0].Stop? && s.recording
  }

  /** The engine takes a request to pause while it records. */
  predicate TakesPause(s: State, step: Step) {
    step.HandleMessage? && s.toEngine != [] && s.toEngine[0].Pause? && s.recording
  }

  /** How many buffers were recorded after the last request to stop was taken, if one was since the last start. */
  function BuffersSinceStop(states: seq<State>, steps: seq<Step>, k: nat): Option<nat>
    requires k <= |steps| == |states| - 1
  {
    if k == 0 || steps[k - 1].StartSession? then None
    else if TakesStop(states[k - 1], steps[k - 1]) then Some(0)
    else Counted(BuffersSinceStop(states, steps, k - 1), steps[k - 1])
  }

  function Counted(since: Option<nat>, step: Step): Option<nat> {
    if since.Some? && step.UpdateClips? then Some(since.value + 1) else since
  }

  // ---------------------------------------------------------------- what every step keeps

  /** The recording has begun, and its end was not announced yet. */
  predicate Running(s: State) {
    s.recording && s.engine != Ending
  }

  ghost predicate AllAre(clips: seq<Clip>, fileStart: int, length: int) {
    forall i :: 0 <= i < |clips| ==> clips[i].fileStart == fileStart && clips[i].length == length
  }

  /** Clips of so many buffers from the beginning of the file on. */
  ghost predicate Whole(clips: seq<Clip>, size: nat, buffers: nat) {
    AllAre(clips, 0, buffers * size)
  }

  /** Without a stop nothing is counted down; after one, the buffers that are still to come. */
  ghost predicate CountsDown(s: State, since: Option<nat>) {
    s.stopIn == match since
                case None => 0
                case Some(n) => RECORDING_BUFFERS_OFFSET + 1 - n + (if s.engine == Updated then 1 else 0)
  }

  ghost predicate Known(s: State, size: nat, buffers: nat, since: Option<nat>) {
    && (BusyRecording(s.engine) ==> s.recording)
    && (since.Some? ==> since.value <= buffers)
    && (Running(s) ==> Whole(s.clips, size, buffers) && CountsDown(s, since) && (since.Some? ==> s.stopIn > 0))
  }

  lemma QuietKeepsKnown(s: State, s': State, size: nat, buffers: nat, since: Option<nat>)
    requires Known(s, size, buffers, since) && Quiet(s, s')
    ensures Known(s', size, buffers, since)
  {
  }

  lemma StopKeepsKnown(s: State, size: nat, buffers: nat, since: Option<nat>, drop: bool)
    requires Known(s, size, buffers, since) && s.engine == Ready && s.toEngine != [] && s.toEngine[0].Stop? && s.recording
    ensures Known(AfterHandle(s, drop), size, buffers, Some(0))
  {
    hide InFromEngine, Whole;
  }

  lemma PauseKeepsKnown(s: State, size: nat, buffers: nat, since: Option<nat>, drop: bool)
    requires Known(s, size, buffers, since) && s.engine == Ready && s.toEngine != [] && s.toEngine[0].Pause? && s.recording
    ensures Known(AfterHandle(s, drop), size, buffers, since)
    ensures AfterHandle(s, drop).engine == Ending && Whole(AfterHandle(s, drop).clips, size, buffers)
  {
    hide InFromEngine;
  }

  lemma StartKeepsKnown(s: State, size: nat, buffers: nat, since: Option<nat>, tracks: nat)
    requires Known(s, size, buffers, since) && s.engine.Starting?
    ensures Known(AfterStart(s, tracks), size, 0, None)
  {
  }

  lemma UpdateKeepsKnown(s: State, size: nat, buffers: nat, since: Option<nat>)
    requires Known(s, size, buffers, since) && s.engine == Sent
    ensures Known(AfterUpdate(s, size), size, buffers + 1, Counted(since, UpdateClips))
  {
    assert (buffers + 1) * size == buffers * size + size;
  }

  /** The recording is over with the count-down just when the last buffer after the stop was recorded. */
  lemma CountDownKeepsKnown(s: State, size: nat, buffers: nat, since: Option<nat>, drop: bool)
    requires Known(s, size, buffers, since) && s.engine == Updated
    ensures Known(AfterCountDown(s, size, drop), size, buffers, since)
    ensures AfterCountDown(s, size, drop).engine == Ending <==> since == Some(RECORDING_BUFFERS_OFFSET + 1)
  {
    hide InFromEngine, CutOff, Whole, AllAre;
  }

  lemma EndKeepsKnown(s: State, size: nat, buffers: nat, since: Option<nat>)
    requires Known(s, size, buffers, since) && s.engine == Ending
    ensures Known(AfterEnd(s), size, buffers, since)
  {
  }

  lemma HandleKeepsKnown(s: State, size: nat, buffers: nat, since: Option<nat>, drop: bool)
    requires Known(s, size, buffers, since) && s.engine == Ready && s.toEngine != []
    ensures Known(AfterHandle(s, drop), size, buffers, if TakesStop(s, HandleMessage(drop)) then Some(0) else since)
  {
    if TakesStop(s, HandleMessage(drop)) {
      StopKeepsKnown(s, size, buffers, since, drop);
    } else if TakesPause(s, HandleMessage(drop)) {
      PauseKeepsKnown(s, size, buffers, since, drop);
    } else {
      HandleIsQuiet(s, drop);
      hide Known, Quiet, AfterHandle;
      QuietKeepsKnown(s, AfterHandle(s, drop), size, buffers, since);
    }
  }

  /** What the counts become with a step. */
  lemma StepKeepsKnown(s: State, size: nat, step: Step, buffers: nat, since: Option<nat>)
    requires Known(s, size, buffers, since) && Enabled(s, step)
    ensures Known(Next(s, size, step), size,
                  if step.StartSession? then 0 else if step.UpdateClips? then buffers + 1 else buffers,
                  if step.StartSession? then None else if TakesStop(s, step) then Some(0) else Counted(since, step))
  {
    KnownMeansBusy(s, size, buffers, since);
    hide Known, Quiet, AfterHandle, AfterStart, AfterUpdate, AfterCountDown, AfterEnd, AfterFree, InFromEngine, InToEngine, InRecord,
         InRecords, Buffers, TakesPause;
    match step
    case HandleMessage(drop) => HandleKeepsKnown(s, size, buffers, since, drop);
    case StartSession => StartKeepsKnown(s, size, buffers, since, s.engine.tracks);
    case UpdateClips => UpdateKeepsKnown(s, size, buffers, since);
    case CountDown(drop) => CountDownKeepsKnown(s, size, buffers, since, drop);
    case EndRecording => EndKeepsKnown(s, size, buffers, since);
    case _ =>
      StepIsQuiet(s, size, step);
      QuietKeepsKnown(s, Next(s, size, step), size, buffers, since);
  }

  lemma KnownMeansBusy(s: State, size: nat, buffers: nat, since: Option<nat>)
    requires Known(s, size, buffers, since)
    ensures BusyRecording(s.engine) ==> s.recording
  {
  }

  // ---------------------------------------------------------------- whole runs

  lemma {:induction false} RunKeepsKnown(states: seq<State>, size: nat, steps: seq<Step>, k: nat)
    requires IsRun(states, size, steps) && k <= |steps|
    ensures Known(states[k], size, BuffersRecorded(steps, k), BuffersSinceStop(states, steps, k))
  {
    hide Next, Enabled;
    if k > 0 {
      RunKeepsKnown(states, size, steps, k - 1);
      hide Known;
      StepKeepsKnown(states[k - 1], size, steps[k - 1], BuffersRecorded(steps, k - 1), BuffersSinceStop(states, steps, k - 1));
    }
  }

  /** The clips go on without the first `RECORDING_BUFFERS_OFFSET` of their buffers, and so it is told. */
  ghost predicate EndsCut(s: State, s': State, size: nat, buffers: nat, drop: bool) {
    && RECORDING_BUFFERS_OFFSET < buffers
    && (!drop ==> s'.fromEngine == s.fromEngine + [RecordingStopped])
    && |s'.clips| == |s.clips|
    && AllAre(s'.clips, RECORDING_BUFFERS_OFFSET * size, (buffers - RECORDING_BUFFERS_OFFSET) * size)
  }

  lemma StopCuts(s: State, size: nat, buffers: nat, since: Option<nat>, drop: bool)
    requires Known(s, size, buffers, since) && s.engine == Updated && since == Some(RECORDING_BUFFERS_OFFSET + 1)
    ensures EndsCut(s, AfterCountDown(s, size, drop), size, buffers, drop)
  {
    hide InFromEngine;
    assert (buffers - RECORDING_BUFFERS_OFFSET) * size == buffers * size - RECORDING_BUFFERS_OFFSET * size;
  }

  lemma CountDownIs(states: seq<State>, size: nat, steps: seq<Step>, k: nat)
    requires IsRun(states, size, steps) && k < |steps| && steps[k].CountDown?
    ensures states[k].engine == Updated && states[k + 1] == AfterCountDown(states[k], size, steps[k].drop)
  {
    hide AfterCountDown;
    assert Enabled(states[k], steps[k]);
  }

  /**
    A recording that was stopped.  The count-down announces its end if and only if just
    `RECORDING_BUFFERS_OFFSET + 1` buffers were recorded after the last request to stop.
    Every clip then has the buffers of that recording but the first
    `RECORDING_BUFFERS_OFFSET`, which it skips in the file.
   */
  lemma ClipsAfterStop(states: seq<State>, size: nat, steps: seq<Step>, k: nat)
    requires IsRun(states, size, steps) && k < |steps| && steps[k].CountDown?
    ensures states[k + 1].engine == Ending <==> BuffersSinceStop(states, steps, k) == Some(RECORDING_BUFFERS_OFFSET + 1)
    ensures states[k + 1].engine == Ending ==>
              EndsCut(states[k], states[k + 1], size, BuffersRecorded(steps, k), steps[k].drop)
  {
    RunKeepsKnown(states, size, steps, k);
    CountDownIs(states, size, steps, k);
    hide *;
    var buffers, since := BuffersRecorded(steps, k), BuffersSinceStop(states, steps, k);
    CountDownKeepsKnown(states[k], size, buffers, since, steps[k].drop);
    if since == Some(RECORDING_BUFFERS_OFFSET + 1) {
      StopCuts(states[k], size, buffers, since, steps[k].drop);
    }
  }

  /** A request to stop asks for a checkpoint of the files and lets `RECORDING_BUFFERS_OFFSET + 1` more buffers come. */
  lemma StopIsTaken(states: seq<State>, size: nat, steps: seq<Step>, k: nat)
    requires IsRun(states, size, steps) && k < |steps| && TakesStop(states[k], steps[k])
    ensures states[k + 1].stopIn == RECORDING_BUFFERS_OFFSET + 1 && states[k + 1].recording && states[k + 1].engine == Ready
    ensures states[k + 1].clips == states[k].clips
    ensures !steps[k].drop ==> states[k + 1].fromEngine == states[k].fromEngine + [RecordingCheckpoint]
  {
    hide InFromEngine;
    assert Enabled(states[k], steps[k]);
  }

  /** A recording that was paused ends at once, and every clip has all of its buffers. */
  lemma ClipsAfterPause(states: seq<State>, size: nat, steps: seq<Step>, k: nat)
    requires IsRun(states, size, steps) && k < |steps| && TakesPause(states[k], steps[k])
    ensures states[k + 1].engine == Ending
    ensures !steps[k].drop ==> states[k + 1].fromEngine == states[k].fromEngine + [RecordingStopped]
    ensures AllAre(states[k + 1].clips, 0, BuffersRecorded(steps, k) * size)
  {
    hide AfterCountDown, InFromEngine;
    RunKeepsKnown(states, size, steps, k);
    PauseKeepsKnown(states[k], size, BuffersRecorded(steps, k), BuffersSinceStop(states, steps, k), steps[k].drop);
  }

  lemma EndedStays(s: State, size: nat, step: Step)
    requires Enabled(s, step) && NotRecording(s) && !step.StartSession?
    ensures NotRecording(Next(s, size, step)) && Next(s, size, step).clips == s.clips
  {
    if step.HandleMessage? {
      HandleIsQuiet(s, step.drop);
    } else if !step.EndRecording? {
      hide Next;
      StepIsQuiet(s, size, step);
    }
  }

  /** The clips of a recording that has ended stay as they are until the next one begins. */
  lemma {:induction false} EndedClipsStay(states: seq<State>, size: nat, steps: seq<Step>, j: nat, k: nat)
    requires IsRun(states, size, steps) && j <= k <= |steps| && states[j].engine == Ending
    requires forall i :: j <= i < k ==> !steps[i].StartSession?
    ensures states[k].clips == states[j].clips && NotRecording(states[k])
  {
    hide Next, Enabled;
    if j < k {
      EndedClipsStay(states, size, steps, j, k - 1);
      EndedStays(states[k - 1], size, steps[k - 1]);
    }
  }
}
