/**
  What the files hold agrees with what the clips claim.  When the other thread learns
  that recording has stopped, each file holds exactly the frames up to the end of its
  clip, provided that recording sent off every buffer: there was always a free
  `RecordBuffers`, and room for it in the queue.  What is dropped besides may leave a
  recording unable to begin or to end, which a session that stays as it is stands for.
 */
module RecordingConsistency {
  import opened Recording

  predicate IsWrite(message: FromEngine) {
    message.Continue? && message.record.phase == Writing
  }

  /** The buffers that are on their way to the files. */
  function Writes(queue: seq<FromEngine>): nat {
    if queue == [] then 0 else (if IsWrite(queue[0]) then 1 else 0) + Writes(queue[1..])
  }

  lemma {:induction false} WritesAppend(queue: seq<FromEngine>, message: FromEngine)
    ensures Writes(queue + [message]) == Writes(queue) + (if IsWrite(message) then 1 else 0)
  {
    if queue == [] {
      assert [message][1..] == [];
    } else {
      assert (queue + [message])[1..] == queue[1..] + [message];
      WritesAppend(queue[1..], message);
    }
  }

  lemma {:induction false} WritesNone(queue: seq<FromEngine>)
    requires forall i :: 0 <= i < |queue| ==> !IsWrite(queue[i])
    ensures Writes(queue) == 0
  {
    if queue != [] {
      WritesNone(queue[1..]);
    }
  }

  function InHand(activity: Activity): nat {
    if activity.Holding? && activity.record.phase == Writing then 1 else 0
  }

  /** Frames that have left the engine and have not reached the files. */
  function UnderWay(s: State, size: nat): int {
    size * (Writes(s.fromEngine) + InHand(s.activity))
  }

  function End(clip: Clip): int {
    clip.fileStart + clip.length
  }

  predicate BusyRecording(engine: Engine) {
    engine.Adding? || engine == Sent || engine == Updated
  }

  ghost predicate NoStart(queue: seq<ToEngine>) {
    forall i :: 0 <= i < |queue| ==> !queue[i].StartRecording?
  }

  ghost predicate OneStart(queue: seq<ToEngine>, tracks: nat) {
    exists k :: IsTheStart(queue, k, tracks)
  }

  ghost predicate IsTheStart(queue: seq<ToEngine>, k: nat, tracks: nat) {
    && k < |queue| && queue[k].StartRecording? && queue[k].tracks == tracks
    && forall i :: 0 <= i < |queue| && queue[i].StartRecording? ==> i == k
  }

  ghost predicate NotStopped(queue: seq<FromEngine>) {
    forall i :: 0 <= i < |queue| ==> queue[i] != RecordingStopped
  }

  /** The news that recording has stopped is in the queue, after all the buffers to write. */
  ghost predicate StoppedLast(queue: seq<FromEngine>) {
    exists k :: IsTheStop(queue, k)
  }

  ghost predicate IsTheStop(queue: seq<FromEngine>, k: nat) {
    && k < |queue| && queue[k] == RecordingStopped
    && (forall i :: 0 <= i < |queue| && queue[i] == RecordingStopped ==> i == k)
    && (forall i :: k < i < |queue| ==> !IsWrite(queue[i]))
  }

  /** Each file, together with the frames under way, is as long as its clip says, plus `extra`, if nothing went unrecorded. */
  ghost predicate Accounted(s: State, size: nat, extra: int) {
    && |s.files| == |s.clips|
    && (!s.unrecorded ==> forall i :: 0 <= i < |s.files| ==> s.files[i] + UnderWay(s, size) == End(s.clips[i]) + extra)
  }

  /** The engine is not recording, or is about to stop. */
  ghost predicate NotRecording(s: State) {
    !BusyRecording(s.engine) && (s.recording ==> s.engine == Ending)
  }

  ghost predicate NothingUnderWay(s: State) {
    Writes(s.fromEngine) + InHand(s.activity) == 0 && NotStopped(s.fromEngine)
  }

  ghost predicate Inv(s: State, size: nat) {
    match s.session
    case NoSession =>
      !s.open && NotRecording(s) && NothingUnderWay(s) && NoStart(s.toEngine) && !s.engine.Starting?
    case Requested =>
      && s.open && NotRecording(s) && NothingUnderWay(s) && (forall i :: 0 <= i < |s.files| ==> s.files[i] == 0)
      && (if s.engine.Starting? then NoStart(s.toEngine) && s.engine.tracks == |s.files|
          else NoStart(s.toEngine) || OneStart(s.toEngine, |s.files|))
    case Active =>
      && s.open && s.recording && s.engine != Ending && !s.engine.Starting? && NoStart(s.toEngine) && NotStopped(s.fromEngine)
      && Accounted(s, size, if s.engine == Sent then size else 0)
    case Stopping =>
      && s.open && NotRecording(s) && !s.engine.Starting? && NoStart(s.toEngine) && (NotStopped(s.fromEngine) || StoppedLast(s.fromEngine))
      && Accounted(s, size, 0)
  }

  // ---------------------------------------------------------------- each step keeps it

  /** Steps that touch nothing the invariant speaks of. */
  lemma Unrelated(s: State, s': State, size: nat)
    requires Inv(s, size)
    requires s'.engine == s.engine && s'.recording == s.recording && s'.clips == s.clips && s'.files == s.files
    requires s'.toEngine == s.toEngine && s'.fromEngine == s.fromEngine && s'.activity == s.activity
    requires s'.open == s.open && s'.session == s.session && s'.unrecorded == s.unrecorded
    ensures Inv(s', size)
  {
  }

  /** Frames that are under way may move on to the other thread. */
  lemma AccountKept(s: State, s': State, size: nat)
    requires s'.files == s.files && s'.clips == s.clips && s'.unrecorded == s.unrecorded
    requires Writes(s'.fromEngine) + InHand(s'.activity) == Writes(s.fromEngine) + InHand(s.activity)
    ensures Accounted(s, size, 0) ==> Accounted(s', size, 0)
    ensures Accounted(s, size, size) ==> Accounted(s', size, size)
  {
    hide Writes, InHand;
  }

  /** Nothing differs that the invariant speaks of, apart from the queues. */
  ghost predicate Alike(s: State, s': State) {
    && s'.engine == s.engine && s'.recording == s.recording && s'.clips == s.clips && s'.files == s.files
    && InHand(s'.activity) == InHand(s.activity) && s'.open == s.open && s'.session == s.session && s'.unrecorded == s.unrecorded
  }

  /** A message from the engine that is no buffer to write and not the end, dropped or not. */
  lemma NewsKeepsInv(s: State, s': State, size: nat, message: FromEngine)
    requires Inv(s, size) && Alike(s, s') && s'.toEngine == s.toEngine && !IsWrite(message) && message != RecordingStopped
    requires s'.fromEngine == s.fromEngine || s'.fromEngine == s.fromEngine + [message]
    ensures Inv(s', size)
  {
    EnqueueNews(s.fromEngine, message);
    hide Writes, NoStart, OneStart, NotStopped, StoppedLast, Accounted, IsWrite, InHand;
    AccountKept(s, s', size);
  }

  /** A message to the engine that is not the start of a recording, dropped or not. */
  lemma CommandedKeepsInv(s: State, s': State, size: nat, message: ToEngine)
    requires Inv(s, size) && Alike(s, s') && s'.fromEngine == s.fromEngine && !message.StartRecording?
    requires s'.toEngine == s.toEngine || s'.toEngine == s.toEngine + [message]
    ensures Inv(s', size)
  {
    EnqueueCommand(s.toEngine, message, |s.files|);
    hide Writes, NoStart, OneStart, NotStopped, StoppedLast, Accounted, InHand;
    AccountKept(s, s', size);
  }

  lemma DequeueStart(queue: seq<ToEngine>, tracks: nat)
    requires queue != []
    ensures NoStart(queue) ==> !queue[0].StartRecording? && NoStart(queue[1..])
    ensures OneStart(queue, tracks) ==>
              if queue[0].StartRecording? then queue[0].tracks == tracks && NoStart(queue[1..])
              else OneStart(queue[1..], tracks)
  {
    if OneStart(queue, tracks) {
      var k: nat :| IsTheStart(queue, k, tracks);
      if k > 0 {
        assert IsTheStart(queue[1..], k - 1, tracks);
      }
    }
  }

  lemma EnqueueCommand(queue: seq<ToEngine>, message: ToEngine, tracks: nat)
    requires !message.StartRecording?
    ensures NoStart(queue) ==> NoStart(queue + [message])
    ensures OneStart(queue, tracks) ==> OneStart(queue + [message], tracks)
  {
    if OneStart(queue, tracks) {
      var k: nat :| IsTheStart(queue, k, tracks);
      assert IsTheStart(queue + [message], k, tracks);
    }
  }

  /** What a message from the engine that is neither a buffer to write nor the end does to its queue. */
  lemma EnqueueNews(queue: seq<FromEngine>, message: FromEngine)
    requires !IsWrite(message) && message != RecordingStopped
    ensures Writes(queue + [message]) == Writes(queue)
    ensures NotStopped(queue) ==> NotStopped(queue + [message])
    ensures StoppedLast(queue) ==> StoppedLast(queue + [message])
  {
    WritesAppend(queue, message);
    if StoppedLast(queue) {
      var k: nat :| IsTheStop(queue, k);
      assert IsTheStop(queue + [message], k);
    }
  }

  lemma EnqueueStop(queue: seq<FromEngine>)
    requires NotStopped(queue)
    ensures Writes(queue + [RecordingStopped]) == Writes(queue) && StoppedLast(queue + [RecordingStopped])
  {
    WritesAppend(queue, RecordingStopped);
    assert IsTheStop(queue + [RecordingStopped], |queue|);
  }

  lemma DequeueNews(queue: seq<FromEngine>)
    requires queue != []
    ensures Writes(queue) == (if IsWrite(queue[0]) then 1 else 0) + Writes(queue[1..])
    ensures NotStopped(queue) ==> queue[0] != RecordingStopped && NotStopped(queue[1..])
    ensures StoppedLast(queue) ==>
              if queue[0] == RecordingStopped then NotStopped(queue[1..]) && Writes(queue[1..]) == 0
              else StoppedLast(queue[1..])
  {
    if StoppedLast(queue) {
      var k: nat :| IsTheStop(queue, k);
      if k > 0 {
        assert IsTheStop(queue[1..], k - 1);
      } else {
        WritesNone(queue[1..]);
      }
    }
  }

  /** Taking a message that is not a request to record. */
  lemma DequeueKeepsInv(s: State, size: nat)
    requires Inv(s, size) && s.toEngine != [] && !s.toEngine[0].StartRecording? && !s.engine.Starting?
    ensures Inv(s.(toEngine := s.toEngine[1..]), size)
  {
    hide Writes, NoStart, OneStart, NotStopped, StoppedLast, AfterFree, InToEngine, InFromEngine, InRecords;
    DequeueStart(s.toEngine, |s.files|);
  }

  lemma TakeStartKeepsInv(s: State, size: nat)
    requires Inv(s, size) && s.engine == Ready && s.toEngine != [] && s.toEngine[0].StartRecording?
    ensures Inv(s.(toEngine := s.toEngine[1..], engine := Starting(s.toEngine[0].supply, s.toEngine[0].tracks)), size)
  {
    hide Writes, NoStart, OneStart, NotStopped, StoppedLast, AfterFree, InToEngine, InFromEngine, InRecords;
    DequeueStart(s.toEngine, |s.files|);
  }

  lemma StopSessionKeepsInv(s: State, size: nat, drop: bool)
    requires Inv(s, size) && s.recording && (s.engine == Ready || s.engine == Updated)
    ensures Inv(StopSession(s, drop), size)
  {
    hide Writes, NoStart, OneStart, NotStopped, StoppedLast, AfterFree, InToEngine, InFromEngine, InRecords;
    if s.session == Active {
      EnqueueStop(s.fromEngine);
    }
  }

  lemma CheckpointKeepsInv(s: State, size: nat, drop: bool, stopIn: nat)
    requires Inv(s, size)
    ensures Inv(SendFrom(s, RecordingCheckpoint, drop).(stopIn := stopIn), size)
  {
    hide Inv, InFromEngine;
    NewsKeepsInv(s, SendFrom(s, RecordingCheckpoint, drop).(stopIn := stopIn), size, RecordingCheckpoint);
  }

  lemma HandleKeepsInv(s: State, size: nat, drop: bool)
    requires Inv(s, size) && s.engine == Ready && s.toEngine != []
    ensures Inv(AfterHandle(s, drop), size)
  {
    hide Inv, AfterFree, SendFrom, StopSession;
    var rest := s.(toEngine := s.toEngine[1..]);
    match s.toEngine[0]
    case StartRecording(_, _) => TakeStartKeepsInv(s, size);
    case Stop =>
      DequeueKeepsInv(s, size);
      CheckpointKeepsInv(rest, size, drop, RECORDING_BUFFERS_OFFSET + 1);
    case Pause =>
      DequeueKeepsInv(s, size);
      if s.recording {
        StopSessionKeepsInv(rest, size, drop);
      }
    case Resupply(_) =>
      DequeueKeepsInv(s, size);
      Unrelated(rest, AfterHandle(s, drop), size);
  }

  /** The first recorded frame is frame 0 of the clips and of the files. */
  lemma StartKeepsInv(s: State, size: nat, tracks: nat)
    requires Inv(s, size) && s.engine.Starting? && s.engine.tracks == tracks
    ensures Inv(AfterStart(s, tracks), size)
  {
    hide Writes, NoStart, OneStart, NotStopped, StoppedLast, AfterFree, InToEngine, InFromEngine, InRecords, InHand, Accounted;
    assert s.session == Requested;
    StartAccounted(s, size, tracks);
  }

  lemma StartAccounted(s: State, size: nat, tracks: nat)
    requires Writes(s.fromEngine) + InHand(s.activity) == 0 && |s.files| == tracks
    requires forall i :: 0 <= i < |s.files| ==> s.files[i] == 0
    ensures Accounted(AfterStart(s, tracks), size, 0)
  {
    hide Writes, InHand;
    assert size * 0 == 0;
  }

  lemma SupplyKeepsInv(s: State, size: nat)
    requires Inv(s, size) && s.engine.Starting? && s.engine.supply != []
    ensures Inv(AfterSupply(s, s.engine.supply[0], s.engine.supply[1..], s.engine.tracks), size)
  {
    hide Writes, NoStart, OneStart, NotStopped, StoppedLast, AfterFree, InToEngine, InFromEngine, InRecords;
  }

  lemma TakeKeepsInv(s: State, size: nat, armed: seq<nat>)
    requires Inv(s, size) && s.engine == Ready && s.recording
    ensures Inv(AfterTake(s, armed), size)
  {
    hide Writes, NoStart, OneStart, NotStopped, StoppedLast, AfterFree, InToEngine, InFromEngine, InRecords;
  }

  lemma AddKeepsInv(s: State, size: nat, record: RecordBuffers, channels: seq<nat>)
    requires Inv(s, size) && s.engine == Adding(record, channels) && channels != [] && channels[0] < |s.pool.capture|
    ensures Inv(AfterAdd(s, record, channels), size)
  {
    hide Writes, NoStart, OneStart, NotStopped, StoppedLast, AfterFree, InToEngine, InFromEngine, InRecords;
  }

  /** A buffer sent is a buffer more under way. */
  lemma SendKeepsInv(s: State, size: nat, record: RecordBuffers, drop: bool)
    requires Inv(s, size) && s.engine.Adding?
    ensures Inv(AfterSend(s, record, drop), size)
  {
    var message := Continue(record.(phase := Writing));
    WritesAppend(s.fromEngine, message);
    NotStoppedAppend(s.fromEngine, message);
    hide Writes, NoStart, OneStart, NotStopped, StoppedLast, AfterFree, InToEngine, InFromEngine, InRecords;
    assert size * (Writes(s.fromEngine) + InHand(s.activity) + 1)
        == size * (Writes(s.fromEngine) + InHand(s.activity)) + size;
  }

  lemma NotStoppedAppend(queue: seq<FromEngine>, message: FromEngine)
    requires message != RecordingStopped
    ensures NotStopped(queue) ==> NotStopped(queue + [message])
  {
  }

  lemma UpdateKeepsInv(s: State, size: nat)
    requires Inv(s, size) && s.engine == Sent
    ensures Inv(AfterUpdate(s, size), size)
  {
    hide Writes, NoStart, OneStart, NotStopped, StoppedLast, AfterFree, InToEngine, InFromEngine, InRecords;
  }

  /** Cutting the start of a clip off does not move its end. */
  lemma CountDownKeepsInv(s: State, size: nat, drop: bool)
    requires Inv(s, size) && s.engine == Updated && s.recording
    ensures Inv(AfterCountDown(s, size, drop), size)
  {
    if s.stopIn == 1 {
      var cut := s.(stopIn := 0, clips := CutOff(s.clips, RECORDING_BUFFERS_OFFSET * size));
      CutKeepsInv(s, cut, size, RECORDING_BUFFERS_OFFSET * size);
      hide Inv, StopSession, CutOff;
      StopSessionKeepsInv(cut, size, drop);
    } else {
      hide Writes, NoStart, OneStart, NotStopped, StoppedLast, AfterFree, InToEngine, InFromEngine, InRecords;
    }
  }

  lemma CutKeepsInv(s: State, cut: State, size: nat, frames: int)
    requires Inv(s, size) && s.engine == Updated && cut == s.(stopIn := 0, clips := CutOff(s.clips, frames))
    ensures Inv(cut, size)
  {
    hide Writes, NoStart, OneStart, NotStopped, StoppedLast, AfterFree, InToEngine, InFromEngine, InRecords;
  }

  lemma DisposeKeepsInv(s: State, size: nat, drop: bool)
    requires Inv(s, size) && s.engine == Ending && s.freeRecords != []
    ensures Inv(AfterDispose(s, drop), size)
  {
    hide Inv, InFromEngine, AfterFree;
    NewsKeepsInv(s, AfterDispose(s, drop), size, Continue(s.freeRecords[0].(phase := Disposing, buffers := [])));
  }

  lemma EndKeepsInv(s: State, size: nat)
    requires Inv(s, size) && s.engine == Ending
    ensures Inv(AfterEnd(s), size)
  {
    hide Writes, NoStart, OneStart, NotStopped, StoppedLast, AfterFree, InToEngine, InFromEngine, InRecords;
  }

  lemma RequestKeepsInv(s: State, size: nat, tracks: nat, drop: bool)
    requires Inv(s, size) && s.activity == Idle && !s.open
    ensures Inv(AfterRequest(s, tracks, drop), size)
  {
    if !drop {
      assert NoStart(s.toEngine);
      assert IsTheStart(s.toEngine + [StartRecording(s.preparing, tracks)], |s.toEngine|, tracks);
    }
    hide Writes, NoStart, NotStopped, StoppedLast, InToEngine;
  }

  lemma CommandKeepsInv(s: State, size: nat, message: ToEngine, drop: bool)
    requires Inv(s, size) && !message.StartRecording?
    ensures Inv(SendTo(s, message, drop), size)
  {
    hide Inv, InToEngine;
    CommandedKeepsInv(s, SendTo(s, message, drop), size, message);
  }

  lemma ReceiveKeepsInv(s: State, size: nat)
    requires Inv(s, size) && s.activity == Idle && s.fromEngine != []
    ensures Inv(AfterReceive(s), size)
  {
    if s.fromEngine[0] == RecordingStopped {
      ReceiveStopKeepsInv(s, size);
    } else {
      ReceiveNewsKeepsInv(s, size);
    }
  }

  lemma ReceiveStopKeepsInv(s: State, size: nat)
    requires Inv(s, size) && s.activity == Idle && s.fromEngine != [] && s.fromEngine[0] == RecordingStopped
    ensures Inv(AfterReceive(s), size)
  {
    DequeueNews(s.fromEngine);
    hide Writes, NoStart, OneStart, NotStopped, StoppedLast, Accounted;
  }

  lemma ReceiveNewsKeepsInv(s: State, size: nat)
    requires Inv(s, size) && s.activity == Idle && s.fromEngine != [] && s.fromEngine[0] != RecordingStopped
    ensures Inv(AfterReceive(s), size)
  {
    DequeueNews(s.fromEngine);
    hide Writes, NoStart, OneStart, NotStopped, StoppedLast, Accounted;
    AccountKept(s, AfterReceive(s), size);
  }

  /** A buffer written is a buffer less under way. */
  lemma WriteKeepsInv(s: State, size: nat, record: RecordBuffers)
    requires Inv(s, size) && s.activity == Holding(record)
    ensures Inv(AfterWrite(s, size, record), size)
  {
    hide InRecord;
    if record.phase == Writing {
      FileKeepsInv(s, size, record);
    } else {
      hide Inv;
      CommandedKeepsInv(s, AfterWrite(s, size, record), size, Resupply(record));
    }
  }

  lemma FileKeepsInv(s: State, size: nat, record: RecordBuffers)
    requires Inv(s, size) && s.activity == Holding(record) && record.phase == Writing
    ensures Inv(AfterWrite(s, size, record), size)
  {
    hide Writes, NoStart, OneStart, NotStopped, StoppedLast, AfterFree, InToEngine, InFromEngine, InRecords;
    assert size * (Writes(s.fromEngine) + 1) == size * Writes(s.fromEngine) + size;
  }

  lemma SendBackKeepsInv(s: State, size: nat, record: RecordBuffers, drop: bool)
    requires Inv(s, size) && s.activity == Returning(record)
    ensures Inv(AfterSendBack(s, record, drop), size)
  {
    hide Inv, InToEngine;
    CommandedKeepsInv(s, AfterSendBack(s, record, drop), size, Resupply(record));
  }

  lemma StepKeepsInv(s: State, size: nat, step: Step)
    requires Inv(s, size) && Lengths(s, size) && Enabled(s, step)
    ensures Inv(Next(s, size, step), size)
  {
    hide Inv, AfterHandle, AfterSupply, AfterStart, AfterTake, AfterAdd, AfterSend, AfterUpdate, AfterCountDown, AfterDispose,
         AfterEnd, AfterRequest, SendTo, AfterReceive, AfterWrite, AfterSendBack, AfterFree;
    match step
    case HandleMessage(drop) => HandleKeepsInv(s, size, drop);
    case Supply => SupplyKeepsInv(s, size);
    case StartSession => StartKeepsInv(s, size, s.engine.tracks);
    case TakeRecord(armed) => TakeKeepsInv(s, size, armed);
    case AddChannel => AddKeepsInv(s, size, s.engine.record, s.engine.channels);
    case SendRecord(drop) => SendKeepsInv(s, size, s.engine.record, drop);
    case UpdateClips => UpdateKeepsInv(s, size);
    case CountDown(drop) => CountDownKeepsInv(s, size, drop);
    case DisposeRecord(drop) => DisposeKeepsInv(s, size, drop);
    case EndRecording => EndKeepsInv(s, size);
    case RequestRecording(tracks, drop) => RequestKeepsInv(s, size, tracks, drop);
    case RequestStop(drop) => CommandKeepsInv(s, size, Stop, drop);
    case RequestPause(drop) => CommandKeepsInv(s, size, Pause, drop);
    case Receive => ReceiveKeepsInv(s, size);
    case Write => WriteKeepsInv(s, size, s.activity.record);
    case SendBack(drop) => SendBackKeepsInv(s, size, s.activity.record, drop);
    case Delete => DeleteKeepsInv(s, size, s.activity.record);
    case SendOther(drop) => OtherKeepsInv(s, size, drop);
    case _ => Unrelated(s, Next(s, size, step), size);
  }

  lemma OtherKeepsInv(s: State, size: nat, drop: bool)
    requires Inv(s, size) && s.engine == Ready
    ensures Inv(AfterOther(s, drop), size)
  {
    hide Inv;
    NewsKeepsInv(s, AfterOther(s, drop), size, Other);
  }

  lemma DeleteKeepsInv(s: State, size: nat, record: RecordBuffers)
    requires Inv(s, size) && s.activity == Deleting(record)
    ensures Inv(AfterDelete(s, record), size)
  {
    hide Inv, InRecord;
    CommandedKeepsInv(s, AfterDelete(s, record), size, Resupply(record));
  }

  // ---------------------------------------------------------------- clip lengths

  /** While a stop is counting down, the clips are long enough for what will be cut off. */
  ghost predicate Lengths(s: State, size: nat) {
    && (BusyRecording(s.engine) ==> s.recording)
    && (forall i :: 0 <= i < |s.clips| ==> 0 <= s.clips[i].fileStart && 0 <= s.clips[i].length)
    && (s.recording && s.engine != Ending && s.stopIn > 0 ==>
          && s.stopIn <= RECORDING_BUFFERS_OFFSET + 1
          && forall i :: 0 <= i < |s.clips| ==> Recorded(s, size) <= s.clips[i].length)
  }

  /** What has been recorded, at least, since the stop. */
  function Recorded(s: State, size: nat): int {
    (RECORDING_BUFFERS_OFFSET + 1 - s.stopIn) * size + (if s.engine == Updated then size else 0)
  }

  lemma CountDownKeepsLengths(s: State, size: nat, drop: bool)
    requires Lengths(s, size) && s.engine == Updated
    ensures Lengths(AfterCountDown(s, size, drop), size)
    ensures s.stopIn == 1 ==> forall i :: 0 <= i < |s.clips| ==> RECORDING_BUFFERS_OFFSET * size <= s.clips[i].length
  {
    hide InFromEngine, SendFrom;
    SendFromLengths(s.(stopIn := 0, clips := CutOff(s.clips, RECORDING_BUFFERS_OFFSET * size)), RecordingStopped, drop);
    if s.stopIn > 0 {
      assert (RECORDING_BUFFERS_OFFSET + 1 - (s.stopIn - 1)) * size == (RECORDING_BUFFERS_OFFSET + 1 - s.stopIn) * size + size;
    }
  }

  lemma SameLengths(s: State, s': State, size: nat)
    requires Lengths(s, size) && s'.clips == s.clips
    requires s'.recording == s.recording && s'.stopIn == s.stopIn
    requires BusyRecording(s'.engine) ==> s.recording
    requires s'.engine == Ending || (s.engine != Ending && s'.engine != Updated)
      || (s'.engine == s.engine)
    ensures Lengths(s', size)
  {
  }

  lemma StopKeepsLengths(s: State, size: nat, drop: bool)
    requires Lengths(s, size) && s.engine == Ready
    ensures Lengths(SendFrom(s, RecordingCheckpoint, drop).(stopIn := RECORDING_BUFFERS_OFFSET + 1), size)
  {
    hide InFromEngine, AfterFree;
    assert 0 * size == 0;
  }

  lemma HandleKeepsLengths(s: State, size: nat, drop: bool)
    requires Lengths(s, size) && s.engine == Ready && s.toEngine != []
    ensures Lengths(AfterHandle(s, drop), size)
  {
    hide Lengths, AfterFree, SendFrom;
    var rest := s.(toEngine := s.toEngine[1..]);
    SameLengths(s, rest, size);
    if s.toEngine[0].Stop? && s.recording {
      StopKeepsLengths(rest, size, drop);
    } else if s.toEngine[0].Pause? && s.recording {
      SendFromLengths(rest, RecordingStopped, drop);
      SameLengths(s, AfterHandle(s, drop), size);
    } else {
      HandleIsQuiet(s, drop);
      SameLengths(s, AfterHandle(s, drop), size);
    }
  }

  lemma BusyMeansRecording(s: State, size: nat)
    requires Lengths(s, size)
    ensures BusyRecording(s.engine) ==> s.recording
  {
  }

  lemma UpdateKeepsLengths(s: State, size: nat)
    requires Lengths(s, size) && s.engine == Sent
    ensures Lengths(AfterUpdate(s, size), size)
  {
  }

  lemma SendFromLengths(s: State, message: FromEngine, drop: bool)
    ensures var s' := SendFrom(s, message, drop);
            s'.clips == s.clips && s'.recording == s.recording && s'.stopIn == s.stopIn && s'.engine == s.engine
  {
    hide InFromEngine;
  }

  // ---------------------------------------------------------------- steps that leave the recording alone

  /** No clip and no count changes, and no recording begins, ends or is between a buffer and its count. */
  ghost predicate Quiet(s: State, s': State) {
    && s'.clips == s.clips && s'.recording == s.recording && s'.stopIn == s.stopIn
    && (BusyRecording(s'.engine) ==> s.recording)
    && (s'.engine == s.engine || (s.engine != Ending && s.engine != Updated && s'.engine != Ending && s'.engine != Updated))
  }

  predicate HandsOver(step: Step) {
    step.Supply? || step.TakeRecord? || step.AddChannel? || step.SendRecord? || step.DisposeRecord?
  }

  lemma SupplyIsQuiet(s: State, record: RecordBuffers, rest: seq<RecordBuffers>, tracks: nat)
    requires s.engine.Starting?
    ensures Quiet(s, AfterSupply(s, record, rest, tracks))
  {
    hide AfterFree;
  }

  lemma TakeIsQuiet(s: State, armed: seq<nat>)
    requires s.engine == Ready && s.recording
    ensures Quiet(s, AfterTake(s, armed))
  {
  }

  lemma AddIsQuiet(s: State, record: RecordBuffers, channels: seq<nat>)
    requires s.engine.Adding? && s.recording && channels != [] && channels[0] < |s.pool.capture|
    ensures Quiet(s, AfterAdd(s, record, channels))
  {
  }

  lemma SendIsQuiet(s: State, record: RecordBuffers, drop: bool)
    requires s.engine.Adding? && s.recording
    ensures Quiet(s, AfterSend(s, record, drop))
  {
    hide SendFrom;
    SendFromLengths(s, Continue(record.(phase := Writing)), drop);
  }

  lemma DisposeIsQuiet(s: State, drop: bool)
    requires s.engine == Ending && s.freeRecords != []
    ensures Quiet(s, AfterDispose(s, drop))
  {
    hide SendFrom, AfterFree;
    var record := s.freeRecords[0];
    var rest := s.(pool := s.pool.(free := AfterFree(s.pool.free, record.buffers)), freeRecords := s.freeRecords[1..]);
    SendFromLengths(rest, Continue(record.(phase := Disposing, buffers := [])), drop);
  }

  /** Steps of the engine that pass a `RecordBuffers` on. */
  lemma HandOverIsQuiet(s: State, size: nat, step: Step)
    requires Enabled(s, step) && HandsOver(step) && (BusyRecording(s.engine) ==> s.recording)
    ensures Quiet(s, Next(s, size, step))
  {
    hide Quiet, AfterFree, SendFrom, AfterSupply, AfterTake, AfterAdd, AfterSend, AfterDispose, AfterHandle, AfterStart, AfterUpdate,
         AfterCountDown, AfterEnd, AfterRequest, SendTo, AfterReceive, AfterWrite, AfterSendBack, AfterDelete;
    match step
    case Supply => SupplyIsQuiet(s, s.engine.supply[0], s.engine.supply[1..], s.engine.tracks);
    case TakeRecord(armed) => TakeIsQuiet(s, armed);
    case AddChannel => AddIsQuiet(s, s.engine.record, s.engine.channels);
    case SendRecord(drop) => SendIsQuiet(s, s.engine.record, drop);
    case DisposeRecord(drop) => DisposeIsQuiet(s, drop);
  }

  /** So do all messages to the engine but those to stop and to pause a recording. */
  lemma HandleIsQuiet(s: State, drop: bool)
    requires s.engine == Ready && s.toEngine != []
    requires s.recording ==> !s.toEngine[0].Stop? && !s.toEngine[0].Pause?
    ensures Quiet(s, AfterHandle(s, drop))
  {
    hide AfterFree, SendFrom;
  }

  predicate InOtherThread(step: Step) {
    || step.PrepareRecord? || step.RequestRecording? || step.RequestStop? || step.RequestPause?
    || step.Receive? || step.Write? || step.SendBack? || step.Delete?
  }

  /** The fields that only the engine changes. */
  ghost predicate Leaves(s: State, s': State) {
    s'.clips == s.clips && s'.recording == s.recording && s'.stopIn == s.stopIn && s'.engine == s.engine
  }

  lemma SendToLeaves(s: State, message: ToEngine, drop: bool)
    ensures Leaves(s, SendTo(s, message, drop))
  {
    hide InToEngine;
  }

  lemma RequestLeaves(s: State, tracks: nat, drop: bool)
    ensures Leaves(s, AfterRequest(s, tracks, drop))
  {
    hide SendTo;
    SendToLeaves(s, StartRecording(s.preparing, tracks), drop);
  }

  lemma ReceiveLeaves(s: State)
    requires s.fromEngine != []
    ensures Leaves(s, AfterReceive(s))
  {
  }

  lemma WriteLeaves(s: State, size: nat, record: RecordBuffers)
    ensures Leaves(s, AfterWrite(s, size, record))
  {
    hide InRecord;
  }

  lemma SendBackLeaves(s: State, record: RecordBuffers, drop: bool)
    ensures Leaves(s, AfterSendBack(s, record, drop))
  {
    hide SendTo;
    SendToLeaves(s, Resupply(record), drop);
  }

  lemma OtherThreadLeaves(s: State, size: nat, step: Step)
    requires Enabled(s, step) && InOtherThread(step)
    ensures Leaves(s, Next(s, size, step))
  {
    hide SendTo, InRecord, AfterHandle, AfterSupply, AfterStart, AfterTake, AfterAdd, AfterSend, AfterCountDown, AfterDispose,
         AfterWrite, AfterRequest, AfterReceive, AfterSendBack;
    match step
    case RequestRecording(tracks, drop) => RequestLeaves(s, tracks, drop);
    case RequestStop(drop) => SendToLeaves(s, Stop, drop);
    case RequestPause(drop) => SendToLeaves(s, Pause, drop);
    case Receive => ReceiveLeaves(s);
    case Write => WriteLeaves(s, size, s.activity.record);
    case SendBack(drop) => SendBackLeaves(s, s.activity.record, drop);
    case PrepareRecord =>
    case Delete =>
  }

  predicate IsCore(step: Step) {
    step.HandleMessage? || step.StartSession? || step.UpdateClips? || step.CountDown? || step.EndRecording?
  }

  lemma StepIsQuiet(s: State, size: nat, step: Step)
    requires Enabled(s, step) && !IsCore(step) && (BusyRecording(s.engine) ==> s.recording)
    ensures Quiet(s, Next(s, size, step))
  {
    if HandsOver(step) {
      HandOverIsQuiet(s, size, step);
    } else if InOtherThread(step) {
      hide Next;
      OtherThreadLeaves(s, size, step);
    } else {
      PoolStepIsQuiet(s, size, step);
    }
  }

  lemma PoolStepIsQuiet(s: State, size: nat, step: Step)
    requires Enabled(s, step) && !IsCore(step) && !HandsOver(step) && !InOtherThread(step) && (BusyRecording(s.engine) ==> s.recording)
    ensures Quiet(s, Next(s, size, step))
  {
    hide AfterHandle, AfterSupply, AfterStart, AfterTake, AfterAdd, AfterSend, AfterUpdate, AfterCountDown, AfterDispose, AfterEnd,
         AfterRequest, SendTo, AfterReceive, AfterWrite, AfterSendBack, AfterDelete, AfterFree;
  }

  lemma CoreKeepsLengths(s: State, size: nat, step: Step)
    requires Lengths(s, size) && Enabled(s, step) && IsCore(step)
    ensures Lengths(Next(s, size, step), size)
  {
    hide Lengths, AfterHandle, AfterUpdate, AfterCountDown, AfterStart, AfterEnd;
    match step
    case HandleMessage(drop) => HandleKeepsLengths(s, size, drop);
    case UpdateClips => UpdateKeepsLengths(s, size);
    case CountDown(drop) => CountDownKeepsLengths(s, size, drop);
    case StartSession => StartKeepsLengths(s, size, s.engine.tracks);
    case EndRecording => EndKeepsLengths(s, size);
  }

  lemma StepKeepsLengths(s: State, size: nat, step: Step)
    requires Lengths(s, size) && Enabled(s, step)
    ensures Lengths(Next(s, size, step), size)
  {
    hide Lengths, Next;
    if IsCore(step) {
      CoreKeepsLengths(s, size, step);
    } else {
      BusyMeansRecording(s, size);
      StepIsQuiet(s, size, step);
      SameLengths(s, Next(s, size, step), size);
    }
  }

  lemma StartKeepsLengths(s: State, size: nat, tracks: nat)
    requires Lengths(s, size) && s.engine.Starting?
    ensures Lengths(AfterStart(s, tracks), size)
  {
  }

  lemma EndKeepsLengths(s: State, size: nat)
    requires Lengths(s, size) && s.engine == Ending
    ensures Lengths(AfterEnd(s), size)
  {
  }

  // ---------------------------------------------------------------- whole runs

  lemma {:induction false} RunKeepsInv(states: seq<State>, size: nat, steps: seq<Step>, k: nat)
    requires IsRun(states, size, steps) && k < |states|
    ensures Inv(states[k], size) && Lengths(states[k], size)
  {
    if k > 0 {
      RunKeepsInv(states, size, steps, k - 1);
      StepKeepsInv(states[k - 1], size, steps[k - 1]);
      StepKeepsLengths(states[k - 1], size, steps[k - 1]);
    }
  }

  /**
    Recording consistency.  Whenever the other thread receives `RecordingStopped`, after
    a stop or a pause, every file holds as many frames as its clip's start in the file
    plus its length, if there was a free `RecordBuffers` for each buffer since that
    recording began and none of them was dropped.  Whatever else was dropped does not
    matter, nor what happened in earlier recordings.
   */
  lemma FilesMatchClips(states: seq<State>, size: nat, steps: seq<Step>, k: nat)
    requires IsRun(states, size, steps) && k < |steps|
    requires steps[k] == Receive && states[k].fromEngine[0] == RecordingStopped
    requires !states[k].unrecorded
    ensures |states[k].files| == |states[k].clips|
    ensures forall i :: 0 <= i < |states[k].files| ==>
              states[k].files[i] == states[k].clips[i].fileStart + states[k].clips[i].length
  {
    RunKeepsInv(states, size, steps, k);
    DequeueNews(states[k].fromEngine);
    assert size * 0 == 0;
  }

  /** Cutting off the start of a clip never makes its length negative, whatever was dropped. */
  lemma LengthNeverUnderflows(states: seq<State>, size: nat, steps: seq<Step>, k: nat, i: nat)
    requires IsRun(states, size, steps) && k < |states| && i < |states[k].clips|
    ensures 0 <= states[k].clips[i].length && 0 <= states[k].clips[i].fileStart
  {
    RunKeepsInv(states, size, steps, k);
  }
}
