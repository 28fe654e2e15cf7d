/**
  Recording across the two threads.  Each time the engine processes a buffer it puts
  the captured audio buffers into a `RecordBuffers` and sends that to the other
  thread, which writes it to the files and sends it back to be emptied and reused.

  A run is any interleaving of the engine's and the other thread's steps.  A send to a
  full queue is dropped; here any send may be dropped.  What only one thread at a time
  can reach moves along with the reference to it: a message carries the contents of
  its `RecordBuffers`.  Buffers are numbered from 1; 0 is null.
 */
module Recording {

  /** How many buffers the recording lags behind, and so how much of its start is cut off. */
  const RECORDING_BUFFERS_OFFSET: nat := 2

  /** The states of a `RecordBuffers`. */
  datatype Phase = Filling | Writing | Resupplying | Disposing | Done

  datatype RecordBuffers = RecordBuffers(id: nat, phase: Phase, buffers: seq<nat>)

  datatype Clip = Clip(fileStart: int, length: int)

  datatype ToEngine = StartRecording(supply: seq<RecordBuffers>, tracks: nat) | Stop | Pause | Resupply(record: RecordBuffers)

  /** `Other` is any message that is not about recording, as those that playing has stopped. */
  datatype FromEngine = Continue(record: RecordBuffers) | RecordingStopped | RecordingCheckpoint | Other

  /** Where the engine is. */
  datatype Engine =
    | Ready
    | Starting(supply: seq<RecordBuffers>, tracks: nat)       // in start_recording
    | Adding(record: RecordBuffers, channels: seq<nat>)       // in run_recording: filling
    | Sent                                                    //   sent, or none were free
    | Updated                                                 //   clips updated
    | Ending                                                  // RecordingStopped sent, disposing

  /** What the other thread is doing. */
  datatype Activity = Idle | Holding(record: RecordBuffers) | Returning(record: RecordBuffers) | Deleting(record: RecordBuffers)

  /** Where a recording is, from the request to the closing of its files. */
  datatype Session = NoSession | Requested | Active | Stopping

  /** The engine's buffers: free, newly built, one per capture channel, and in use. */
  datatype Pool = Pool(count: nat, free: seq<nat>, chain: seq<nat>, capture: seq<nat>, borrowed: seq<nat>)

  /** A buffer or a `RecordBuffers`. */
  datatype Thing = Buffer(buffer: nat) | Record(id: nat)

  datatype State = State(
    pool: Pool, freeRecords: seq<RecordBuffers>, engine: Engine,
    recording: bool, stopIn: nat, clips: seq<Clip>,
    toEngine: seq<ToEngine>, fromEngine: seq<FromEngine>,
    activity: Activity, preparing: seq<RecordBuffers>, records: nat,
    open: bool, files: seq<int>, session: Session,
    // What has gone wrong or away so far; `unrecorded` is about the recording that began last:
    // there was nothing to send a buffer in, or it was dropped on the way to the files.
    starved: bool, dropped: bool, unrecorded: bool, lost: multiset<Thing>, deleted: multiset<Thing>)

  datatype Step =
    // the engine
    | Borrow | GiveBack(index: nat) | Abandon | AddCaptureChannel | InstallChain | SendOther(drop: bool)
    | HandleMessage(drop: bool) | Supply | StartSession
    | TakeRecord(armed: seq<nat>) | AddChannel | SendRecord(drop: bool) | UpdateClips | CountDown(drop: bool)
    | DisposeRecord(drop: bool) | EndRecording
    // the other thread
    | BuildBuffer | PrepareRecord | RequestRecording(tracks: nat, drop: bool) | RequestStop(drop: bool) | RequestPause(drop: bool)
    | Receive | Write | SendBack(drop: bool) | Delete

  // ---------------------------------------------------------------- buffers

  /** `get_buffer`: the first free buffer, or null. */
  function Got(pool: Pool): nat {
    if pool.free == [] then 0 else pool.free[0]
  }

  function AfterGet(pool: Pool): Pool {
    if pool.free == [] then pool else pool.(free := pool.free[1..])
  }

  /** `free_buffer` of each buffer in turn; null is ignored. */
  function AfterFree(free: seq<nat>, buffers: seq<nat>): seq<nat>
    decreases |buffers|
  {
    if buffers == [] then free
    else AfterFree(if buffers[0] == 0 then free else [buffers[0]] + free, buffers[1..])
  }

  // ---------------------------------------------------------------- what is held

  function Slot(buffer: nat): multiset<Thing> {
    if buffer == 0 then multiset{} else multiset{Buffer(buffer)}
  }

  function Buffers(slots: seq<nat>): multiset<Thing> {
    if slots == [] then multiset{} else Slot(slots[0]) + Buffers(slots[1..])
  }

  function InRecord(record: RecordBuffers): multiset<Thing> {
    multiset{Record(record.id)} + Buffers(record.buffers)
  }

  function InRecords(records: seq<RecordBuffers>): multiset<Thing> {
    if records == [] then multiset{} else InRecord(records[0]) + InRecords(records[1..])
  }

  function InToEngine(queue: seq<ToEngine>): multiset<Thing> {
    if queue == [] then multiset{}
    else
      (match queue[0]
       case StartRecording(supply, _) => InRecords(supply)
       case Resupply(record) => InRecord(record)
       case _ => multiset{}) + InToEngine(queue[1..])
  }

  function InFromEngine(queue: seq<FromEngine>): multiset<Thing> {
    if queue == [] then multiset{}
    else (if queue[0].Continue? then InRecord(queue[0].record) else multiset{}) + InFromEngine(queue[1..])
  }

  function InPool(pool: Pool): multiset<Thing> {
    Buffers(pool.free) + Buffers(pool.chain) + Buffers(pool.capture) + Buffers(pool.borrowed)
  }

  function InEngine(engine: Engine): multiset<Thing> {
    match engine
    case Starting(supply, _) => InRecords(supply)
    case Adding(record, _) => InRecord(record)
    case _ => multiset{}
  }

  function InActivity(activity: Activity): multiset<Thing> {
    match activity
    case Idle => multiset{}
    case Holding(record) => InRecord(record)
    case Returning(record) => InRecord(record)
    case Deleting(record) => InRecord(record)
  }

  /** Everything that somebody holds. */
  function Held(s: State): multiset<Thing> {
    InPool(s.pool) + InRecords(s.freeRecords) + InEngine(s.engine) + InToEngine(s.toEngine) + InFromEngine(s.fromEngine)
    + InActivity(s.activity) + InRecords(s.preparing)
  }

  // ---------------------------------------------------------------- the steps

  ghost predicate Enabled(s: State, step: Step) {
    match step
    case Borrow | AddCaptureChannel | InstallChain | SendOther(_) => s.engine == Ready
    case GiveBack(index) => s.engine == Ready && index < |s.pool.borrowed|
    // Output buffers are not given back when another one could not be had.
    case Abandon => s.engine == Ready && s.starved && s.pool.borrowed != []
    case HandleMessage(_) => s.engine == Ready && s.toEngine != []
    case Supply => s.engine.Starting? && s.engine.supply != []
    case StartSession => s.engine.Starting? && s.engine.supply == []
    case TakeRecord(armed) => s.engine == Ready && s.recording && forall i :: 0 <= i < |armed| ==> armed[i] < |s.pool.capture|
    case AddChannel => s.engine.Adding? && s.engine.channels != [] && s.engine.channels[0] < |s.pool.capture|
    case SendRecord(_) => s.engine.Adding? && s.engine.channels == []
    case UpdateClips => s.engine == Sent
    case CountDown(_) => s.engine == Updated
    case DisposeRecord(_) => s.engine == Ending && s.freeRecords != []
    case EndRecording => s.engine == Ending && s.freeRecords == []
    case BuildBuffer => true
    case PrepareRecord => s.activity == Idle && !s.open
    // Only one recording at a time.
    case RequestRecording(_, _) => s.activity == Idle && !s.open
    case RequestStop(_) | RequestPause(_) => s.activity == Idle
    case Receive => s.activity == Idle && s.fromEngine != []
    case Write => s.activity.Holding?
    case SendBack(_) => s.activity.Returning?
    case Delete => s.activity.Deleting?
  }

  function SendFrom(s: State, message: FromEngine, drop: bool): State {
    if drop then s.(dropped := true, lost := s.lost + InFromEngine([message]))
    else s.(fromEngine := s.fromEngine + [message])
  }

  function SendTo(s: State, message: ToEngine, drop: bool): State {
    if drop then s.(dropped := true, lost := s.lost + InToEngine([message]))
    else s.(toEngine := s.toEngine + [message])
  }

  /** A message that is not about recording carries nothing and may as well be dropped. */
  function AfterOther(s: State, drop: bool): State {
    if drop then s else s.(fromEngine := s.fromEngine + [Other])
  }

  /** Announces the end of the recording and goes on to dispose the free `RecordBuffers`. */
  function StopSession(s: State, drop: bool): State {
    SendFrom(s, RecordingStopped, drop).(engine := Ending, session := Stopping)
  }

  function AfterMessage(s: State, message: ToEngine, drop: bool): State {
    match message
    case StartRecording(supply, tracks) => s.(engine := Starting(supply, tracks))
    case Stop =>
      if s.recording then SendFrom(s, RecordingCheckpoint, drop).(stopIn := RECORDING_BUFFERS_OFFSET + 1) else s
    case Pause => if s.recording then StopSession(s, drop) else s
    case Resupply(record) =>
      s.(pool := s.pool.(free := AfterFree(s.pool.free, record.buffers)),
      freeRecords := [record.(phase := Filling, buffers := [])] + s.freeRecords)
  }

  function AfterHandle(s: State, drop: bool): State
    requires s.toEngine != []
  {
    AfterMessage(s.(toEngine := s.toEngine[1..]), s.toEngine[0], drop)
  }

  function AfterSupply(s: State, record: RecordBuffers, rest: seq<RecordBuffers>, tracks: nat): State {
    s.(engine := Starting(rest, tracks), pool := s.pool.(free := AfterFree(s.pool.free, record.buffers)),
    freeRecords := [record.(phase := Filling, buffers := [])] + s.freeRecords)
  }

  /** Clips of no length yet. */
  function NewClips(tracks: nat): seq<Clip> {
    seq(tracks, _ => Clip(0, 0))
  }

  function NewFiles(tracks: nat): seq<int> {
    seq(tracks, _ => 0)
  }

  /** The files after as many frames were written to each. */
  function Grown(files: seq<int>, frames: int): seq<int> {
    seq(|files|, i requires 0 <= i < |files| => files[i] + frames)
  }

  function AfterStart(s: State, tracks: nat): State {
    s.(engine := Ready, recording := true, stopIn := 0, clips := NewClips(tracks), session := Active, unrecorded := false)
  }

  function AfterTake(s: State, armed: seq<nat>): State {
    if s.freeRecords == [] then s.(engine := Sent, unrecorded := true)
    else s.(engine := Adding(s.freeRecords[0], armed), freeRecords := s.freeRecords[1..])
  }

  function AfterAdd(s: State, record: RecordBuffers, channels: seq<nat>): State
    requires channels != [] && channels[0] < |s.pool.capture|
  {
    var channel := channels[0];
    s.(engine := Adding(record.(buffers := record.buffers + [s.pool.capture[channel]]), channels[1..]),
    pool := AfterGet(s.pool).(capture := s.pool.capture[channel := Got(s.pool)]),
    starved := s.starved || s.pool.free == [])
  }

  function AfterSend(s: State, record: RecordBuffers, drop: bool): State {
    SendFrom(s, Continue(record.(phase := Writing)), drop).(engine := Sent, unrecorded := s.unrecorded || drop)
  }

  function Lengthened(clips: seq<Clip>, frames: int): seq<Clip> {
    seq(|clips|, i requires 0 <= i < |clips| => clips[i].(length := clips[i].length + frames))
  }

  /** Cuts the frames off the start of the clips that were recorded before the user heard anything. */
  function CutOff(clips: seq<Clip>, frames: int): seq<Clip> {
    seq(|clips|, i requires 0 <= i < |clips| =>
      Clip(clips[i].fileStart + frames, clips[i].length - frames))
  }

  function AfterCountDown(s: State, size: nat, drop: bool): State {
    if s.stopIn == 0 then s.(engine := Ready)
    else if s.stopIn > 1 then s.(engine := Ready, stopIn := s.stopIn - 1)
    else StopSession(s.(stopIn := 0, clips := CutOff(s.clips, RECORDING_BUFFERS_OFFSET * size)), drop)
  }

  function AfterDispose(s: State, drop: bool): State
    requires s.freeRecords != []
  {
    var record := s.freeRecords[0];
    SendFrom(s.(pool := s.pool.(free := AfterFree(s.pool.free, record.buffers)), freeRecords := s.freeRecords[1..]),
             Continue(record.(phase := Disposing, buffers := [])), drop)
  }

  function AfterRequest(s: State, tracks: nat, drop: bool): State {
    SendTo(s, StartRecording(s.preparing, tracks), drop)
    .(preparing := [], open := true, files := NewFiles(tracks), session := Requested)
  }

  function AfterReceive(s: State): State
    requires s.fromEngine != []
  {
    var rest := s.(fromEngine := s.fromEngine[1..]);
    match s.fromEngine[0]
    case Continue(record) => rest.(activity := Holding(record))
    case RecordingStopped => rest.(open := false, session := NoSession)
    case RecordingCheckpoint | Other => rest
  }

  /** `RecordBuffers::next` in the other thread: write to every open file, or finish. */
  function AfterWrite(s: State, size: nat, record: RecordBuffers): State {
    match record.phase
    case Writing =>
      s.(files := if s.open then Grown(s.files, size) else s.files,
      activity := Returning(record.(phase := Resupplying)))
    case Disposing => s.(activity := Deleting(record.(phase := Done)))
    case Done => s.(activity := Deleting(record))
    case _ => s.(activity := Idle, lost := s.lost + InRecord(record))
  }

  function AfterBorrow(s: State): State {
    s.(pool := AfterGet(s.pool).(borrowed := [Got(s.pool)] + s.pool.borrowed), starved := s.starved || s.pool.free == [])
  }

  function AfterGiveBack(s: State, index: nat): State
    requires index < |s.pool.borrowed|
  {
    s.(pool := s.pool.(free := AfterFree(s.pool.free, [s.pool.borrowed[index]]),
    borrowed := s.pool.borrowed[..index] + s.pool.borrowed[index + 1..]))
  }

  function AfterAbandon(s: State): State
    requires s.pool.borrowed != []
  {
    s.(pool := s.pool.(borrowed := s.pool.borrowed[1..]), lost := s.lost + Slot(s.pool.borrowed[0]))
  }

  function AfterAddCapture(s: State): State {
    s.(pool := AfterGet(s.pool).(capture := s.pool.capture + [Got(s.pool)]), starved := s.starved || s.pool.free == [])
  }

  function AfterInstall(s: State): State {
    s.(pool := s.pool.(free := s.pool.chain + s.pool.free, chain := []))
  }

  function AfterBuild(s: State): State {
    s.(pool := s.pool.(count := s.pool.count + 1, chain := [s.pool.count + 1] + s.pool.chain))
  }

  function AfterPrepare(s: State): State {
    s.(records := s.records + 1, preparing := s.preparing + [RecordBuffers(s.records + 1, Resupplying, [])])
  }

  function AfterSendBack(s: State, record: RecordBuffers, drop: bool): State {
    SendTo(s, Resupply(record), drop).(activity := Idle)
  }

  function AfterDelete(s: State, record: RecordBuffers): State {
    s.(activity := Idle, deleted := s.deleted + InRecord(record))
  }

  function AfterUpdate(s: State, size: nat): State {
    s.(engine := Updated, clips := Lengthened(s.clips, size))
  }

  function AfterEnd(s: State): State {
    s.(engine := Ready, recording := false)
  }

  /** One step; `size` is the number of frames in a buffer. */
  ghost function Next(s: State, size: nat, step: Step): State
    requires Enabled(s, step)
  {
    match step
    case Borrow => AfterBorrow(s)
    case GiveBack(index) => AfterGiveBack(s, index)
    case Abandon => AfterAbandon(s)
    case AddCaptureChannel => AfterAddCapture(s)
    case InstallChain => AfterInstall(s)
    case SendOther(drop) => AfterOther(s, drop)
    case HandleMessage(drop) => AfterHandle(s, drop)
    case Supply => AfterSupply(s, s.engine.supply[0], s.engine.supply[1..], s.engine.tracks)
    case StartSession => AfterStart(s, s.engine.tracks)
    case TakeRecord(armed) => AfterTake(s, armed)
    case AddChannel => AfterAdd(s, s.engine.record, s.engine.channels)
    case SendRecord(drop) => AfterSend(s, s.engine.record, drop)
    case UpdateClips => AfterUpdate(s, size)
    case CountDown(drop) => AfterCountDown(s, size, drop)
    case DisposeRecord(drop) => AfterDispose(s, drop)
    case EndRecording => AfterEnd(s)
    case BuildBuffer => AfterBuild(s)
    case PrepareRecord => AfterPrepare(s)
    case RequestRecording(tracks, drop) => AfterRequest(s, tracks, drop)
    case RequestStop(drop) => SendTo(s, Stop, drop)
    case RequestPause(drop) => SendTo(s, Pause, drop)
    case Receive => AfterReceive(s)
    case Write => AfterWrite(s, size, s.activity.record)
    case SendBack(drop) => AfterSendBack(s, s.activity.record, drop)
    case Delete => AfterDelete(s, s.activity.record)
  }

  const Initial := State(Pool(0, [], [], [], []), [], Ready, false, 0, [], [], [], Idle, [], 0, false, [], NoSession,
                         false, false, false, multiset{}, multiset{})

  ghost predicate IsRun(states: seq<State>, size: nat, steps: seq<Step>) {
    && |states| == |steps| + 1 && states[0] == Initial
    && forall i :: 0 <= i < |steps| ==> Enabled(states[i], steps[i]) && states[i + 1] == Next(states[i], size, steps[i])
  }
}
