/**
  Changes to the project are made by the engine, on behalf of processes that the
  other thread creates, sends, gets back and deletes.  That thread counts the mutating
  processes it has not had back, and saves the project only when the count is zero.
  But some processes that change the project are not counted.  The start of a recording
  adds clips to the project, and each buffer that is recorded lengthens them; and tracks
  that are armed without a request from a user, as when the interface changes, are set to
  be armed by processes that do not really mutate.

  A run is any interleaving of the two threads.  `stage` records where each process is;
  queues have room for `CAPACITY - 1` messages and a message sent to a full queue is lost.
 */
module SafeSave {
  import MessageQueues

  /** The states of a `SimpleProcess`. */
  datatype Phase = InEngine | BackInDAW | Done

  datatype Stage =
    | Constructed | QueuedIn | Executing | Ran
    | QueuedOut | Handling | Handled | Deleted
    | LostIn | LostOut

  /** What the first hook of a process does to the project. */
  datatype Effect = Nothing | Change | StartRecording

  /** A process, whether it is counted, and how often each of its hooks has run. */
  datatype Process = Process(mutating: bool, effect: Effect, phase: Phase, inEngine: nat, backInDAW: nat, deleted: nat, stage: Stage)
  {
    /** `SimpleProcess::next`. */
    function Next(): Process {
      match phase
      case InEngine => this.(inEngine := inEngine + 1, phase := BackInDAW)
      case BackInDAW => this.(backInDAW := backInDAW + 1, phase := Done)
      case Done => this
    }

    function At(stage: Stage): Process {
      this.(stage := stage)
    }
  }

  /** A message carries a process, or is about something else. */
  datatype Message = Continue(id: nat) | Other

  /** The engine takes the message at the front of its queue, runs it, sends it back, and then pops it. */
  datatype Engine = EngineIdle | Front(id: nat) | FrontRan(id: nat) | FrontSent

  datatype Activity = Idle | Sending(id: nat) | Receiving(id: nat) | Finishing(id: nat) | Saving

  datatype State = State(processes: map<nat, Process>, toEngine: seq<Message>, fromEngine: seq<Message>,
                         engine: Engine, activity: Activity, waiting: bool, pending: int, recording: bool)

  datatype Step =
    // the other thread
    | Create(id: nat, mutating: bool, effect: Effect) | Send | SendOther | Receive | Handle | Delete
    | AskToSave | BeginSave | EndSave
    // the engine
    | Take | Execute | Return | Pop | ReturnOther | RecordBuffer | EndRecording

  predicate Full(queue: seq<Message>) {
    |queue| >= MessageQueues.DEFAULT_CAPACITY - 1
  }

  ghost predicate Enabled(s: State, step: Step) {
    match step
    // While waiting to save, only messages from the engine are handled, and they create no process that is counted.
    case Create(id, mutating, effect) => s.activity == Idle && id !in s.processes && (s.waiting ==> !mutating)
    case Send => s.activity.Sending? && s.activity.id in s.processes
    case SendOther => s.activity == Idle
    case Receive => s.activity == Idle && s.fromEngine != [] && (s.fromEngine[0].Continue? ==> s.fromEngine[0].id in s.processes)
    case Handle => s.activity.Receiving? && s.activity.id in s.processes
    case Delete => s.activity.Finishing? && s.activity.id in s.processes
    case AskToSave => s.activity == Idle && !s.waiting
    case BeginSave => s.activity == Idle && s.waiting && !(s.pending > 0)
    case EndSave => s.activity == Saving
    case Take => s.engine == EngineIdle && s.toEngine != [] && (s.toEngine[0].Continue? ==> s.toEngine[0].id in s.processes)
    case Execute => s.engine.Front? && s.engine.id in s.processes
    case Return => s.engine.FrontRan? && s.engine.id in s.processes
    case Pop => s.engine == FrontSent && s.toEngine != []
    case ReturnOther => s.engine == EngineIdle
    case RecordBuffer | EndRecording => s.engine == EngineIdle && s.recording
  }

  function Put(s: State, id: nat, process: Process): State {
    s.(processes := s.processes[id := process])
  }

  // What each step that moves a process does.

  ghost function AfterCreate(s: State, id: nat, mutating: bool, effect: Effect): State {
    Put(s, id, Process(mutating, effect, InEngine, 0, 0, 0, Constructed))
    .(activity := Sending(id), pending := if mutating then s.pending + 1 else s.pending)
  }

  ghost function AfterSend(s: State, id: nat): State
    requires id in s.processes
  {
    if Full(s.toEngine) then Put(s, id, s.processes[id].At(LostIn)).(activity := Idle)
    else Put(s, id, s.processes[id].At(QueuedIn)).(activity := Idle, toEngine := s.toEngine + [Continue(id)])
  }

  ghost function AfterReceive(s: State, id: nat): State
    requires s.fromEngine != [] && id in s.processes
  {
    Put(s, id, s.processes[id].At(Handling)).(fromEngine := s.fromEngine[1..], activity := Receiving(id))
  }

  /** next(), in whose last hook a mutating process reports back. */
  ghost function AfterHandle(s: State, id: nat): State
    requires id in s.processes
  {
    var process := s.processes[id];
    Put(s, id, process.Next().At(Handled))
    .(pending := if process.mutating && process.phase == BackInDAW then s.pending - 1 else s.pending, activity := Finishing(id))
  }

  ghost function AfterDelete(s: State, id: nat): State
    requires id in s.processes
  {
    var process := s.processes[id];
    if process.phase == Done then
      Put(s, id, process.At(Deleted).(deleted := process.deleted + 1)).(activity := Idle)
    else
      s.(activity := Idle)
  }

  ghost function AfterTake(s: State, id: nat): State
    requires id in s.processes
  {
    Put(s, id, s.processes[id].At(Executing)).(engine := Front(id))
  }

  ghost function AfterExecute(s: State, id: nat): State
    requires id in s.processes
  {
    Put(s, id, s.processes[id].Next().At(Ran))
    .(engine := FrontRan(id), recording := s.recording || s.processes[id].effect == StartRecording)
  }

  ghost function AfterReturn(s: State, id: nat): State
    requires id in s.processes
  {
    if Full(s.fromEngine) then Put(s, id, s.processes[id].At(LostOut)).(engine := FrontSent)
    else Put(s, id, s.processes[id].At(QueuedOut)).(engine := FrontSent, fromEngine := s.fromEngine + [Continue(id)])
  }

  ghost function Next(s: State, step: Step): State
    requires Enabled(s, step)
  {
    match step
    case Create(id, mutating, effect) => AfterCreate(s, id, mutating, effect)
    case Send => AfterSend(s, s.activity.id)
    case SendOther => if Full(s.toEngine) then s else s.(toEngine := s.toEngine + [Other])
    case Receive =>
      if s.fromEngine[0] == Other then s.(fromEngine := s.fromEngine[1..]) else AfterReceive(s, s.fromEngine[0].id)
    case Handle => AfterHandle(s, s.activity.id)
    case Delete => AfterDelete(s, s.activity.id)
    case AskToSave => s.(waiting := true)
    case BeginSave => s.(activity := Saving)
    case EndSave => s.(activity := Idle, waiting := false)
    case Take => if s.toEngine[0] == Other then s.(engine := FrontSent) else AfterTake(s, s.toEngine[0].id)
    case Execute => AfterExecute(s, s.engine.id)
    case Return => AfterReturn(s, s.engine.id)
    case Pop => s.(toEngine := s.toEngine[1..], engine := EngineIdle)
    case ReturnOther => if Full(s.fromEngine) then s else s.(fromEngine := s.fromEngine + [Other])
    case RecordBuffer => s
    case EndRecording => s.(recording := false)
  }

  const Initial := State(map[], [], [], EngineIdle, Idle, false, 0, false)

  // ---------------------------------------------------------------- the invariant

  /** The messages the engine has not started on. */
  function Unstarted(s: State): seq<Message> {
    if s.engine == EngineIdle || s.toEngine == [] then s.toEngine else s.toEngine[1..]
  }

  /** The queue holds exactly the processes at this stage, each of them once. */
  ghost predicate Holds(processes: map<nat, Process>, queue: seq<Message>, stage: Stage) {
    && (forall i :: 0 <= i < |queue| && queue[i].Continue? ==>
          queue[i].id in processes && processes[queue[i].id].stage == stage)
    && (forall i, j :: 0 <= i < j < |queue| && queue[i].Continue? ==> queue[i] != queue[j])
    && (forall id :: id in processes && processes[id].stage == stage ==> Continue(id) in queue)
  }

  datatype Holder = Nobody | Just(id: nat)

  /** The process at this stage, if there is one, is the one that this thread is busy with. */
  ghost predicate Only(processes: map<nat, Process>, stage: Stage, holder: Holder) {
    && (holder.Just? ==> holder.id in processes && processes[holder.id].stage == stage)
    && forall id :: id in processes && processes[id].stage == stage ==> holder == Just(id)
  }

  function ToStart(s: State): Holder { if s.engine.Front? then Just(s.engine.id) else Nobody }
  function ToReturn(s: State): Holder { if s.engine.FrontRan? then Just(s.engine.id) else Nobody }
  function ToSend(s: State): Holder { if s.activity.Sending? then Just(s.activity.id) else Nobody }
  function ToHandle(s: State): Holder { if s.activity.Receiving? then Just(s.activity.id) else Nobody }
  function ToDelete(s: State): Holder { if s.activity.Finishing? then Just(s.activity.id) else Nobody }

  /** Each hook has run exactly as often as the stage says: once in its turn, never again. */
  ghost predicate Consistent(process: Process) {
    match process.stage
    case Constructed | QueuedIn | Executing | LostIn =>
      process.phase == InEngine && process.inEngine == 0 && process.backInDAW == 0 && process.deleted == 0
    case Ran | QueuedOut | Handling | LostOut =>
      process.phase == BackInDAW && process.inEngine == 1 && process.backInDAW == 0 && process.deleted == 0
    case Handled =>
      process.phase == Done && process.inEngine == 1 && process.backInDAW == 1 && process.deleted == 0
    case Deleted =>
      process.phase == Done && process.inEngine == 1 && process.backInDAW == 1 && process.deleted == 1
  }

  ghost predicate AllConsistent(processes: map<nat, Process>) {
    forall id :: id in processes ==> Consistent(processes[id])
  }

  /** The mutating processes that have not reported back. */
  ghost function Outstanding(processes: map<nat, Process>): set<nat> {
    set id | id in processes && processes[id].mutating && processes[id].stage != Handled && processes[id].stage != Deleted
  }

  ghost predicate Inv(s: State) {
    && AllConsistent(s.processes)
    && Holds(s.processes, Unstarted(s), QueuedIn) && Holds(s.processes, s.fromEngine, QueuedOut)
    && Only(s.processes, Executing, ToStart(s)) && Only(s.processes, Ran, ToReturn(s))
    && Only(s.processes, Constructed, ToSend(s))
    && Only(s.processes, Handling, ToHandle(s))
    && Only(s.processes, Handled, ToDelete(s))
    && (s.engine != EngineIdle ==> s.toEngine != [])
    && s.pending == |Outstanding(s.processes)|
    && (s.activity == Saving ==> s.waiting && s.pending == 0)
    && (s.activity.Sending? && s.waiting ==> s.activity.id in s.processes && !s.processes[s.activity.id].mutating)
  }

  predicate IsOutstanding(process: Process) {
    process.mutating && process.stage != Handled && process.stage != Deleted
  }

  lemma OutstandingAfterPut(processes: map<nat, Process>, id: nat, process: Process)
    ensures var before := id in processes && IsOutstanding(processes[id]);
            |Outstanding(processes[id := process])| == |Outstanding(processes)|
              + (if IsOutstanding(process) && !before then 1 else if before && !IsOutstanding(process) then -1 else 0)
  {
    hide Outstanding, IsOutstanding;
    var processes' := processes[id := process];
    var old', new' := Outstanding(processes), Outstanding(processes');
    OutstandingAre(processes);
    OutstandingAre(processes');
    SetsDifferAt(old', new', id);
  }

  lemma OutstandingAre(processes: map<nat, Process>)
    ensures forall id :: id in Outstanding(processes) <==> id in processes && IsOutstanding(processes[id])
  {
  }

  /** Sets that agree on everything but one element. */
  lemma SetsDifferAt(a: set<nat>, b: set<nat>, id: nat)
    requires forall other :: other != id ==> (other in a <==> other in b)
    ensures |b| == |a| + (if id in b && id !in a then 1 else if id in a && id !in b then -1 else 0)
  {
    if id in b && id !in a {
      assert b == a + {id};
    } else if id in a && id !in b {
      assert a == b + {id};
    } else {
      assert a == b;
    }
  }

  // How moving one process between stages affects what the queues hold.

  predicate NotAt(processes: map<nat, Process>, id: nat, stage: Stage) {
    id in processes ==> processes[id].stage != stage
  }

  lemma HoldsElsewhere(processes: map<nat, Process>, queue: seq<Message>, stage: Stage, id: nat, process: Process)
    requires Holds(processes, queue, stage) && NotAt(processes, id, stage) && process.stage != stage
    ensures Holds(processes[id := process], queue, stage)
  {
  }

  lemma HoldsOneMore(processes: map<nat, Process>, queue: seq<Message>, stage: Stage, id: nat, process: Process)
    requires Holds(processes, queue, stage) && NotAt(processes, id, stage) && process.stage == stage
    ensures Holds(processes[id := process], queue + [Continue(id)], stage)
  {
  }

  lemma HoldsOneLess(processes: map<nat, Process>, queue: seq<Message>, stage: Stage, process: Process)
    requires Holds(processes, queue, stage) && queue != [] && queue[0].Continue? && process.stage != stage
    ensures Holds(processes[queue[0].id := process], queue[1..], stage)
  {
    assert queue == [queue[0]] + queue[1..];
  }

  lemma HoldsOther(processes: map<nat, Process>, queue: seq<Message>, stage: Stage)
    requires Holds(processes, queue, stage)
    ensures Holds(processes, queue + [Other], stage)
    ensures queue != [] && queue[0] == Other ==> Holds(processes, queue[1..], stage)
  {
    if queue != [] {
      assert queue == [queue[0]] + queue[1..];
    }
  }

  lemma OnlyAfterPut(processes: map<nat, Process>, stage: Stage, holder: Holder, id: nat, process: Process)
    requires Only(processes, stage, holder)
    requires holder == Nobody || process.stage != stage || holder == Just(id)
    ensures Only(processes[id := process], stage,
                 Moved(holder, stage, id, process))
  {
  }

  lemma ConsistentAfterPut(processes: map<nat, Process>, id: nat, process: Process)
    requires AllConsistent(processes) && Consistent(process)
    ensures AllConsistent(processes[id := process])
  {
  }

  /** Moving one process from a stage to another keeps the invariant, if the queues and the threads agree. */
  ghost predicate Moves(s: State, s': State, id: nat) {
    && id in s'.processes && s'.processes == s.processes[id := s'.processes[id]] && Consistent(s'.processes[id])
    && MovesTo(ToStart(s), ToStart(s'), Executing, id, s'.processes[id])
    && MovesTo(ToReturn(s), ToReturn(s'), Ran, id, s'.processes[id])
    && MovesTo(ToSend(s), ToSend(s'), Constructed, id, s'.processes[id])
    && MovesTo(ToHandle(s), ToHandle(s'), Handling, id, s'.processes[id])
    && MovesTo(ToDelete(s), ToDelete(s'), Handled, id, s'.processes[id])
    && s'.pending == s.pending + (if IsOutstanding(s'.processes[id]) then 1 else 0)
         - (if id in s.processes && IsOutstanding(s.processes[id]) then 1 else 0)
    && (s'.engine != EngineIdle ==> s'.toEngine != [])
    && (s'.activity == Saving ==> s'.waiting && s'.pending == 0)
    && (s'.activity.Sending? && s'.waiting ==> s'.activity.id in s'.processes && !s'.processes[s'.activity.id].mutating)
  }

  /** A thread takes up a process at a stage only when it is not busy with another one there. */
  ghost predicate MovesTo(holder: Holder, holder': Holder, stage: Stage, id: nat, process: Process) {
    && (process.stage == stage ==> holder == Nobody)
    && holder' == Moved(holder, stage, id, process)
  }

  function Moved(holder: Holder, stage: Stage, id: nat, process: Process): Holder {
    if process.stage == stage then Just(id) else if holder == Just(id) then Nobody else holder
  }

  lemma MoveKeepsInv(s: State, s': State, id: nat)
    requires Inv(s) && Moves(s, s', id)
    requires Holds(s'.processes, Unstarted(s'), QueuedIn) && Holds(s'.processes, s'.fromEngine, QueuedOut)
    ensures Inv(s')
  {
    var process := s'.processes[id];
    ConsistentAfterPut(s.processes, id, process);
    OutstandingAfterPut(s.processes, id, process);
    OnlyAfterPut(s.processes, Executing, ToStart(s), id, process);
    OnlyAfterPut(s.processes, Ran, ToReturn(s), id, process);
    OnlyAfterPut(s.processes, Constructed, ToSend(s), id, process);
    OnlyAfterPut(s.processes, Handling, ToHandle(s), id, process);
    OnlyAfterPut(s.processes, Handled, ToDelete(s), id, process);
    hide Holds, Only, AllConsistent, Outstanding;
  }

  lemma QueuesHold(s: State)
    requires Inv(s)
    ensures Holds(s.processes, Unstarted(s), QueuedIn) && Holds(s.processes, s.fromEngine, QueuedOut)
    ensures s.engine != EngineIdle ==> s.toEngine != []
    ensures s.activity == Saving ==> s.waiting && s.pending == 0
    ensures s.activity.Sending? && s.waiting ==> s.activity.id in s.processes && !s.processes[s.activity.id].mutating
  {
  }

  /** A process that a thread is busy with is at the stage that says so. */
  lemma BusyWith(s: State, id: nat)
    requires Inv(s)
    ensures s.engine == Front(id) ==> id in s.processes && s.processes[id].stage == Executing
    ensures s.engine == FrontRan(id) ==> id in s.processes && s.processes[id].stage == Ran
    ensures s.activity == Sending(id) ==> id in s.processes && s.processes[id].stage == Constructed
    ensures s.activity == Receiving(id) ==> id in s.processes && s.processes[id].stage == Handling
    ensures s.activity == Finishing(id) ==> id in s.processes && s.processes[id].stage == Handled
    ensures s.toEngine != [] && s.engine == EngineIdle && s.toEngine[0] == Continue(id) ==>
              id in s.processes && s.processes[id].stage == QueuedIn
    ensures s.fromEngine != [] && s.fromEngine[0] == Continue(id) ==>
              id in s.processes && s.processes[id].stage == QueuedOut
    ensures id in s.processes ==> Consistent(s.processes[id])
  {
  }

  // Each step that moves a process keeps the invariant.

  lemma CreateMoves(s: State, id: nat, mutating: bool, effect: Effect)
    requires Inv(s) && s.activity == Idle && id !in s.processes && (s.waiting ==> !mutating)
    ensures Moves(s, AfterCreate(s, id, mutating, effect), id)
  {
    hide Inv, Holds;
    BusyWith(s, id);
    QueuesHold(s);
  }

  lemma CreateKeepsInv(s: State, id: nat, mutating: bool, effect: Effect)
    requires Inv(s) && s.activity == Idle && id !in s.processes && (s.waiting ==> !mutating)
    ensures Inv(AfterCreate(s, id, mutating, effect))
  {
    hide Inv, Holds, Moves;
    CreateMoves(s, id, mutating, effect);
    BusyWith(s, id);
    QueuesHold(s);
    var s' := AfterCreate(s, id, mutating, effect);
    HoldsElsewhere(s.processes, Unstarted(s), QueuedIn, id, s'.processes[id]);
    HoldsElsewhere(s.processes, s.fromEngine, QueuedOut, id, s'.processes[id]);
    MoveKeepsInv(s, s', id);
  }

  lemma SendMoves(s: State, id: nat)
    requires Inv(s) && s.activity == Sending(id) && id in s.processes
    ensures Moves(s, AfterSend(s, id), id)
  {
    hide Inv, Moves;
    if Full(s.toEngine) {
      MovesToEngine(s, id, LostIn, s.toEngine);
    } else {
      MovesToEngine(s, id, QueuedIn, s.toEngine + [Continue(id)]);
    }
  }

  lemma MovesToEngine(s: State, id: nat, stage: Stage, queue: seq<Message>)
    requires Inv(s) && s.activity == Sending(id) && id in s.processes && (stage == LostIn || stage == QueuedIn)
    requires s.toEngine != [] ==> queue != []
    ensures Moves(s, Put(s, id, s.processes[id].At(stage)).(activity := Idle, toEngine := queue), id)
  {
    hide Inv, Holds, Unstarted;
    BusyWith(s, id);
    QueuesHold(s);
  }

  lemma SendKeepsInv(s: State, id: nat)
    requires Inv(s) && s.activity == Sending(id) && id in s.processes
    ensures Inv(AfterSend(s, id))
  {
    hide Inv, Holds, Moves;
    SendMoves(s, id);
    BusyWith(s, id);
    QueuesHold(s);
    var s' := AfterSend(s, id);
    if Full(s.toEngine) {
      HoldsElsewhere(s.processes, Unstarted(s), QueuedIn, id, s'.processes[id]);
    } else {
      HoldsOneMore(s.processes, Unstarted(s), QueuedIn, id, s'.processes[id]);
      assert Unstarted(s') == Unstarted(s) + [Continue(id)];
    }
    HoldsElsewhere(s.processes, s.fromEngine, QueuedOut, id, s'.processes[id]);
    MoveKeepsInv(s, s', id);
  }

  lemma HandleMoves(s: State, id: nat)
    requires Inv(s) && s.activity == Receiving(id) && id in s.processes
    ensures Moves(s, AfterHandle(s, id), id)
  {
    hide Inv, Holds;
    BusyWith(s, id);
    QueuesHold(s);
  }

  lemma HandleKeepsInv(s: State, id: nat)
    requires Inv(s) && s.activity == Receiving(id) && id in s.processes
    ensures Inv(AfterHandle(s, id))
  {
    hide Inv, Holds, Moves;
    HandleMoves(s, id);
    BusyWith(s, id);
    QueuesHold(s);
    var s' := AfterHandle(s, id);
    HoldsElsewhere(s.processes, Unstarted(s), QueuedIn, id, s'.processes[id]);
    HoldsElsewhere(s.processes, s.fromEngine, QueuedOut, id, s'.processes[id]);
    MoveKeepsInv(s, s', id);
  }

  lemma DeleteMoves(s: State, id: nat)
    requires Inv(s) && s.activity == Finishing(id) && id in s.processes
    ensures Moves(s, AfterDelete(s, id), id)
  {
    hide Inv, Holds;
    BusyWith(s, id);
    QueuesHold(s);
  }

  lemma DeleteKeepsInv(s: State, id: nat)
    requires Inv(s) && s.activity == Finishing(id) && id in s.processes
    ensures Inv(AfterDelete(s, id))
  {
    hide Inv, Holds, Moves;
    DeleteMoves(s, id);
    BusyWith(s, id);
    QueuesHold(s);
    var s' := AfterDelete(s, id);
    HoldsElsewhere(s.processes, Unstarted(s), QueuedIn, id, s'.processes[id]);
    HoldsElsewhere(s.processes, s.fromEngine, QueuedOut, id, s'.processes[id]);
    MoveKeepsInv(s, s', id);
  }

  lemma ReceiveMoves(s: State, id: nat)
    requires Inv(s) && s.activity == Idle && s.fromEngine != [] && s.fromEngine[0] == Continue(id) && id in s.processes
    ensures Moves(s, AfterReceive(s, id), id)
  {
    hide Inv, Holds;
    BusyWith(s, id);
    QueuesHold(s);
  }

  lemma ReceiveKeepsInv(s: State, id: nat)
    requires Inv(s) && s.activity == Idle && s.fromEngine != [] && s.fromEngine[0] == Continue(id) && id in s.processes
    ensures Inv(AfterReceive(s, id))
  {
    hide Inv, Holds, Moves;
    ReceiveMoves(s, id);
    BusyWith(s, id);
    QueuesHold(s);
    var s' := AfterReceive(s, id);
    HoldsElsewhere(s.processes, Unstarted(s), QueuedIn, id, s'.processes[id]);
    HoldsOneLess(s.processes, s.fromEngine, QueuedOut, s'.processes[id]);
    MoveKeepsInv(s, s', id);
  }

  lemma TakeMoves(s: State, id: nat)
    requires Inv(s) && s.engine == EngineIdle && s.toEngine != [] && s.toEngine[0] == Continue(id) && id in s.processes
    ensures Moves(s, AfterTake(s, id), id)
  {
    hide Inv, Holds;
    BusyWith(s, id);
    QueuesHold(s);
  }

  lemma TakeKeepsInv(s: State, id: nat)
    requires Inv(s) && s.engine == EngineIdle && s.toEngine != [] && s.toEngine[0] == Continue(id) && id in s.processes
    ensures Inv(AfterTake(s, id))
  {
    hide Inv, Holds, Moves;
    TakeMoves(s, id);
    BusyWith(s, id);
    QueuesHold(s);
    var s' := AfterTake(s, id);
    HoldsOneLess(s.processes, Unstarted(s), QueuedIn, s'.processes[id]);
    HoldsElsewhere(s.processes, s.fromEngine, QueuedOut, id, s'.processes[id]);
    MoveKeepsInv(s, s', id);
  }

  lemma ExecuteMoves(s: State, id: nat)
    requires Inv(s) && s.engine == Front(id) && id in s.processes
    ensures Moves(s, AfterExecute(s, id), id)
  {
    hide Inv, Holds;
    BusyWith(s, id);
    QueuesHold(s);
  }

  lemma ExecuteKeepsInv(s: State, id: nat)
    requires Inv(s) && s.engine == Front(id) && id in s.processes
    ensures Inv(AfterExecute(s, id))
  {
    hide Inv, Holds, Moves;
    ExecuteMoves(s, id);
    BusyWith(s, id);
    QueuesHold(s);
    var s' := AfterExecute(s, id);
    HoldsElsewhere(s.processes, Unstarted(s), QueuedIn, id, s'.processes[id]);
    HoldsElsewhere(s.processes, s.fromEngine, QueuedOut, id, s'.processes[id]);
    MoveKeepsInv(s, s', id);
  }

  lemma ReturnMoves(s: State, id: nat)
    requires Inv(s) && s.engine == FrontRan(id) && id in s.processes
    ensures Moves(s, AfterReturn(s, id), id)
  {
    hide Inv, Moves;
    if Full(s.fromEngine) {
      MovesFromEngine(s, id, LostOut, s.fromEngine);
    } else {
      MovesFromEngine(s, id, QueuedOut, s.fromEngine + [Continue(id)]);
    }
  }

  lemma MovesFromEngine(s: State, id: nat, stage: Stage, queue: seq<Message>)
    requires Inv(s) && s.engine == FrontRan(id) && id in s.processes && (stage == LostOut || stage == QueuedOut)
    ensures Moves(s, Put(s, id, s.processes[id].At(stage)).(engine := FrontSent, fromEngine := queue), id)
  {
    hide Inv, Holds, Unstarted;
    BusyWith(s, id);
    QueuesHold(s);
  }

  lemma ReturnKeepsInv(s: State, id: nat)
    requires Inv(s) && s.engine == FrontRan(id) && id in s.processes
    ensures Inv(AfterReturn(s, id))
  {
    hide Inv, Holds, Moves;
    ReturnMoves(s, id);
    BusyWith(s, id);
    QueuesHold(s);
    var s' := AfterReturn(s, id);
    HoldsElsewhere(s.processes, Unstarted(s), QueuedIn, id, s'.processes[id]);
    if Full(s.fromEngine) {
      HoldsElsewhere(s.processes, s.fromEngine, QueuedOut, id, s'.processes[id]);
    } else {
      HoldsOneMore(s.processes, s.fromEngine, QueuedOut, id, s'.processes[id]);
    }
    MoveKeepsInv(s, s', id);
  }

  lemma OthersKeepInv(s: State, step: Step)
    requires Inv(s) && Enabled(s, step)
    requires step.SendOther? || step.AskToSave? || step.BeginSave? || step.EndSave? || step.ReturnOther? || step.Pop? || step.RecordBuffer? || step.EndRecording?
      || (step.Receive? && s.fromEngine[0] == Other) || (step.Take? && s.toEngine[0] == Other)
    ensures Inv(Next(s, step))
  {
    hide Holds, Only, AllConsistent, Outstanding;
    var s' := Next(s, step);
    HoldsOther(s.processes, Unstarted(s), QueuedIn);
    HoldsOther(s.processes, s.fromEngine, QueuedOut);
    if step.SendOther? && !Full(s.toEngine) {
      assert Unstarted(s') == Unstarted(s) + [Other];
    }
  }

  lemma StepKeepsInv(s: State, step: Step)
    requires Inv(s) && Enabled(s, step)
    ensures Inv(Next(s, step))
  {
    match step
    case Create(id, mutating, effect) => CreateKeepsInv(s, id, mutating, effect);
    case Send => SendKeepsInv(s, s.activity.id);
    case Handle => HandleKeepsInv(s, s.activity.id);
    case Delete => DeleteKeepsInv(s, s.activity.id);
    case Execute => ExecuteKeepsInv(s, s.engine.id);
    case Return => ReturnKeepsInv(s, s.engine.id);
    case Receive => if s.fromEngine[0] == Other { OthersKeepInv(s, step); } else { ReceiveKeepsInv(s, s.fromEngine[0].id); }
    case Take => if s.toEngine[0] == Other { OthersKeepInv(s, step); } else { TakeKeepsInv(s, s.toEngine[0].id); }
    case _ => OthersKeepInv(s, step);
  }

  // ---------------------------------------------------------------- whole runs

  ghost predicate IsRun(states: seq<State>, steps: seq<Step>) {
    && |states| == |steps| + 1 && states[0] == Initial
    && forall i :: 0 <= i < |steps| ==> Enabled(states[i], steps[i]) && states[i + 1] == Next(states[i], steps[i])
  }

  lemma {:induction false} RunKeepsInv(states: seq<State>, steps: seq<Step>, k: nat)
    requires IsRun(states, steps) && k < |states|
    ensures Inv(states[k])
  {
    if k == 0 {
      assert Outstanding(states[0].processes) == {};
    } else {
      RunKeepsInv(states, steps, k - 1);
      StepKeepsInv(states[k - 1], steps[k - 1]);
    }
  }

  /** The engine will run, or is in the middle of, the first hook of this process. */
  ghost predicate MayStillMutate(s: State, id: nat) {
    && id in s.processes && s.processes[id].mutating
    && (Continue(id) in Unstarted(s) || s.engine == Front(id) || s.activity == Sending(id))
  }

  /** A mutating process is being sent, queued, executing, returning or lost. */
  ghost predicate OnItsWay(s: State, id: nat) {
    && id in s.processes && s.processes[id].mutating
    && (|| s.activity == Sending(id) || Continue(id) in Unstarted(s)
        || s.engine == Front(id) || s.engine == FrontRan(id)
        || Continue(id) in s.fromEngine || s.activity == Receiving(id)
        || s.processes[id].stage == LostIn || s.processes[id].stage == LostOut)
  }

  lemma PendingIs(s: State)
    requires Inv(s)
    ensures s.pending == |Outstanding(s.processes)|
  {
  }

  lemma OutstandingIs(s: State, id: nat)
    requires Inv(s)
    ensures id in Outstanding(s.processes) <==> OnItsWay(s, id)
    ensures MayStillMutate(s, id) ==> id in Outstanding(s.processes)
  {
  }

  /**
    In every reachable state the counter is the number of mutating processes that are
    being sent, queued, executing, returning or lost; so when it is zero no mutating
    process can still run in the engine.
   */
  lemma PendingCountsMutations(states: seq<State>, steps: seq<Step>, k: nat)
    requires IsRun(states, steps) && k < |states|
    ensures states[k].pending == |Outstanding(states[k].processes)|
    ensures forall id :: id in Outstanding(states[k].processes) <==> OnItsWay(states[k], id)
    ensures states[k].pending == 0 ==> forall id :: !MayStillMutate(states[k], id)
  {
    hide IsRun;
    RunKeepsInv(states, steps, k);
    var s := states[k];
    hide Inv, MayStillMutate;
    PendingIs(s);
    forall id ensures id in Outstanding(s.processes) <==> OnItsWay(s, id) {
      OutstandingIs(s, id);
    }
    if s.pending == 0 {
      forall id ensures !MayStillMutate(s, id) {
        OutstandingIs(s, id);
      }
    }
  }

  /** While the project is being saved, no process that counts itself is under way or on its way to the engine. */
  lemma SaveIsExclusive(states: seq<State>, steps: seq<Step>, k: nat)
    requires IsRun(states, steps) && k < |states| && states[k].activity == Saving
    ensures forall id :: !MayStillMutate(states[k], id)
    ensures forall id :: states[k].engine == FrontRan(id) ==>
              id in states[k].processes && !states[k].processes[id].mutating
  {
    hide IsRun;
    RunKeepsInv(states, steps, k);
    PendingCountsMutations(states, steps, k);
    QueuesHold(states[k]);
    assert Outstanding(states[k].processes) == {};
    forall id | states[k].engine == FrontRan(id)
      ensures id in states[k].processes && !states[k].processes[id].mutating
    {
      BusyWith(states[k], id);
      OutstandingIs(states[k], id);
    }
  }

  // ---------------------------------------------------------------- what the steps taken lead to

  /** A process that starts a recording has run in the engine since the last recording ended. */
  ghost predicate Started(states: seq<State>, steps: seq<Step>, k: nat)
    requires IsRun(states, steps) && k < |states|
  {
    k > 0 && steps[k - 1] != EndRecording &&
    (Started(states, steps, k - 1)
     || (steps[k - 1] == Execute && states[k - 1].processes[states[k - 1].engine.id].effect == StartRecording))
  }

  /** A save was asked for since the last one ended. */
  predicate Asked(steps: seq<Step>, k: nat)
    requires k <= |steps|
  {
    k > 0 && steps[k - 1] != EndSave && (steps[k - 1] == AskToSave || Asked(steps, k - 1))
  }

  lemma FlagStep(s: State, step: Step)
    requires Enabled(s, step)
    ensures var s' := Next(s, step);
            && s'.waiting == (if step == AskToSave then true else if step == EndSave then false else s.waiting)
            && s'.recording == (if step == EndRecording then false
                                else s.recording || (step == Execute && s.processes[s.engine.id].effect == StartRecording))
  {
  }

  /** In every run the engine records, and a save is waited for, just when the steps say so. */
  lemma {:induction false} FlagsFollowSteps(states: seq<State>, steps: seq<Step>, k: nat)
    requires IsRun(states, steps) && k < |states|
    ensures states[k].recording <==> Started(states, steps, k)
    ensures states[k].waiting <==> Asked(steps, k)
  {
    if k > 0 {
      FlagsFollowSteps(states, steps, k - 1);
      FlagStep(states[k - 1], steps[k - 1]);
    }
  }

  function AcceptedIn(s: State, step: Step): seq<Message> {
    if |s.toEngine| >= MessageQueues.DEFAULT_CAPACITY - 1 then []
    else if step.Send? && s.activity.Sending? then [Continue(s.activity.id)]
    else if step.SendOther? then [Other]
    else []
  }

  function AcceptedOut(s: State, step: Step): seq<Message> {
    if |s.fromEngine| >= MessageQueues.DEFAULT_CAPACITY - 1 then []
    else if step.Return? && s.engine.FrontRan? then [Continue(s.engine.id)]
    else if step.ReturnOther? then [Other]
    else []
  }

  /** All messages that the queue to the engine, or the one from it, has had room for, which is for all but one of its slots. */
  function Accepted(states: seq<State>, steps: seq<Step>, k: nat, out: bool): seq<Message>
    requires k <= |steps| < |states|
  {
    if k == 0 then []
    else
      Accepted(states, steps, k - 1, out)
      + if out then AcceptedOut(states[k - 1], steps[k - 1]) else AcceptedIn(states[k - 1], steps[k - 1])
  }

  /** All messages that were taken off that queue. */
  function Removed(states: seq<State>, steps: seq<Step>, k: nat, out: bool): seq<Message>
    requires k <= |steps| < |states|
  {
    if k == 0 then []
    else
      var s := states[k - 1];
      var queue := if out then s.fromEngine else s.toEngine;
      Removed(states, steps, k - 1, out)
      + if queue != [] && steps[k - 1] == (if out then Receive else Pop) then [queue[0]] else []
  }

  lemma QueueStep(s: State, step: Step)
    requires Enabled(s, step)
    ensures var s' := Next(s, step);
            && s'.toEngine == (if step == Pop then s.toEngine[1..] else s.toEngine + AcceptedIn(s, step))
            && s'.fromEngine == (if step == Receive then s.fromEngine[1..] else s.fromEngine + AcceptedOut(s, step))
  {
  }

  /** Taking the front of a queue off, or putting some messages at its end, keeps the account. */
  lemma AccountKept(accepted: seq<Message>, removed: seq<Message>, queue: seq<Message>, more: seq<Message>, takes: bool)
    requires accepted == removed + queue && (takes ==> queue != [] && more == [])
    ensures var queue' := if takes then queue[1..] else queue + more;
            accepted + more == removed + (if takes then [queue[0]] else []) + queue'
  {
    if takes {
      assert [queue[0]] + queue[1..] == queue;
    }
  }

  /** Nothing that was accepted is lost or overtaken: what was taken off a queue and what is in it are all there was, in order. */
  lemma {:induction false} MessagesStayInOrder(states: seq<State>, steps: seq<Step>, k: nat)
    requires IsRun(states, steps) && k < |states|
    ensures Accepted(states, steps, k, false) == Removed(states, steps, k, false) + states[k].toEngine
    ensures Accepted(states, steps, k, true) == Removed(states, steps, k, true) + states[k].fromEngine
  {
    if k > 0 {
      var s, step := states[k - 1], steps[k - 1];
      MessagesStayInOrder(states, steps, k - 1);
      QueueStep(s, step);
      NothingAccepted(s, step);
      assert Enabled(s, step) && states[k] == Next(s, step);
      hide AcceptedIn, AcceptedOut, Next, IsRun;
      AccountKept(Accepted(states, steps, k - 1, false), Removed(states, steps, k - 1, false), s.toEngine, AcceptedIn(s, step), step == Pop);
      AccountKept(Accepted(states, steps, k - 1, true), Removed(states, steps, k - 1, true), s.fromEngine, AcceptedOut(s, step),
                  step == Receive);
    }
  }

  lemma NothingAccepted(s: State, step: Step)
    ensures step == Pop || step == Receive ==> AcceptedIn(s, step) == AcceptedOut(s, step) == []
  {
  }

  // ---------------------------------------------------------------- changes that are not counted

  /** The step changes the project. */
  ghost predicate Changes(s: State, step: Step)
    requires Enabled(s, step)
  {
    (step == Execute && s.processes[s.engine.id].effect != Nothing) || step == RecordBuffer
  }

  /** Going on with these steps, the project is changed before the save is over. */
  ghost predicate Disturbs(s: State, steps: seq<Step>)
    decreases |steps|
  {
    && steps != [] && steps[0] != EndSave && Enabled(s, steps[0])
    && (Changes(s, steps[0]) || Disturbs(Next(s, steps[0]), steps[1..]))
  }

  /** A process that is not counted has been sent to the engine and has not changed the project yet. */
  ghost predicate Uncounted(s: State, id: nat) {
    && id in s.processes && !s.processes[id].mutating && s.processes[id].effect != Nothing
    && (s.processes[id].stage == QueuedIn || s.processes[id].stage == Executing)
  }

  ghost predicate Exposed(s: State) {
    s.recording || exists id :: Uncounted(s, id)
  }

  /** A process on its way goes on to the engine, changes the project there, and is back; it never becomes uncounted. */
  lemma MovedOn(s: State, s': State, id: nat)
    requires id in s.processes && id in s'.processes && s'.processes == s.processes[id := s'.processes[id]]
    requires s'.processes[id].mutating == s.processes[id].mutating && s'.processes[id].effect == s.processes[id].effect
    requires s'.processes[id].stage == Executing ==> s.processes[id].stage == QueuedIn
    requires s'.processes[id].stage != QueuedIn
    ensures forall other :: Uncounted(s', other) ==> Uncounted(s, other)
  {
  }

  /** No process that is counted is on its way to the engine while the project is being saved. */
  lemma NoneCounted(s: State, id: nat)
    requires Inv(s) && s.activity == Saving && id in s.processes && s.processes[id].mutating
    ensures s.processes[id].stage != Executing
  {
    PendingIs(s);
    assert id !in Outstanding(s.processes);
  }

  /** If nothing of this kind is under way, the engine leaves the project alone, and so on. */
  lemma StaysQuiet(s: State, step: Step)
    requires Inv(s) && s.activity == Saving && !Exposed(s) && Enabled(s, step) && step != EndSave
    ensures !Changes(s, step)
    ensures Next(s, step).activity == Saving && !Exposed(Next(s, step))
  {
    hide Inv, Uncounted;
    if step == Execute {
      BusyWith(s, s.engine.id);
      assert s.processes[s.engine.id].effect == Nothing by {
        if s.processes[s.engine.id].mutating {
          NoneCounted(s, s.engine.id);
        }
        assert !Uncounted(s, s.engine.id);
        ExecutingIsUncounted(s, s.engine.id);
      }
      MovedOn(s, Next(s, step), s.engine.id);
    } else if step == Take && s.toEngine[0].Continue? {
      BusyWith(s, s.toEngine[0].id);
      MovedOn(s, Next(s, step), s.toEngine[0].id);
    } else if step == Return {
      MovedOn(s, Next(s, step), s.engine.id);
    } else {
      SameUncounted(s, Next(s, step));
    }
  }

  lemma ExecutingIsUncounted(s: State, id: nat)
    requires id in s.processes && s.processes[id].stage == Executing && !s.processes[id].mutating
    ensures Uncounted(s, id) <==> s.processes[id].effect != Nothing
  {
  }

  lemma SameUncounted(s: State, s': State)
    requires s'.processes == s.processes
    ensures forall id :: Uncounted(s', id) <==> Uncounted(s, id)
  {
  }

  lemma {:induction false} Undisturbed(s: State, steps: seq<Step>)
    requires Inv(s) && s.activity == Saving && !Exposed(s)
    ensures !Disturbs(s, steps)
    decreases |steps|
  {
    hide Inv, Exposed, Next, Changes;
    if steps != [] && steps[0] != EndSave && Enabled(s, steps[0]) {
      StaysQuiet(s, steps[0]);
      StepKeepsInv(s, steps[0]);
      Undisturbed(Next(s, steps[0]), steps[1..]);
    }
  }

  /** What the engine does next about its messages. */
  ghost function EngineStep(s: State): Step {
    match s.engine
    case EngineIdle => Take
    case Front(_) => Execute
    case FrontRan(_) => Return
    case FrontSent => Pop
  }

  function Rank(engine: Engine): nat {
    match engine
    case EngineIdle => 3
    case Front(_) => 2
    case FrontRan(_) => 1
    case FrontSent => 0
  }

  /** Where an uncounted process is. */
  lemma WhereUncounted(s: State, id: nat)
    requires Inv(s) && Uncounted(s, id)
    ensures s.engine == Front(id) || (s.processes[id].stage == QueuedIn && Continue(id) in Unstarted(s))
  {
  }

  /** The engine can go on with its messages if there is one or it is busy with one. */
  lemma EngineGoesOn(s: State)
    requires Inv(s) && s.activity == Saving && (s.engine == EngineIdle ==> s.toEngine != [])
    ensures Enabled(s, EngineStep(s))
    ensures var s' := Next(s, EngineStep(s));
            && s'.activity == Saving && (s.recording ==> s'.recording)
            && |s'.toEngine| <= |s.toEngine| && (Rank(s'.engine) < Rank(s.engine) || |s'.toEngine| < |s.toEngine|)
  {
    hide Inv, Holds;
    QueuesHold(s);
    if s.engine.Front? || s.engine.FrontRan? {
      BusyWith(s, s.engine.id);
    } else if s.engine == EngineIdle && s.toEngine[0].Continue? {
      BusyWith(s, s.toEngine[0].id);
    }
  }

  /** An uncounted process stays one until it changes the project. */
  lemma StaysUncounted(s: State, id: nat)
    requires Inv(s) && Uncounted(s, id) && Enabled(s, EngineStep(s)) && !Changes(s, EngineStep(s))
    ensures Uncounted(Next(s, EngineStep(s)), id)
  {
    hide Inv;
    if s.engine.FrontRan? {
      BusyWith(s, s.engine.id);
    }
  }

  lemma StaysExposed(s: State)
    requires Inv(s) && s.activity == Saving && Exposed(s)
    requires s.engine == EngineIdle ==> !s.recording
    ensures Enabled(s, EngineStep(s))
    ensures !Changes(s, EngineStep(s)) ==>
              var s' := Next(s, EngineStep(s));
              && Inv(s') && s'.activity == Saving && Exposed(s')
              && |s'.toEngine| <= |s.toEngine| && (Rank(s'.engine) < Rank(s.engine) || |s'.toEngine| < |s.toEngine|)
  {
    hide Inv, Uncounted, Next, Changes;
    if s.recording {
      EngineGoesOn(s);
    } else {
      var id :| Uncounted(s, id);
      WhereUncounted(s, id);
      EngineGoesOn(s);
      if !Changes(s, EngineStep(s)) {
        StaysUncounted(s, id);
      }
    }
    StepKeepsInv(s, EngineStep(s));
  }

  lemma {:induction false} Disturbing(s: State) returns (steps: seq<Step>)
    requires Inv(s) && s.activity == Saving && Exposed(s)
    ensures Disturbs(s, steps)
    decreases |s.toEngine|, Rank(s.engine)
  {
    hide Inv, Exposed, Next;
    if s.engine == EngineIdle && s.recording {
      steps := [RecordBuffer];
    } else {
      StaysExposed(s);
      steps := [EngineStep(s)];
      if !Changes(s, EngineStep(s)) {
        var rest := Disturbing(Next(s, EngineStep(s)));
        steps := steps + rest;
        assert steps[1..] == rest;
      }
    }
  }

  /**
    The project can be changed while it is being saved if and only if the engine is
    recording or has been sent a process that changes the project and is not counted.
   */
  lemma SaveIsExclusiveUnlessExposed(states: seq<State>, steps: seq<Step>, k: nat)
    requires IsRun(states, steps) && k < |states| && states[k].activity == Saving
    ensures (exists rest :: Disturbs(states[k], rest)) <==> states[k].recording || exists id :: Uncounted(states[k], id)
  {
    hide IsRun;
    RunKeepsInv(states, steps, k);
    hide Inv, Disturbs, Uncounted;
    if Exposed(states[k]) {
      var rest := Disturbing(states[k]);
    } else {
      forall rest ensures !Disturbs(states[k], rest) {
        Undisturbed(states[k], rest);
      }
    }
  }

  /** Asking to record and then to save. */
  function ExampleStep(i: nat): Step {
    [Create(1, false, StartRecording), Send, AskToSave, BeginSave, Take, Execute][i % 6]
  }

  function ExampleState(i: nat): State {
    var process := Process(false, StartRecording, InEngine, 0, 0, 0, Constructed);
    if i == 0 then Initial
    else if i == 1 then State(map[1 := process], [], [], EngineIdle, Sending(1), false, 0, false)
    else
      var sent := State(map[1 := process.At(QueuedIn)], [Continue(1)], [], EngineIdle, Idle, false, 0, false);
      if i == 2 then sent
      else if i == 3 then sent.(waiting := true)
      else if i == 4 then sent.(waiting := true, activity := Saving)
      else
        sent.(waiting := true, activity := Saving, engine := Front(1), processes := map[1 := process.At(Executing)])
  }

  lemma ExampleRuns(i: nat)
    requires i < 5
    ensures Enabled(ExampleState(i), ExampleStep(i)) && Next(ExampleState(i), ExampleStep(i)) == ExampleState(i + 1)
  {
    var s := ExampleState(i);
    match ExampleStep(i)
    case Create(_, _, _) => assert AfterCreate(s, 1, false, StartRecording) == ExampleState(1);
    case Send => assert AfterSend(s, 1) == ExampleState(2);
    case Take => assert AfterTake(s, 1) == ExampleState(5);
    case _ =>
  }

  /** In this run the engine adds clips to the project while it is being saved. */
  lemma RecordingDisturbsSave() returns (states: seq<State>, steps: seq<Step>)
    ensures IsRun(states, steps) && |steps| == 5 && states[5].activity == Saving && states[5].pending == 0
    ensures Enabled(states[5], Execute) && Changes(states[5], Execute)
  {
    hide Next, Enabled;
    steps := seq(5, i requires 0 <= i < 5 => ExampleStep(i));
    states := seq(6, i requires 0 <= i < 6 => ExampleState(i));
    forall i | 0 <= i < 5
      ensures Enabled(states[i], steps[i]) && states[i + 1] == Next(states[i], steps[i])
    {
      ExampleRuns(i);
    }
    ExampleEnds();
  }

  lemma ExampleEnds()
    ensures Enabled(ExampleState(5), Execute) && Changes(ExampleState(5), Execute)
  {
  }

  // ---------------------------------------------------------------- what becomes of a process

  /** No hook ever runs twice or out of turn, and no process is deleted twice or before its last hook. */
  lemma HooksRunInTurn(states: seq<State>, steps: seq<Step>, k: nat, id: nat)
    requires IsRun(states, steps) && k < |states| && id in states[k].processes
    ensures var process := states[k].processes[id];
            process.deleted <= process.backInDAW <= process.inEngine <= 1
  {
    RunKeepsInv(states, steps, k);
    BusyWith(states[k], id);
  }

  ghost predicate Quiescent(s: State) {
    s.toEngine == [] && s.fromEngine == [] && s.engine == EngineIdle && s.activity == Idle
  }

  ghost predicate Lost(process: Process) {
    process.stage == LostIn || process.stage == LostOut
  }

  /**
    Once both queues have been drained, every process that was not lost has run each
    hook exactly once and has been deleted exactly once; and a save that is waiting
    can go ahead exactly when no mutating process was lost.
   */
  lemma DrainedMeansDone(states: seq<State>, steps: seq<Step>, k: nat)
    requires IsRun(states, steps) && k < |states| && Quiescent(states[k])
    ensures forall id :: id in states[k].processes && !Lost(states[k].processes[id]) ==>
              var process := states[k].processes[id];
              process.inEngine == 1 && process.backInDAW == 1 && process.deleted == 1
    ensures states[k].waiting ==>
              (Enabled(states[k], BeginSave) <==>
               forall id :: id in states[k].processes && states[k].processes[id].mutating ==> !Lost(states[k].processes[id]))
  {
    hide IsRun;
    RunKeepsInv(states, steps, k);
    hide Inv, Quiescent, Lost;
    var s := states[k];
    forall id | id in s.processes && !Lost(s.processes[id])
      ensures var process := s.processes[id]; process.inEngine == 1 && process.backInDAW == 1 && process.deleted == 1
    {
      NotLostIsDeleted(s, id);
    }
    if s.waiting {
      WaitEnds(s);
    }
  }

  lemma NotLostIsDeleted(s: State, id: nat)
    requires Inv(s) && Quiescent(s) && id in s.processes && !Lost(s.processes[id])
    ensures s.processes[id].stage == Deleted
    ensures var process := s.processes[id]; process.inEngine == 1 && process.backInDAW == 1 && process.deleted == 1
  {
    BusyWith(s, id);
    assert s.processes[id].stage == QueuedIn <==> Continue(id) in Unstarted(s);
    assert s.processes[id].stage == QueuedOut <==> Continue(id) in s.fromEngine;
  }

  lemma WaitEnds(s: State)
    requires Inv(s) && Quiescent(s) && s.waiting
    ensures Enabled(s, BeginSave) <==> forall id :: id in s.processes && s.processes[id].mutating ==> !Lost(s.processes[id])
  {
    PendingIs(s);
    hide Inv;
    forall id | id in s.processes && s.processes[id].mutating
      ensures id in Outstanding(s.processes) <==> Lost(s.processes[id])
    {
      if !Lost(s.processes[id]) {
        NotLostIsDeleted(s, id);
      }
    }
    if Outstanding(s.processes) != {} {
      var id :| id in Outstanding(s.processes);
      assert Lost(s.processes[id]);
    }
  }

  // ---------------------------------------------------------------- the objects

  class DAW {
    var pendingMutations: int

    constructor ()
      ensures pendingMutations == 0
    {
      pendingMutations := 0;
    }
  }

  class MutatingProcess {
    const reallyMutating: bool
    ghost const effect: Effect
    var phase: Phase
    ghost var hooksInEngine: nat
    ghost var hooksInDAW: nat

    ghost function View(stage: Stage): Process
      reads this
    {
      Process(reallyMutating, effect, phase, hooksInEngine, hooksInDAW, 0, stage)
    }

    constructor (daw: DAW, ghost effect: Effect, reallyMutating: bool := true)
      modifies daw
      ensures forall stage :: View(stage) == Process(reallyMutating, effect, InEngine, 0, 0, 0, stage)
      ensures daw.pendingMutations == old(daw.pendingMutations) + (if reallyMutating then 1 else 0)
    {
      this.reallyMutating, this.effect := reallyMutating, effect;
      phase := InEngine;
      hooksInEngine, hooksInDAW := 0, 0;
      new;
      if reallyMutating {
        daw.pendingMutations := daw.pendingMutations + 1;
      }
    }

    method MutationDone(daw: DAW)
      modifies daw
      ensures daw.pendingMutations == old(daw.pendingMutations) - (if reallyMutating then 1 else 0)
    {
      if reallyMutating {
        daw.pendingMutations := daw.pendingMutations - 1;
      }
    }

    /** Runs the hook of the current state; the last one reports the mutation as done. */
    method Next(daw: DAW)
      modifies this, daw
      ensures forall stage :: View(stage) == old(View(stage)).Next()
      ensures daw.pendingMutations
              == old(daw.pendingMutations) - (if reallyMutating && old(phase) == BackInDAW then 1 else 0)
    {
      match phase {
        case InEngine =>
          hooksInEngine := hooksInEngine + 1;
          phase := BackInDAW;
        case BackInDAW =>
          hooksInDAW := hooksInDAW + 1;
          MutationDone(daw);
          phase := Done;
        case Done =>
      }
    }
  }
}
