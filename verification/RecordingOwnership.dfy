/**
  Single ownership: in every interleaving an audio buffer and a `RecordBuffers` has one
  holder at most, and exactly one unless a buffer could not be had or a send was dropped.
 */
module RecordingOwnership {
  import opened Recording

  function AllBuffers(count: nat): multiset<Thing> {
    if count == 0 then multiset{} else AllBuffers(count - 1) + multiset{Buffer(count)}
  }

  function AllRecords(count: nat): multiset<Thing> {
    if count == 0 then multiset{} else AllRecords(count - 1) + multiset{Record(count)}
  }

  /** Every buffer and every `RecordBuffers` that was ever made, once each. */
  function Made(s: State): multiset<Thing> {
    AllBuffers(s.pool.count) + AllRecords(s.records)
  }

  /** Who holds what adds up to everything that was made. */
  ghost predicate Conserved(s: State) {
    Held(s) + s.lost + s.deleted == Made(s)
  }

  // ---------------------------------------------------------------- adding up lists

  lemma {:induction false} BuffersConcat(a: seq<nat>, b: seq<nat>)
    ensures Buffers(a + b) == Buffers(a) + Buffers(b)
  {
    if a == [] {
      assert a + b == b;
    } else {
      assert (a + b)[1..] == a[1..] + b;
      BuffersConcat(a[1..], b);
    }
  }

  lemma BuffersOne(buffer: nat)
    ensures Buffers([buffer]) == Slot(buffer)
  {
    assert [buffer][1..] == [];
  }

  /** Splits a list around one of its places. */
  lemma BuffersAround(a: seq<nat>, i: nat)
    requires i < |a|
    ensures Buffers(a) == Buffers(a[..i]) + Slot(a[i]) + Buffers(a[i + 1..])
  {
    hide Buffers;
    assert a == a[..i] + ([a[i]] + a[i + 1..]);
    BuffersConcat(a[..i], [a[i]] + a[i + 1..]);
    BuffersConcat([a[i]], a[i + 1..]);
    BuffersOne(a[i]);
  }

  lemma BuffersUpdate(a: seq<nat>, i: nat, buffer: nat)
    requires i < |a|
    ensures Buffers(a[i := buffer]) + Slot(a[i]) == Buffers(a) + Slot(buffer)
  {
    hide Buffers;
    BuffersAround(a, i);
    BuffersAround(a[i := buffer], i);
    assert a[i := buffer][..i] == a[..i] && a[i := buffer][i + 1..] == a[i + 1..];
  }

  lemma {:induction false} BuffersFree(free: seq<nat>, buffers: seq<nat>)
    ensures Buffers(AfterFree(free, buffers)) == Buffers(free) + Buffers(buffers)
    decreases |buffers|
  {
    if buffers != [] {
      var free' := if buffers[0] == 0 then free else [buffers[0]] + free;
      BuffersFree(free', buffers[1..]);
      if buffers[0] != 0 {
        assert free'[1..] == free;
      }
    }
  }

  lemma {:induction false} RecordsConcat(a: seq<RecordBuffers>, b: seq<RecordBuffers>)
    ensures InRecords(a + b) == InRecords(a) + InRecords(b)
  {
    if a == [] {
      assert a + b == b;
    } else {
      assert (a + b)[1..] == a[1..] + b;
      RecordsConcat(a[1..], b);
    }
  }

  lemma {:induction false} ToEngineConcat(a: seq<ToEngine>, b: seq<ToEngine>)
    ensures InToEngine(a + b) == InToEngine(a) + InToEngine(b)
  {
    if a == [] {
      assert a + b == b;
    } else {
      assert (a + b)[1..] == a[1..] + b;
      ToEngineConcat(a[1..], b);
    }
  }

  lemma {:induction false} FromEngineConcat(a: seq<FromEngine>, b: seq<FromEngine>)
    ensures InFromEngine(a + b) == InFromEngine(a) + InFromEngine(b)
  {
    if a == [] {
      assert a + b == b;
    } else {
      assert (a + b)[1..] == a[1..] + b;
      FromEngineConcat(a[1..], b);
    }
  }

  lemma RecordsCons(record: RecordBuffers, rest: seq<RecordBuffers>)
    ensures InRecords([record] + rest) == InRecord(record) + InRecords(rest)
  {
    assert ([record] + rest)[1..] == rest;
  }

  lemma BuffersCons(buffer: nat, rest: seq<nat>)
    ensures Buffers([buffer] + rest) == Slot(buffer) + Buffers(rest)
  {
    assert ([buffer] + rest)[1..] == rest;
  }

  /** Taking a buffer moves it from the free list to whoever asked. */
  lemma GetMoves(pool: Pool)
    ensures Buffers(AfterGet(pool).free) + Slot(Got(pool)) == Buffers(pool.free)
  {
  }

  function One(message: FromEngine): multiset<Thing> {
    if message.Continue? then InRecord(message.record) else multiset{}
  }

  /** A send, dropped or not, keeps what it carries. */
  lemma SendFromKeeps(s: State, message: FromEngine, drop: bool)
    ensures var s' := SendFrom(s, message, drop);
            InFromEngine(s'.fromEngine) + s'.lost == InFromEngine(s.fromEngine) + s.lost + One(message)
  {
    FromEngineConcat(s.fromEngine, [message]);
  }

  lemma SendToKeeps(s: State, message: ToEngine, drop: bool)
    ensures var s' := SendTo(s, message, drop);
            InToEngine(s'.toEngine) + s'.lost == InToEngine(s.toEngine) + s.lost + InToEngine([message])
  {
    ToEngineConcat(s.toEngine, [message]);
  }

  // ---------------------------------------------------------------- each step conserves

  function InThePool(pool: Pool, t: Thing): int {
    Buffers(pool.free)[t] + Buffers(pool.chain)[t] + Buffers(pool.capture)[t] + Buffers(pool.borrowed)[t]
  }

  /** How many times `t` is held, lost or deleted. */
  function Total(s: State, t: Thing): int {
    InThePool(s.pool, t) + InRecords(s.freeRecords)[t] + InEngine(s.engine)[t] + InToEngine(s.toEngine)[t]
    + InFromEngine(s.fromEngine)[t] + InActivity(s.activity)[t] + InRecords(s.preparing)[t] + s.lost[t] + s.deleted[t]
  }

  lemma TotalIsSum(s: State)
    ensures Conserved(s) <==> forall t :: Total(s, t) == Made(s)[t]
  {
    assert forall t :: Total(s, t) == (Held(s) + s.lost + s.deleted)[t];
    if forall t :: Total(s, t) == Made(s)[t] {
      assert forall t :: (Held(s) + s.lost + s.deleted)[t] == Made(s)[t];
    }
  }

  /** A step makes `t`, or moves it, or leaves it alone. */
  ghost predicate Keeps(s: State, s': State, t: Thing) {
    Total(s', t) + Made(s)[t] == Total(s, t) + Made(s')[t]
  }

  // The facts about lists, for one thing at a time.

  lemma GetCount(pool: Pool, t: Thing)
    ensures var pool' := AfterGet(pool);
            && Buffers(pool'.free)[t] + Slot(Got(pool))[t] == Buffers(pool.free)[t]
            && pool' == pool.(free := pool'.free)
  {
    GetMoves(pool);
    assert (Buffers(AfterGet(pool).free) + Slot(Got(pool)))[t] == Buffers(pool.free)[t];
  }

  lemma EmptyingCount(free: seq<nat>, record: RecordBuffers, phase: Phase, t: Thing)
    ensures Buffers(AfterFree(free, record.buffers))[t] + InRecord(record.(phase := phase, buffers := []))[t]
            == Buffers(free)[t] + InRecord(record)[t]
  {
    BuffersFree(free, record.buffers);
    assert (Buffers(AfterFree(free, record.buffers)))[t] == (Buffers(free) + Buffers(record.buffers))[t];
  }

  lemma FirstRecordCount(records: seq<RecordBuffers>, t: Thing)
    requires records != []
    ensures InRecords(records)[t] == InRecord(records[0])[t] + InRecords(records[1..])[t]
  {
  }

  lemma FirstMessageCount(queue: seq<ToEngine>, t: Thing)
    requires queue != []
    ensures InToEngine(queue)[t] == InToEngine(queue[1..])[t] +
            (match queue[0]
             case StartRecording(supply, _) => InRecords(supply)[t]
             case Resupply(record) => InRecord(record)[t]
             case _ => 0)
  {
  }

  lemma SendFromCount(s: State, message: FromEngine, drop: bool, t: Thing)
    ensures var s' := SendFrom(s, message, drop);
            && s' == s.(fromEngine := s'.fromEngine, dropped := s'.dropped, lost := s'.lost)
            && InFromEngine(s'.fromEngine)[t] + s'.lost[t] == InFromEngine(s.fromEngine)[t] + s.lost[t] + One(message)[t]
  {
    SendFromKeeps(s, message, drop);
    var s' := SendFrom(s, message, drop);
    assert (InFromEngine(s'.fromEngine) + s'.lost)[t] == (InFromEngine(s.fromEngine) + s.lost + One(message))[t];
  }

  lemma SendToCount(s: State, message: ToEngine, drop: bool, t: Thing)
    ensures var s' := SendTo(s, message, drop);
            && s' == s.(toEngine := s'.toEngine, dropped := s'.dropped, lost := s'.lost)
            && InToEngine(s'.toEngine)[t] + s'.lost[t] == InToEngine(s.toEngine)[t] + s.lost[t] +
               (match message
                case StartRecording(supply, _) => InRecords(supply)[t]
                case Resupply(record) => InRecord(record)[t]
                case _ => 0)
  {
    SendToKeeps(s, message, drop);
    var s' := SendTo(s, message, drop);
    assert (InToEngine(s'.toEngine) + s'.lost)[t] == (InToEngine(s.toEngine) + s.lost + InToEngine([message]))[t];
    FirstMessageCount([message], t);
  }

  lemma Nothing(t: Thing)
    ensures Buffers([])[t] == 0 && InRecords([])[t] == 0
  {
  }

  // Each step.

  lemma Borrowing(s: State, t: Thing)
    requires s.engine == Ready
    ensures Keeps(s, AfterBorrow(s), t)
  {
    hide Buffers, InRecord, InRecords, InToEngine, InFromEngine, AfterFree, SendFrom, SendTo, Got, AfterGet, AllBuffers, AllRecords;
    GetCount(s.pool, t);
    BuffersCons(Got(s.pool), s.pool.borrowed);
  }

  lemma GivingBack(s: State, index: nat, t: Thing)
    requires index < |s.pool.borrowed|
    ensures Keeps(s, AfterGiveBack(s, index), t)
  {
    hide Buffers, InRecord, InRecords, InToEngine, InFromEngine, AfterFree, SendFrom, SendTo, Got, AfterGet, AllBuffers, AllRecords;
    var buffer := s.pool.borrowed[index];
    BuffersFree(s.pool.free, [buffer]);
    BuffersOne(buffer);
    BuffersAround(s.pool.borrowed, index);
    BuffersConcat(s.pool.borrowed[..index], s.pool.borrowed[index + 1..]);
  }

  lemma Abandoning(s: State, t: Thing)
    requires s.pool.borrowed != []
    ensures Keeps(s, AfterAbandon(s), t)
  {
    hide Buffers, InRecord, InRecords, InToEngine, InFromEngine, AfterFree, SendFrom, SendTo, Got, AfterGet, AllBuffers, AllRecords;
    BuffersCons(s.pool.borrowed[0], s.pool.borrowed[1..]);
    assert [s.pool.borrowed[0]] + s.pool.borrowed[1..] == s.pool.borrowed;
  }

  lemma AddingCapture(s: State, t: Thing)
    requires s.engine == Ready
    ensures Keeps(s, AfterAddCapture(s), t)
  {
    hide Buffers, InRecord, InRecords, InToEngine, InFromEngine, AfterFree, SendFrom, SendTo, Got, AfterGet, AllBuffers, AllRecords;
    GetCount(s.pool, t);
    BuffersConcat(s.pool.capture, [Got(s.pool)]);
    BuffersOne(Got(s.pool));
  }

  lemma Installing(s: State, t: Thing)
    requires s.engine == Ready
    ensures Keeps(s, AfterInstall(s), t)
  {
    hide Buffers, InRecord, InRecords, InToEngine, InFromEngine, AfterFree, SendFrom, SendTo, Got, AfterGet, AllBuffers, AllRecords;
    BuffersConcat(s.pool.chain, s.pool.free);
    Nothing(t);
  }

  lemma SendingOther(s: State, drop: bool, t: Thing)
    requires s.engine == Ready
    ensures Keeps(s, AfterOther(s, drop), t)
  {
    FromEngineConcat(s.fromEngine, [Other]);
    assert InFromEngine([Other]) == multiset{};
    hide Buffers, InRecord, InRecords, InToEngine, InFromEngine, AfterFree, SendFrom, SendTo, Got, AfterGet, AllBuffers, AllRecords;
  }

  lemma MadeCount(count: nat, t: Thing)
    ensures AllBuffers(count + 1)[t] == AllBuffers(count)[t] + Slot(count + 1)[t]
    ensures AllRecords(count + 1)[t] == AllRecords(count)[t] + multiset{Record(count + 1)}[t]
  {
  }

  lemma BuildingBuffer(s: State, t: Thing)
    ensures Keeps(s, AfterBuild(s), t)
  {
    hide Buffers, InRecord, InRecords, InToEngine, InFromEngine, AfterFree, SendFrom, SendTo, Got, AfterGet, AllBuffers, AllRecords;
    MadeCount(s.pool.count, t);
    BuffersCons(s.pool.count + 1, s.pool.chain);
  }

  lemma HandlingMessage(s: State, message: ToEngine, drop: bool, t: Thing)
    requires s.engine == Ready
    ensures var s' := AfterMessage(s, message, drop);
            && s'.pool.count == s.pool.count && s'.records == s.records
            && Total(s', t) == Total(s, t) +
               (match message
                case StartRecording(supply, _) => InRecords(supply)[t]
                case Resupply(record) => InRecord(record)[t]
                case _ => 0)
  {
    hide Buffers, InRecord, InRecords, InToEngine, InFromEngine, AfterFree, SendFrom, SendTo, Got, AfterGet, AllBuffers, AllRecords;
    match message
    case StartRecording(_, _) =>
    case Stop => SendFromCount(s, RecordingCheckpoint, drop, t);
    case Pause => SendFromCount(s, RecordingStopped, drop, t);
    case Resupply(record) =>
      EmptyingCount(s.pool.free, record, Filling, t);
      RecordsCons(record.(phase := Filling, buffers := []), s.freeRecords);
  }

  lemma Handling(s: State, drop: bool, t: Thing)
    requires s.engine == Ready && s.toEngine != []
    ensures Keeps(s, AfterHandle(s, drop), t)
  {
    hide Buffers, InRecord, InRecords, InToEngine, InFromEngine, AfterFree, SendFrom, SendTo, Got, AfterGet, AllBuffers, AllRecords;
    hide AfterMessage;
    FirstMessageCount(s.toEngine, t);
    HandlingMessage(s.(toEngine := s.toEngine[1..]), s.toEngine[0], drop, t);
  }

  lemma Supplying(s: State, tracks: nat, t: Thing)
    requires s.engine.Starting? && s.engine.supply != []
    ensures Keeps(s, AfterSupply(s, s.engine.supply[0], s.engine.supply[1..], tracks), t)
  {
    hide Buffers, InRecord, InRecords, InToEngine, InFromEngine, AfterFree, SendFrom, SendTo, Got, AfterGet, AllBuffers, AllRecords;
    var record := s.engine.supply[0];
    EmptyingCount(s.pool.free, record, Filling, t);
    RecordsCons(record.(phase := Filling, buffers := []), s.freeRecords);
    FirstRecordCount(s.engine.supply, t);
  }

  lemma StartingSession(s: State, tracks: nat, t: Thing)
    requires s.engine.Starting? && s.engine.supply == []
    ensures Keeps(s, AfterStart(s, tracks), t)
  {
    hide Buffers, InRecord, InRecords, InToEngine, InFromEngine, AfterFree, SendFrom, SendTo, Got, AfterGet, AllBuffers, AllRecords;
    Nothing(t);
  }

  lemma Taking(s: State, armed: seq<nat>, t: Thing)
    requires s.engine == Ready
    ensures Keeps(s, AfterTake(s, armed), t)
  {
    hide Buffers, InRecord, InRecords, InToEngine, InFromEngine, AfterFree, SendFrom, SendTo, Got, AfterGet, AllBuffers, AllRecords;
    if s.freeRecords != [] {
      FirstRecordCount(s.freeRecords, t);
    }
  }

  lemma AddedCount(record: RecordBuffers, buffer: nat, t: Thing)
    ensures InRecord(record.(buffers := record.buffers + [buffer]))[t] == InRecord(record)[t] + Slot(buffer)[t]
  {
    BuffersConcat(record.buffers, [buffer]);
    BuffersOne(buffer);
  }

  lemma ReplacedCount(slots: seq<nat>, i: nat, buffer: nat, t: Thing)
    requires i < |slots|
    ensures Buffers(slots[i := buffer])[t] + Slot(slots[i])[t] == Buffers(slots)[t] + Slot(buffer)[t]
  {
    BuffersUpdate(slots, i, buffer);
    assert (Buffers(slots[i := buffer]) + Slot(slots[i]))[t] == (Buffers(slots) + Slot(buffer))[t];
  }

  lemma AddingChannel(s: State, record: RecordBuffers, channels: seq<nat>, t: Thing)
    requires s.engine == Adding(record, channels) && channels != [] && channels[0] < |s.pool.capture|
    ensures Keeps(s, AfterAdd(s, record, channels), t)
  {
    hide Buffers, InRecord, InRecords, InToEngine, InFromEngine, AfterFree, SendFrom, SendTo, Got, AfterGet, AllBuffers, AllRecords;
    GetCount(s.pool, t);
    ReplacedCount(s.pool.capture, channels[0], Got(s.pool), t);
    AddedCount(record, s.pool.capture[channels[0]], t);
  }

  /** The state of a `RecordBuffers` does not matter to what it holds. */
  lemma SamePossessions(record: RecordBuffers, phase: Phase)
    ensures InRecord(record.(phase := phase)) == InRecord(record)
  {
  }

  lemma Sending(s: State, record: RecordBuffers, drop: bool, t: Thing)
    requires s.engine.Adding? && s.engine.record == record
    ensures Keeps(s, AfterSend(s, record, drop), t)
  {
    hide Buffers, InRecord, InRecords, InToEngine, InFromEngine, AfterFree, SendFrom, SendTo, Got, AfterGet, AllBuffers, AllRecords;
    SamePossessions(record, Writing);
    SendFromCount(s, Continue(record.(phase := Writing)), drop, t);
  }

  lemma StoppingSession(s: State, drop: bool, t: Thing)
    requires s.engine == Ready || s.engine == Updated
    ensures Keeps(s, StopSession(s, drop), t)
  {
    hide Buffers, InRecord, InRecords, InToEngine, InFromEngine, AfterFree, SendFrom, SendTo, Got, AfterGet, AllBuffers, AllRecords;
    SendFromCount(s, RecordingStopped, drop, t);
  }

  /** Steps of the engine that hold nothing. */
  lemma EngineMoves(s: State, engine: Engine, stopIn: nat, clips: seq<Clip>, t: Thing)
    requires InEngine(s.engine) == InEngine(engine) == multiset{}
    ensures var s' := s.(engine := engine, stopIn := stopIn, clips := clips);
            Total(s', t) == Total(s, t) && Made(s') == Made(s)
  {
    hide Buffers, InRecord, InRecords, InToEngine, InFromEngine, AfterFree, SendFrom, SendTo, Got, AfterGet, AllBuffers, AllRecords;
  }

  lemma CountingDown(s: State, size: nat, drop: bool, t: Thing)
    requires s.engine == Updated
    ensures Keeps(s, AfterCountDown(s, size, drop), t)
  {
    if s.stopIn == 0 || s.stopIn > 1 {
      hide Total, Made;
      EngineMoves(s, Ready, if s.stopIn == 0 then 0 else s.stopIn - 1, s.clips, t);
    } else {
      var clips := CutOff(s.clips, RECORDING_BUFFERS_OFFSET * size);
      hide Total, Made, StopSession, CutOff;
      EngineMoves(s, Updated, 0, clips, t);
      StoppingSession(s.(stopIn := 0, clips := clips), drop, t);
    }
  }

  lemma DisposingRecord(s: State, drop: bool, t: Thing)
    requires s.engine == Ending && s.freeRecords != []
    ensures Keeps(s, AfterDispose(s, drop), t)
  {
    hide Buffers, InRecord, InRecords, InToEngine, InFromEngine, AfterFree, SendFrom, SendTo, Got, AfterGet, AllBuffers, AllRecords;
    var record := s.freeRecords[0];
    FirstRecordCount(s.freeRecords, t);
    EmptyingCount(s.pool.free, record, Disposing, t);
    var rest := s.(pool := s.pool.(free := AfterFree(s.pool.free, record.buffers)), freeRecords := s.freeRecords[1..]);
    SendFromCount(rest, Continue(record.(phase := Disposing, buffers := [])), drop, t);
  }

  lemma UpdatingOrEnding(s: State, size: nat, t: Thing)
    requires s.engine == Sent || s.engine == Ending
    ensures Keeps(s, if s.engine == Sent then AfterUpdate(s, size) else AfterEnd(s), t)
  {
    hide Buffers, InRecord, InRecords, InToEngine, InFromEngine, AfterFree, SendFrom, SendTo, Got, AfterGet, AllBuffers, AllRecords;
  }

  lemma LastRecordCount(records: seq<RecordBuffers>, id: nat, t: Thing)
    ensures InRecords(records + [RecordBuffers(id, Resupplying, [])])[t] == InRecords(records)[t] + multiset{Record(id)}[t]
  {
    var record := RecordBuffers(id, Resupplying, []);
    RecordsConcat(records, [record]);
    assert [record][1..] == [] && InRecord(record) == multiset{Record(id)};
    assert InRecords([record]) == InRecord(record);
  }

  lemma PreparingRecord(s: State, t: Thing)
    ensures Keeps(s, AfterPrepare(s), t)
  {
    hide Buffers, InRecord, InRecords, InToEngine, InFromEngine, AfterFree, SendFrom, SendTo, Got, AfterGet, AllBuffers, AllRecords;
    MadeCount(s.records, t);
    LastRecordCount(s.preparing, s.records + 1, t);
  }

  lemma Requesting(s: State, tracks: nat, drop: bool, t: Thing)
    requires s.activity == Idle
    ensures Keeps(s, AfterRequest(s, tracks, drop), t)
  {
    hide Buffers, InRecord, InRecords, InToEngine, InFromEngine, AfterFree, SendFrom, SendTo, Got, AfterGet, AllBuffers, AllRecords;
    Nothing(t);
    SendToCount(s, StartRecording(s.preparing, tracks), drop, t);
  }

  lemma Commanding(s: State, message: ToEngine, drop: bool, t: Thing)
    requires message == Stop || message == Pause
    ensures Keeps(s, SendTo(s, message, drop), t)
  {
    hide Buffers, InRecord, InRecords, InToEngine, InFromEngine, AfterFree, SendFrom, SendTo, Got, AfterGet, AllBuffers, AllRecords;
    SendToCount(s, message, drop, t);
  }

  lemma SendingBack(s: State, record: RecordBuffers, drop: bool, t: Thing)
    requires s.activity == Returning(record)
    ensures Keeps(s, AfterSendBack(s, record, drop), t)
  {
    hide Buffers, InRecord, InRecords, InToEngine, InFromEngine, AfterFree, SendFrom, SendTo, Got, AfterGet, AllBuffers, AllRecords;
    SendToCount(s, Resupply(record), drop, t);
  }

  lemma DeletingRecord(s: State, record: RecordBuffers, t: Thing)
    requires s.activity == Deleting(record)
    ensures Keeps(s, AfterDelete(s, record), t)
  {
    hide Buffers, InRecord, InRecords, InToEngine, InFromEngine, AfterFree, SendFrom, SendTo, Got, AfterGet, AllBuffers, AllRecords;
  }

  lemma FirstFromCount(queue: seq<FromEngine>, t: Thing)
    requires queue != []
    ensures InFromEngine(queue)[t] == One(queue[0])[t] + InFromEngine(queue[1..])[t]
  {
  }

  lemma Receiving(s: State, t: Thing)
    requires s.activity == Idle && s.fromEngine != []
    ensures Keeps(s, AfterReceive(s), t)
  {
    hide Total, Made, One, InActivity;
    var rest := s.(fromEngine := s.fromEngine[1..]);
    Dequeued(s, t);
    match s.fromEngine[0]
    case Continue(record) => TakenUp(rest, record, t);
    case RecordingStopped => Closed(rest, t);
    case RecordingCheckpoint | Other =>
  }

  lemma Dequeued(s: State, t: Thing)
    requires s.fromEngine != []
    ensures var rest := s.(fromEngine := s.fromEngine[1..]);
            Made(rest) == Made(s) && Total(s, t) == Total(rest, t) + One(s.fromEngine[0])[t]
    ensures One(s.fromEngine[0])[t] == if s.fromEngine[0].Continue? then InRecord(s.fromEngine[0].record)[t] else 0
  {
    hide Buffers, InRecord, InRecords, InToEngine, InFromEngine, AllBuffers, AllRecords;
    FirstFromCount(s.fromEngine, t);
  }

  lemma TakenUp(s: State, record: RecordBuffers, t: Thing)
    requires s.activity == Idle
    ensures var s' := s.(activity := Holding(record)); Made(s') == Made(s) && Total(s', t) == Total(s, t) + InRecord(record)[t]
  {
    hide Buffers, InRecord, InRecords, InToEngine, InFromEngine, AllBuffers, AllRecords;
  }

  lemma Closed(s: State, t: Thing)
    ensures var s' := s.(open := false, session := NoSession); Made(s') == Made(s) && Total(s', t) == Total(s, t)
  {
    hide Buffers, InRecord, InRecords, InToEngine, InFromEngine, AllBuffers, AllRecords;
  }

  lemma ActivityMoves(s: State, activity: Activity, files: seq<int>, lost: multiset<Thing>, t: Thing)
    requires InActivity(activity)[t] + lost[t] == InActivity(s.activity)[t] + s.lost[t]
    ensures var s' := s.(activity := activity, files := files, lost := lost);
            Total(s', t) == Total(s, t) && Made(s') == Made(s)
  {
    hide Buffers, InRecord, InRecords, InToEngine, InFromEngine, AfterFree, SendFrom, SendTo, Got, AfterGet, AllBuffers, AllRecords;
  }

  lemma WritingRecord(s: State, size: nat, record: RecordBuffers, t: Thing)
    requires s.activity == Holding(record)
    ensures Keeps(s, AfterWrite(s, size, record), t)
  {
    hide Total, Made, InRecord, Grown;
    SamePossessions(record, if record.phase == Writing then Resupplying else Done);
    var s' := AfterWrite(s, size, record);
    assert s' == s.(activity := s'.activity, files := s'.files, lost := s'.lost);
    ActivityMoves(s, s'.activity, s'.files, s'.lost, t);
  }

  lemma StepKeeps(s: State, size: nat, step: Step, t: Thing)
    requires Enabled(s, step)
    ensures Keeps(s, Next(s, size, step), t)
  {
    hide Keeps, AfterBorrow, AfterGiveBack, AfterAbandon, AfterAddCapture, AfterInstall, AfterBuild, AfterHandle, AfterSupply,
         AfterStart, AfterTake, AfterAdd, AfterSend, AfterUpdate, AfterCountDown, AfterDispose, AfterEnd, AfterPrepare,
         AfterRequest, SendTo, AfterReceive, AfterWrite, AfterSendBack, AfterDelete;
    match step
    case Borrow => Borrowing(s, t);
    case GiveBack(index) => GivingBack(s, index, t);
    case Abandon => Abandoning(s, t);
    case AddCaptureChannel => AddingCapture(s, t);
    case InstallChain => Installing(s, t);
    case SendOther(drop) => SendingOther(s, drop, t);
    case HandleMessage(drop) => Handling(s, drop, t);
    case Supply => Supplying(s, s.engine.tracks, t);
    case StartSession => StartingSession(s, s.engine.tracks, t);
    case TakeRecord(armed) => Taking(s, armed, t);
    case AddChannel => AddingChannel(s, s.engine.record, s.engine.channels, t);
    case SendRecord(drop) => Sending(s, s.engine.record, drop, t);
    case UpdateClips => UpdatingOrEnding(s, size, t);
    case CountDown(drop) => CountingDown(s, size, drop, t);
    case DisposeRecord(drop) => DisposingRecord(s, drop, t);
    case EndRecording => UpdatingOrEnding(s, size, t);
    case BuildBuffer => BuildingBuffer(s, t);
    case PrepareRecord => PreparingRecord(s, t);
    case RequestRecording(tracks, drop) => Requesting(s, tracks, drop, t);
    case RequestStop(drop) => Commanding(s, Stop, drop, t);
    case RequestPause(drop) => Commanding(s, Pause, drop, t);
    case Receive => Receiving(s, t);
    case Write => WritingRecord(s, size, s.activity.record, t);
    case SendBack(drop) => SendingBack(s, s.activity.record, drop, t);
    case Delete => DeletingRecord(s, s.activity.record, t);
  }

  lemma StepConserves(s: State, size: nat, step: Step)
    requires Conserved(s) && Enabled(s, step)
    ensures Conserved(Next(s, size, step))
  {
    hide Total, Conserved, Next, Made, Held, Enabled;
    TotalIsSum(s);
    TotalIsSum(Next(s, size, step));
    forall t
      ensures Total(Next(s, size, step), t) == Made(Next(s, size, step))[t]
    {
      StepKeeps(s, size, step, t);
    }
  }

  // ---------------------------------------------------------------- whole runs

  /** Messages from the engine carry records that are to be written or disposed; what is disposed is empty. */
  ghost predicate Travelling(record: RecordBuffers) {
    record.phase == Writing || (record.phase == Disposing && record.buffers == [])
  }

  ghost predicate InOrder(s: State) {
    && (forall i :: 0 <= i < |s.fromEngine| && s.fromEngine[i].Continue? ==> Travelling(s.fromEngine[i].record))
    && (s.activity.Holding? ==> Travelling(s.activity.record))
    && (s.activity.Deleting? ==> s.activity.record.buffers == [])
    && (forall b :: s.deleted[Buffer(b)] == 0)
    && (!s.starved && !s.dropped ==> s.lost == multiset{})
  }

  lemma SendFromKeepsOrder(s: State, message: FromEngine, drop: bool)
    requires InOrder(s) && (message.Continue? ==> Travelling(message.record))
    ensures InOrder(SendFrom(s, message, drop))
  {
    hide InFromEngine;
  }

  lemma SendToKeepsOrder(s: State, message: ToEngine, drop: bool)
    requires InOrder(s)
    ensures InOrder(SendTo(s, message, drop))
  {
    hide InToEngine;
  }

  lemma SameOrder(s: State, s': State)
    requires InOrder(s)
    requires s'.fromEngine == s.fromEngine && s'.activity == s.activity && s'.deleted == s.deleted
    requires s'.dropped == s.dropped && (s.starved ==> s'.starved) && (s'.starved || s'.lost == s.lost)
    ensures InOrder(s')
  {
  }

  lemma MessageKeepsOrder(s: State, message: ToEngine, drop: bool)
    requires InOrder(s)
    ensures InOrder(AfterMessage(s, message, drop))
  {
    hide InOrder, SendFrom, AfterFree;
    match message
    case Stop =>
      if s.recording {
        SendFromKeepsOrder(s, RecordingCheckpoint, drop);
        SameOrder(SendFrom(s, RecordingCheckpoint, drop), AfterMessage(s, message, drop));
      }
    case Pause => StoppingKeepsOrder(s, drop);
    case _ => SameOrder(s, AfterMessage(s, message, drop));
  }

  lemma StoppingKeepsOrder(s: State, drop: bool)
    requires InOrder(s)
    ensures InOrder(StopSession(s, drop))
  {
    hide InOrder, SendFrom;
    SendFromKeepsOrder(s, RecordingStopped, drop);
    SameOrder(SendFrom(s, RecordingStopped, drop), StopSession(s, drop));
  }

  lemma ReceiveKeepsOrder(s: State)
    requires InOrder(s) && s.activity == Idle && s.fromEngine != []
    ensures InOrder(AfterReceive(s))
  {
  }

  lemma WriteKeepsOrder(s: State, size: nat, record: RecordBuffers)
    requires InOrder(s) && s.activity == Holding(record)
    ensures InOrder(AfterWrite(s, size, record))
  {
    hide InRecord, Grown, InOrder;
    var s' := AfterWrite(s, size, record);
    HeldIsTravelling(s);
    assert s'.activity.Returning? || (s'.activity.Deleting? && s'.activity.record.buffers == []);
    assert s' == s.(activity := s'.activity, files := s'.files);
    ActivityKeepsOrder(s, s'.activity, s'.files);
  }

  lemma HeldIsTravelling(s: State)
    requires InOrder(s) && s.activity.Holding?
    ensures Travelling(s.activity.record)
  {
  }

  lemma ActivityKeepsOrder(s: State, activity: Activity, files: seq<int>)
    requires InOrder(s) && (activity.Returning? || (activity.Deleting? && activity.record.buffers == []))
    ensures InOrder(s.(activity := activity, files := files))
  {
  }

  lemma DeleteKeepsOrder(s: State, record: RecordBuffers)
    requires InOrder(s) && s.activity == Deleting(record)
    ensures InOrder(AfterDelete(s, record))
  {
    BuffersNone();
    hide Buffers;
  }

  lemma SendBackKeepsOrder(s: State, record: RecordBuffers, drop: bool)
    requires InOrder(s)
    ensures InOrder(AfterSendBack(s, record, drop))
  {
    SendToKeepsOrder(s, Resupply(record), drop);
    hide InToEngine;
  }

  lemma HandleKeepsOrder(s: State, drop: bool)
    requires InOrder(s) && s.toEngine != []
    ensures InOrder(AfterHandle(s, drop))
  {
    hide InOrder, AfterMessage;
    SameOrder(s, s.(toEngine := s.toEngine[1..]));
    MessageKeepsOrder(s.(toEngine := s.toEngine[1..]), s.toEngine[0], drop);
  }

  lemma SendKeepsOrder(s: State, record: RecordBuffers, drop: bool)
    requires InOrder(s)
    ensures InOrder(AfterSend(s, record, drop))
  {
    hide InOrder, SendFrom;
    var message := Continue(record.(phase := Writing));
    SendFromKeepsOrder(s, message, drop);
    SameOrder(SendFrom(s, message, drop), AfterSend(s, record, drop));
  }

  lemma CountDownKeepsOrder(s: State, size: nat, drop: bool)
    requires InOrder(s)
    ensures InOrder(AfterCountDown(s, size, drop))
  {
    hide InOrder, StopSession, CutOff;
    if s.stopIn == 1 {
      var cut := s.(stopIn := 0, clips := CutOff(s.clips, RECORDING_BUFFERS_OFFSET * size));
      SameOrder(s, cut);
      StoppingKeepsOrder(cut, drop);
    } else {
      SameOrder(s, AfterCountDown(s, size, drop));
    }
  }

  lemma DisposeKeepsOrder(s: State, drop: bool)
    requires InOrder(s) && s.freeRecords != []
    ensures InOrder(AfterDispose(s, drop))
  {
    hide InOrder, SendFrom, AfterFree;
    var record := s.freeRecords[0];
    var rest := s.(pool := s.pool.(free := AfterFree(s.pool.free, record.buffers)), freeRecords := s.freeRecords[1..]);
    SameOrder(s, rest);
    SendFromKeepsOrder(rest, Continue(record.(phase := Disposing, buffers := [])), drop);
  }

  lemma RequestKeepsOrder(s: State, tracks: nat, drop: bool)
    requires InOrder(s)
    ensures InOrder(AfterRequest(s, tracks, drop))
  {
    hide InOrder, SendTo;
    var message := StartRecording(s.preparing, tracks);
    SendToKeepsOrder(s, message, drop);
    SameOrder(SendTo(s, message, drop), AfterRequest(s, tracks, drop));
  }

  predicate OfThePool(step: Step) {
    step.Borrow? || step.GiveBack? || step.Abandon? || step.AddCaptureChannel? || step.InstallChain? || step.BuildBuffer?
  }

  lemma PoolStepKeepsOrder(s: State, size: nat, step: Step)
    requires InOrder(s) && Enabled(s, step) && OfThePool(step)
    ensures InOrder(Next(s, size, step))
  {
    hide InOrder, AfterFree, AfterHandle, AfterSupply, AfterStart, AfterTake, AfterAdd, AfterSend, AfterUpdate, AfterCountDown,
         AfterDispose, AfterEnd, AfterPrepare, AfterRequest, SendTo, AfterReceive, AfterWrite, AfterSendBack, AfterDelete;
    SameOrder(s, Next(s, size, step));
  }

  lemma OtherKeepsOrder(s: State, drop: bool)
    requires InOrder(s)
    ensures InOrder(AfterOther(s, drop))
  {
  }

  lemma StepKeepsOrder(s: State, size: nat, step: Step)
    requires InOrder(s) && Enabled(s, step)
    ensures InOrder(Next(s, size, step))
  {
    hide InOrder, AfterFree, AfterHandle, AfterSend, AfterCountDown, AfterDispose, AfterRequest, SendTo, AfterReceive, AfterWrite,
         AfterSendBack, AfterDelete, AfterBorrow, AfterGiveBack, AfterAbandon, AfterAddCapture, AfterInstall, AfterBuild;
    match step
    case HandleMessage(drop) => HandleKeepsOrder(s, drop);
    case SendRecord(drop) => SendKeepsOrder(s, s.engine.record, drop);
    case CountDown(drop) => CountDownKeepsOrder(s, size, drop);
    case DisposeRecord(drop) => DisposeKeepsOrder(s, drop);
    case RequestRecording(tracks, drop) => RequestKeepsOrder(s, tracks, drop);
    case RequestStop(drop) => SendToKeepsOrder(s, Stop, drop);
    case RequestPause(drop) => SendToKeepsOrder(s, Pause, drop);
    case SendBack(drop) => SendBackKeepsOrder(s, s.activity.record, drop);
    case Receive => ReceiveKeepsOrder(s);
    case Write => WriteKeepsOrder(s, size, s.activity.record);
    case Delete => DeleteKeepsOrder(s, s.activity.record);
    case Borrow | GiveBack(_) | Abandon | AddCaptureChannel | InstallChain | BuildBuffer => PoolStepKeepsOrder(s, size, step);
    case Supply => SameOrder(s, AfterSupply(s, s.engine.supply[0], s.engine.supply[1..], s.engine.tracks));
    case StartSession => SameOrder(s, AfterStart(s, s.engine.tracks));
    case TakeRecord(armed) => SameOrder(s, AfterTake(s, armed));
    case AddChannel => SameOrder(s, AfterAdd(s, s.engine.record, s.engine.channels));
    case UpdateClips => SameOrder(s, AfterUpdate(s, size));
    case EndRecording => SameOrder(s, AfterEnd(s));
    case PrepareRecord => SameOrder(s, AfterPrepare(s));
    case SendOther(drop) => OtherKeepsOrder(s, drop);
  }

  lemma BuffersNone()
    ensures Buffers([]) == multiset{}
  {
  }

  lemma {:induction false} RunConserves(states: seq<State>, size: nat, steps: seq<Step>, k: nat)
    requires IsRun(states, size, steps) && k < |states|
    ensures Conserved(states[k]) && InOrder(states[k])
  {
    if k > 0 {
      RunConserves(states, size, steps, k - 1);
      StepConserves(states[k - 1], size, steps[k - 1]);
      StepKeepsOrder(states[k - 1], size, steps[k - 1]);
    }
  }

  lemma {:induction false} BufferMadeOnce(buffers: nat, t: Thing)
    ensures AllBuffers(buffers)[t] == (if t.Buffer? && 1 <= t.buffer <= buffers then 1 else 0)
  {
    if buffers > 0 {
      BufferMadeOnce(buffers - 1, t);
      assert AllBuffers(buffers)[t] == AllBuffers(buffers - 1)[t] + multiset{Buffer(buffers)}[t];
    }
  }

  lemma {:induction false} RecordMadeOnce(records: nat, t: Thing)
    ensures AllRecords(records)[t] == (if t.Record? && 1 <= t.id <= records then 1 else 0)
  {
    if records > 0 {
      RecordMadeOnce(records - 1, t);
      assert AllRecords(records)[t] == AllRecords(records - 1)[t] + multiset{Record(records)}[t];
    }
  }

  /**
    Single ownership.  In every reachable state each buffer and each `RecordBuffers`
    has at most one holder.  If no `get_buffer` ever returned null and no send was
    dropped, each buffer that was made has exactly one holder, and each `RecordBuffers`
    has exactly one holder until it is deleted, once.
   */
  lemma SingleOwnership(states: seq<State>, size: nat, steps: seq<Step>, k: nat, t: Thing)
    requires IsRun(states, size, steps) && k < |states|
    ensures Held(states[k])[t] + states[k].deleted[t] <= 1
    ensures !states[k].starved && !states[k].dropped ==>
              && (t.Buffer? && 1 <= t.buffer <= states[k].pool.count ==> Held(states[k])[t] == 1)
              && (t.Record? && 1 <= t.id <= states[k].records ==> Held(states[k])[t] + states[k].deleted[t] == 1)
  {
    hide Conserved, Held;
    RunConserves(states, size, steps, k);
    var s := states[k];
    CountOf(s, t);
    BufferMadeOnce(s.pool.count, t);
    RecordMadeOnce(s.records, t);
  }

  lemma CountOf(s: State, t: Thing)
    requires Conserved(s)
    ensures Held(s)[t] + s.lost[t] + s.deleted[t] == AllBuffers(s.pool.count)[t] + AllRecords(s.records)[t]
  {
    hide Held;
    assert (Held(s) + s.lost + s.deleted)[t] == Made(s)[t];
  }
}
