/**
  The engine's output buffers.  It gets two in each round and gives them back after they
  were played, but neither when it could not get both.
 */
module OutputBuffers {
  import opened Recording
  import opened RecordingEngines

  // ---------------------------------------------------------------- no null among the free buffers

  ghost predicate NoNull(pool: Pool) {
    0 !in pool.free && 0 !in pool.chain
  }

  lemma {:induction false} FreedAreNotNull(free: seq<nat>, buffers: seq<nat>)
    requires 0 !in free
    ensures 0 !in AfterFree(free, buffers)
    decreases |buffers|
  {
    if buffers != [] {
      FreedAreNotNull(if buffers[0] == 0 then free else [buffers[0]] + free, buffers[1..]);
    }
  }

  lemma MessageKeepsNoNull(s: State, message: ToEngine, drop: bool)
    requires NoNull(s.pool)
    ensures NoNull(AfterMessage(s, message, drop).pool)
  {
    hide AfterFree, InFromEngine;
    if message.Resupply? {
      FreedAreNotNull(s.pool.free, message.record.buffers);
    }
  }

  predicate EngineLeavesPool(step: Step) {
    || step.SendOther? || step.StartSession? || step.TakeRecord? || step.SendRecord? || step.UpdateClips? || step.CountDown?
    || step.EndRecording?
  }

  lemma EngineSamePool(s: State, size: nat, step: Step)
    requires Enabled(s, step) && EngineLeavesPool(step)
    ensures Next(s, size, step).pool == s.pool
  {
    hide SendFrom, AfterSend, AfterCountDown, AfterHandle, AfterSupply, AfterAdd, AfterDispose, AfterBorrow, AfterGiveBack, AfterAbandon,
         AfterAddCapture, AfterInstall, AfterBuild, AfterPrepare, AfterRequest, SendTo, AfterReceive, AfterWrite, AfterSendBack,
         AfterDelete;
    match step
    case SendRecord(drop) => SendSamePool(s, s.engine.record, drop);
    case CountDown(drop) => CountDownSamePool(s, size, drop);
    case _ =>
  }

  lemma SendSamePool(s: State, record: RecordBuffers, drop: bool)
    ensures AfterSend(s, record, drop).pool == s.pool
  {
    hide InFromEngine;
  }

  lemma CountDownSamePool(s: State, size: nat, drop: bool)
    ensures AfterCountDown(s, size, drop).pool == s.pool
  {
    hide InFromEngine, CutOff;
  }

  predicate OtherLeavesPool(step: Step) {
    || step.PrepareRecord? || step.RequestRecording? || step.RequestStop? || step.RequestPause?
    || step.Receive? || step.Write? || step.SendBack? || step.Delete?
  }

  lemma SendToSamePool(s: State, message: ToEngine, drop: bool)
    ensures SendTo(s, message, drop).pool == s.pool
  {
    hide InToEngine;
  }

  lemma WriteSamePool(s: State, size: nat, record: RecordBuffers)
    ensures AfterWrite(s, size, record).pool == s.pool
  {
    hide InRecord, Grown;
  }

  lemma OtherSamePool(s: State, size: nat, step: Step)
    requires Enabled(s, step) && OtherLeavesPool(step)
    ensures Next(s, size, step).pool == s.pool
  {
    hide InRecord, SendTo, AfterWrite, AfterHandle, AfterSupply, AfterAdd, AfterDispose, AfterBorrow, AfterGiveBack, AfterAbandon,
         AfterAddCapture, AfterInstall, AfterBuild, AfterOther, AfterStart, AfterTake, AfterSend, AfterUpdate, AfterCountDown, AfterEnd;
    match step
    case RequestRecording(tracks, drop) => SendToSamePool(s, StartRecording(s.preparing, tracks), drop);
    case RequestStop(drop) => SendToSamePool(s, Stop, drop);
    case RequestPause(drop) => SendToSamePool(s, Pause, drop);
    case SendBack(drop) => SendToSamePool(s, Resupply(s.activity.record), drop);
    case Write => WriteSamePool(s, size, s.activity.record);
    case _ =>
  }

  lemma ChannelKeepsNoNull(s: State, record: RecordBuffers, channels: seq<nat>)
    requires NoNull(s.pool) && channels != [] && channels[0] < |s.pool.capture|
    ensures NoNull(AfterAdd(s, record, channels).pool)
  {
  }

  lemma StepKeepsNoNull(s: State, size: nat, step: Step)
    requires NoNull(s.pool) && Enabled(s, step)
    ensures NoNull(Next(s, size, step).pool)
  {
    if EngineLeavesPool(step) {
      hide Next;
      EngineSamePool(s, size, step);
      return;
    } else if OtherLeavesPool(step) {
      hide Next;
      OtherSamePool(s, size, step);
      return;
    }
    hide AfterFree, InFromEngine, AfterMessage, AfterAdd, AfterStart, AfterTake, AfterSend, AfterUpdate, AfterCountDown, AfterEnd,
         AfterPrepare, AfterRequest, SendTo, AfterReceive, AfterWrite, AfterSendBack, AfterDelete;
    match step
    case GiveBack(index) => FreedAreNotNull(s.pool.free, [s.pool.borrowed[index]]);
    case HandleMessage(drop) => MessageKeepsNoNull(s.(toEngine := s.toEngine[1..]), s.toEngine[0], drop);
    case Supply => FreedAreNotNull(s.pool.free, s.engine.supply[0].buffers);
    case DisposeRecord(_) => FreedAreNotNull(s.pool.free, s.freeRecords[0].buffers);
    case AddChannel => ChannelKeepsNoNull(s, s.engine.record, s.engine.channels);
    case _ =>
  }

  lemma {:induction false} FreeIsNeverNull(states: seq<State>, size: nat, steps: seq<Step>, k: nat)
    requires IsRun(states, size, steps) && k < |states|
    ensures NoNull(states[k].pool)
  {
    hide Next, Enabled, NoNull;
    if k == 0 {
      NoneAreNull();
    } else {
      FreeIsNeverNull(states, size, steps, k - 1);
      StepKeepsNoNull(states[k - 1], size, steps[k - 1]);
    }
  }

  lemma NoneAreNull()
    ensures NoNull(Initial.pool)
  {
  }

  // ---------------------------------------------------------------- what comes back

  /** Two buffers come back in the other order, one does not come back. */
  lemma OutputsOf(s: State)
    requires 0 !in s.pool.free
    ensures var free, t := s.pool.free, AfterOutputs(s);
            && (|free| >= 2 ==> t == s.(pool := s.pool.(free := [free[1], free[0]] + free[2..])))
            && (|free| < 2 ==>
                  t == s.(pool := s.pool.(free := []), starved := true, lost := s.lost + (if free == [] then multiset{} else Slot(free[0]))))
  {
    var free := s.pool.free;
    if |free| >= 2 {
      var outs := [free[0], free[1]];
      assert free[1..][0] == free[1] && free[1..][1..] == free[2..];
      assert AfterGet(AfterGet(s.pool)).free == free[2..];
      assert outs[1..] == [free[1]] && [free[1]][1..] == [];
      assert AfterFree([free[0]] + free[2..], [free[1]]) == [free[1]] + ([free[0]] + free[2..]);
      assert [free[1]] + ([free[0]] + free[2..]) == [free[1], free[0]] + free[2..];
    } else {
      var outs := [Got(s.pool), 0];
      assert outs[1..] == [0] && [0][1..] == [];
      assert Buffers([0]) == multiset{} && Buffers(outs) == Slot(Got(s.pool));
      if |free| == 1 {
        assert free[1..] == [];
      }
    }
  }

  /**
    In every reachable state the engine gets back all the buffers that it took to play
    into if and only if there was not just one free; and that one is what is lost.
   */
  lemma OutputsComeBack(states: seq<State>, size: nat, steps: seq<Step>, k: nat)
    requires IsRun(states, size, steps) && k < |states|
    ensures var s, t := states[k], AfterOutputs(states[k]);
            && (multiset(t.pool.free) == multiset(s.pool.free) <==> |s.pool.free| != 1)
            && t.lost == s.lost + (if |s.pool.free| == 1 then Slot(s.pool.free[0]) else multiset{})
  {
    hide IsRun, AfterOutputs, Slot;
    FreeIsNeverNull(states, size, steps, k);
    var s := states[k];
    OutputsOf(s);
    var free := s.pool.free;
    if |free| >= 2 {
      assert free == [free[0], free[1]] + free[2..];
      assert s.lost + multiset{} == s.lost;
    } else if |free| == 1 {
      assert free[0] in multiset(free);
    }
  }

  // ---------------------------------------------------------------- as steps of the system

  lemma BorrowIsStep(s: State, size: nat)
    requires s.engine == Ready
    ensures Enabled(s, Borrow) && Next(s, size, Borrow) == AfterBorrow(s) && AfterBorrow(s).engine == Ready
  {
  }

  lemma GiveBackIsStep(s: State, size: nat, index: nat)
    requires s.engine == Ready && index < |s.pool.borrowed|
    ensures Enabled(s, GiveBack(index)) && Next(s, size, GiveBack(index)) == AfterGiveBack(s, index)
  {
    hide AfterFree;
  }

  lemma AbandonIsStep(s: State, size: nat)
    requires s.engine == Ready && s.starved && s.pool.borrowed != []
    ensures Enabled(s, Abandon) && Next(s, size, Abandon) == AfterAbandon(s)
  {
  }

  /** Four steps in a row. */
  lemma FourSteps(s: State, size: nat, a: Step, b: Step, c: Step, d: Step, s1: State, s2: State, s3: State, s4: State)
    requires Enabled(s, a) && Next(s, size, a) == s1 && Enabled(s1, b) && Next(s1, size, b) == s2
    requires Enabled(s2, c) && Next(s2, size, c) == s3 && Enabled(s3, d) && Next(s3, size, d) == s4
    ensures Reaches(s, size, [a, b, c, d], s4)
  {
    hide Enabled, Next;
    ReachesOne(s3, size, d);
    StepFirst(s2, size, c, s3, [d], s4);
    StepFirst(s1, size, b, s2, [c] + [d], s4);
    StepFirst(s, size, a, s1, [b] + ([c] + [d]), s4);
    assert [a] + ([b] + ([c] + [d])) == [a, b, c, d];
  }

  lemma PlayedIsSteps(s: State, size: nat)
    requires s.engine == Ready && 0 !in s.pool.free && |s.pool.free| >= 2
    ensures Reaches(s, size, [Borrow, Borrow, GiveBack(1), GiveBack(0)], AfterOutputs(s))
  {
    OutputsOf(s);
    hide Enabled, Next, AfterOutputs, Reaches;
    var s1 := AfterBorrow(s);
    var s2 := AfterBorrow(s1);
    var s3 := AfterGiveBack(s2, 1);
    var s4 := AfterGiveBack(s3, 0);
    BorrowIsStep(s, size);
    BorrowIsStep(s1, size);
    GiveBackIsStep(s2, size, 1);
    GiveBackIsStep(s3, size, 0);
    FourSteps(s, size, Borrow, Borrow, GiveBack(1), GiveBack(0), s1, s2, s3, s4);
    var free := s.pool.free;
    assert s2.pool.borrowed == [free[1], free[0]] + s.pool.borrowed && s2.pool.free == free[2..];
    assert s3.pool.borrowed == [free[1]] + s.pool.borrowed && s3.pool.free == [free[0]] + free[2..] by {
      FreedOne(s2.pool.free, free[0]);
    }
    assert s4.pool.borrowed == s.pool.borrowed && s4.pool.free == [free[1], free[0]] + free[2..] by {
      FreedOne(s3.pool.free, free[1]);
    }
    assert s4 == s.(pool := s.pool.(free := [free[1], free[0]] + free[2..]));
  }

  lemma FreedOne(free: seq<nat>, buffer: nat)
    requires buffer != 0
    ensures AfterFree(free, [buffer]) == [buffer] + free
  {
    assert [buffer][1..] == [];
  }

  lemma MissedIsSteps(s: State, size: nat)
    requires s.engine == Ready && 0 !in s.pool.free && |s.pool.free| < 2
    ensures Reaches(s, size, [Borrow, Borrow, Abandon, Abandon], AfterOutputs(s))
  {
    hide Enabled, Next, AfterOutputs, Reaches;
    var s1 := AfterBorrow(s);
    var s2 := AfterBorrow(s1);
    var s3 := AfterAbandon(s2);
    var s4 := AfterAbandon(s3);
    BorrowIsStep(s, size);
    BorrowIsStep(s1, size);
    AbandonIsStep(s2, size);
    AbandonIsStep(s3, size);
    FourSteps(s, size, Borrow, Borrow, Abandon, Abandon, s1, s2, s3, s4);
    AbandonedTwice(s);
  }

  lemma AbandonedTwice(s: State)
    requires s.engine == Ready && 0 !in s.pool.free && |s.pool.free| < 2
    ensures AfterAbandon(AfterAbandon(AfterBorrow(AfterBorrow(s)))) == AfterOutputs(s)
  {
    OutputsOf(s);
    hide AfterOutputs, Slot;
    assert Slot(0) == multiset{} by { NoBuffer(); }
    var s2 := AfterBorrow(AfterBorrow(s));
    var first := Got(s.pool);
    assert s2 == s.(pool := s.pool.(free := [], borrowed := [0, first] + s.pool.borrowed), starved := true);
    hide Got, AfterGet, AfterBorrow;
    assert s2.pool.borrowed[1..] == [first] + s.pool.borrowed && s2.pool.borrowed[1..][1..] == s.pool.borrowed;
    assert s.lost + Slot(0) + Slot(first) == s.lost + Slot(first) && s.lost + multiset{} == s.lost;
  }

  lemma NoBuffer()
    ensures Slot(0) == multiset{}
  {
  }

  /** What the engine does about its output buffers is a run of the system's steps. */
  lemma OutputsAreSteps(states: seq<State>, size: nat, steps: seq<Step>, k: nat) returns (more: seq<Step>)
    requires IsRun(states, size, steps) && k < |states| && states[k].engine == Ready
    ensures Reaches(states[k], size, more, AfterOutputs(states[k]))
  {
    hide IsRun, AfterOutputs, Reaches;
    FreeIsNeverNull(states, size, steps, k);
    if |states[k].pool.free| >= 2 {
      PlayedIsSteps(states[k], size);
      more := [Borrow, Borrow, GiveBack(1), GiveBack(0)];
    } else {
      MissedIsSteps(states[k], size);
      more := [Borrow, Borrow, Abandon, Abandon];
    }
  }

  /** When the first buffer that was ever built is the only one, it is lost. */
  lemma OneBufferIsLost(size: nat)
    ensures var s := AfterInstall(AfterBuild(Initial));
            && Reaches(Initial, size, [BuildBuffer, InstallChain], s)
            && s.pool.free == [1] && AfterOutputs(s).pool.free == [] && AfterOutputs(s).lost == multiset{Buffer(1)}
  {
    var built := AfterBuild(Initial);
    var s := AfterInstall(built);
    assert Enabled(Initial, BuildBuffer) && Next(Initial, size, BuildBuffer) == built;
    assert Enabled(built, InstallChain) && Next(built, size, InstallChain) == s;
    assert s.pool.free == [1];
    OutputsOf(s);
    hide Enabled, Next, AfterOutputs;
    ReachesOne(built, size, InstallChain);
    StepFirst(Initial, size, BuildBuffer, built, [InstallChain], s);
    assert [BuildBuffer] + [InstallChain] == [BuildBuffer, InstallChain];
  }
}
