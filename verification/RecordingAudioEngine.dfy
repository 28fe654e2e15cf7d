/** The engine's recording methods, against the functions of the system's state. */
module RecordingAudioEngines {
  import opened Recording
  import opened RecordingEngines

  class AudioEngine {
    const bufferSize: nat
    var pool: Pool
    var freeRecordBuffers: seq<RecordBuffers>
    var recording: bool
    var stopRecordingInBuffers: nat
    var recordingClips: seq<Clip>
    /** The messages sent that the other thread has not received. */
    var from: seq<FromEngine>
    /** Where the engine is. */
    ghost var at: Engine
    /** What the other thread has, and what has gone wrong so far. */
    ghost var outside: State

    constructor (size: nat)
      ensures View() == Initial && bufferSize == size
    {
      bufferSize := size;
      pool, freeRecordBuffers, recording, stopRecordingInBuffers := Pool(0, [], [], [], []), [], false, 0;
      recordingClips, from, at, outside := [], [], Ready, Initial;
    }

    ghost function View(): State
      reads this
    {
      outside.(pool := pool, freeRecords := freeRecordBuffers, engine := at, recording := recording,
      stopIn := stopRecordingInBuffers, clips := recordingClips, fromEngine := from)
    }

    /** A message that does not fit is dropped. */
    method Send(message: FromEngine)
      modifies this`from, this`outside
      ensures View() == SendFrom(old(View()), message, IsFull(old(View())))
    {
      hide InFromEngine;
      if |from| >= ROOM {
        outside := outside.(dropped := true, lost := outside.lost + InFromEngine([message]));
      } else {
        from := from + [message];
      }
    }

    method FreeBuffers(record: RecordBuffers)
      modifies this`pool
      ensures pool == old(pool).(free := AfterFree(old(pool).free, record.buffers))
    {
      for i := 0 to |record.buffers|
        invariant AfterFree(old(pool).free, record.buffers) == AfterFree(pool.free, record.buffers[i..])
        invariant pool == old(pool).(free := pool.free)
      {
        assert record.buffers[i..][1..] == record.buffers[i + 1..];
        if record.buffers[i] != 0 {
          pool := pool.(free := [record.buffers[i]] + pool.free);
        }
      }
    }

    /** Buffers to play into, for two channels; what is played is not part of this. */
    method RunOutputs()
      modifies this`pool, this`outside
      ensures View() == AfterOutputs(old(View()))
    {
      hide AfterFree, Buffers;
      ghost var once := AfterGet(pool);
      ghost var was, twice := pool, AfterGet(once);
      var outs: seq<nat> := [];
      var missing := false;
      for channel := 0 to 2
        invariant pool == (if channel == 0 then was else if channel == 1 then once else twice)
        invariant outs == [Got(was), Got(once)][..channel]
        invariant (missing <==> 0 in outs) && outside == old(outside)
      {
        outs, pool := outs + [Got(pool)], AfterGet(pool);
        missing := missing || outs[channel] == 0;
      }
      assert outs == [Got(was), Got(once)];
      if missing {
        outside := outside.(starved := outside.starved || was.free == [] || once.free == [], lost := outside.lost + Buffers(outs));
      } else {
        FreeBuffers(RecordBuffers(0, Filling, outs));
      }
    }

    /** Moves the buffers of the armed channels to the record and puts new ones in their places. */
    method AddChannels(armed: seq<bool>, recordIn: RecordBuffers) returns (record: RecordBuffers)
      requires |armed| <= |pool.capture| && at == Adding(recordIn, ArmedFrom(armed, 0))
      modifies this`pool, this`at, this`outside
      ensures View() == AfterAdds(old(View()), recordIn, ArmedFrom(armed, 0)) && at == Adding(record, [])
      ensures |pool.capture| == |old(pool.capture)|
    {
      hide AfterAdd;
      record := recordIn;
      for c := 0 to |armed|
        invariant |pool.capture| == |old(pool.capture)| && at == Adding(record, ArmedFrom(armed, c))
        invariant AfterAdds(old(View()), recordIn, ArmedFrom(armed, 0)) == AfterAdds(View(), record, ArmedFrom(armed, c))
      {
        if armed[c] {
          assert ArmedFrom(armed, c)[1..] == ArmedFrom(armed, c + 1);
          record := AddChannel(c, record, ArmedFrom(armed, c));
        }
      }
    }

    method AddChannel(c: nat, recordIn: RecordBuffers, ghost channels: seq<nat>) returns (record: RecordBuffers)
      requires c < |pool.capture| && channels != [] && channels[0] == c && at == Adding(recordIn, channels)
      modifies this`pool, this`at, this`outside
      ensures View() == AfterAdd(old(View()), recordIn, channels) && at == Adding(record, channels[1..])
      ensures |pool.capture| == |old(pool.capture)|
    {
      record := recordIn.(buffers := recordIn.buffers + [pool.capture[c]]);
      at := Adding(record, channels[1..]);
      outside := outside.(starved := outside.starved || pool.free == []);
      pool := AfterGet(pool).(capture := pool.capture[c := Got(pool)]);
    }

    method RunRecording(armed: seq<bool>)
      requires |armed| <= |pool.capture| && at == Ready && recording
      modifies this
      ensures View() == AfterRunRecording(old(View()), bufferSize, ArmedFrom(armed, 0))
    {
      hide AfterAdds, SendFrom, StopSession, AfterDisposes, AfterFree, CutOff, Lengthened, AfterRecord, AfterCountDown, AfterUpdate;
      RecordBuffer(armed);
      UpdateClips();
      CountDown();
    }

    /** Sends the captured buffers off to be written, if there is something to send them in. */
    method RecordBuffer(armed: seq<bool>)
      requires |armed| <= |pool.capture| && at == Ready
      modifies this
      ensures View() == AfterRecord(old(View()), ArmedFrom(armed, 0))
    {
      hide AfterAdds, AfterAdd, AfterSend, SendFrom;
      if freeRecordBuffers == [] {
        outside := outside.(unrecorded := true);
        at := Sent;
        return;
      }
      var record := freeRecordBuffers[0];
      freeRecordBuffers := freeRecordBuffers[1..];
      at := Adding(record, ArmedFrom(armed, 0));
      record := AddChannels(armed, record);
      StartWrite(record);
    }

    /** Sends a filled record off to be written. */
    method StartWrite(record: RecordBuffers)
      modifies this`from, this`outside, this`at
      ensures View() == AfterSend(old(View()), record, IsFull(old(View())))
    {
      hide SendFrom;
      ghost var full := IsFull(View());
      SendKeeps(View(), Continue(record.(phase := Writing)), full);
      Send(Continue(record.(phase := Writing)));
      outside := outside.(unrecorded := outside.unrecorded || full);
      at := Sent;
    }

    method UpdateClips()
      modifies this`recordingClips, this`at
      ensures View() == AfterUpdate(old(View()), bufferSize) && at == Updated
    {
      ghost var before := recordingClips;
      for i := 0 to |recordingClips|
        invariant |recordingClips| == |before|
        invariant forall j :: 0 <= j < |before| ==>
                    recordingClips[j] == if j < i then before[j].(length := before[j].length + bufferSize) else before[j]
      {
        recordingClips := recordingClips[i := recordingClips[i].(length := recordingClips[i].length + bufferSize)];
      }
      assert recordingClips == Lengthened(before, bufferSize);
      at := Updated;
    }

    /** Counts the buffers that are still to be recorded after a stop, and finishes after the last. */
    method CountDown()
      requires at == Updated
      modifies this
      ensures View() == (var counted := AfterCountDown(old(View()), bufferSize, IsFull(old(View())));
                         if counted.engine == Ending then AfterDisposes(counted) else counted)
    {
      hide CutOff, SendFrom, InFromEngine, AfterDisposes;
      if stopRecordingInBuffers == 0 {
        at := Ready;
        return;
      }
      stopRecordingInBuffers := stopRecordingInBuffers - 1;
      if stopRecordingInBuffers > 0 {
        at := Ready;
        return;
      }
      FinishRecording();
    }

    method FinishRecording()
      requires stopRecordingInBuffers == 0
      modifies this
      ensures View() == AfterDisposes(StopSession(
                          old(View()).(clips := CutOff(old(recordingClips), RECORDING_BUFFERS_OFFSET * bufferSize)),
                          IsFull(old(View()))))
    {
      hide CutOff, StopSession, AfterDisposes;
      CutClips();
      EndSession();
      DisposeRecordBuffers();
    }

    /** What was recorded before anything could be heard is cut off. */
    method CutClips()
      modifies this`recordingClips
      ensures recordingClips == CutOff(old(recordingClips), RECORDING_BUFFERS_OFFSET * bufferSize)
    {
      var offsetFrames := RECORDING_BUFFERS_OFFSET * bufferSize;
      ghost var before := recordingClips;
      for i := 0 to |recordingClips|
        invariant |recordingClips| == |before|
        invariant forall j :: 0 <= j < |before| ==>
                    recordingClips[j] == if j < i then CutOff(before, offsetFrames)[j] else before[j]
      {
        var clip := recordingClips[i];
        recordingClips := recordingClips[i := Clip(clip.fileStart + offsetFrames, clip.length - offsetFrames)];
      }
    }

    /** Tells the other thread that recording has stopped. */
    method EndSession()
      modifies this`from, this`outside, this`at
      ensures View() == StopSession(old(View()), IsFull(old(View()))) && at == Ending
    {
      hide SendFrom;
      Send(RecordingStopped);
      at := Ending;
      outside := outside.(session := Stopping);
      SendKeeps(old(View()), RecordingStopped, IsFull(old(View())));
    }

    method DisposeRecordBuffers()
      requires at == Ending
      modifies this
      ensures View() == AfterDisposes(old(View()))
    {
      hide AfterDispose, AfterFree, SendFrom;
      while freeRecordBuffers != []
        invariant at == Ending && AfterDisposes(old(View())) == AfterDisposes(View())
        decreases |freeRecordBuffers|
      {
        DisposeFirst();
      }
      recording := false;
      at := Ready;
    }

    method DisposeFirst()
      requires freeRecordBuffers != [] && at == Ending
      modifies this`pool, this`freeRecordBuffers, this`from, this`outside
      ensures View() == AfterDispose(old(View()), IsFull(old(View()))) && freeRecordBuffers == old(freeRecordBuffers)[1..]
    {
      hide AfterFree, InFromEngine;
      var record := freeRecordBuffers[0];
      FreeBuffers(record);
      freeRecordBuffers := freeRecordBuffers[1..];
      Send(Continue(record.(phase := Disposing, buffers := [])));
    }

    /** A stop while recording; the recording goes on for a few buffers. */
    method StopRecording()
      requires recording
      modifies this`from, this`outside, this`stopRecordingInBuffers
      ensures View() == AfterMessage(old(View()), Recording.Stop, IsFull(old(View())))
    {
      hide InFromEngine;
      Send(RecordingCheckpoint);
      stopRecordingInBuffers := RECORDING_BUFFERS_OFFSET + 1;
    }

    /** A message that is not about recording; it does not matter here whether it is dropped. */
    method SendOther()
      modifies this`from
      ensures View() == AfterOther(old(View()), IsFull(old(View())))
    {
      if |from| < ROOM {
        from := from + [Other];
      }
    }

    /** A stop lets a recording go on for a few buffers. */
    method Stop()
      modifies this`from, this`outside, this`stopRecordingInBuffers
      ensures View() == AfterStop(old(View()))
    {
      hide InFromEngine;
      SendOther();
      if recording {
        StopRecording();
      }
    }

    /** A pause ends a recording at once. */
    method Pause()
      modifies this
      ensures View() == AfterPause(old(View()))
    {
      hide AfterDisposes, StopSession;
      SendOther();
      if recording {
        EndSession();
        DisposeRecordBuffers();
      }
    }

    /** A `RecordBuffers` that was written comes back; its buffers are free again. */
    method Resupply(record: RecordBuffers)
      modifies this`pool, this`freeRecordBuffers
      ensures View() == AfterMessage(old(View()), Recording.Resupply(record), false)
    {
      hide AfterFree;
      FreeBuffers(record);
      freeRecordBuffers := [record.(phase := Filling, buffers := [])] + freeRecordBuffers;
    }
  }

  /** A send does not depend on where the engine is. */
  lemma SendKeeps(s: State, message: FromEngine, drop: bool)
    ensures var t := SendFrom(s, message, drop);
            t.engine == s.engine && t.session == s.session && t == s.(fromEngine := t.fromEngine, dropped := t.dropped, lost := t.lost)
  {
    hide InFromEngine;
  }
}
