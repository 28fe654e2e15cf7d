# A model of dawlet

dawlet is an audio workstation of two threads. A realtime engine plays, mixes and
records one buffer after another; the DAW thread does everything that may take time:
it reads and writes files, serves the user interface and creates whatever the engine
needs. The two talk through ring buffers only and hand memory back and forth.

This project models the parts where that is hard to get right, and proves what they
are for.

- **Playing.** `Clip.dfy` has the two read slots of a clip, `ReadAhead`, which fills
  them, and `Run`, which stitches them into output buffers; `ClipTheorems.dfy` shows
  that this is the same as just playing the file. `Playlist.dfy` and
  `PlaylistTheorems.dfy` show that the walk over a playlist may skip clips, and
  `SeamlessPlaylist.dfy` that a playlist sounds like its clips. Positions are whole
  frames, the rate of the file is that of the engine, and a file is a function from
  frames to samples, one channel of it at a time.
- **The two threads.** `MessageQueue.dfy` has the ring, every load and store a step of
  its own; `BufferManager.dfy` the hand-off of new buffers, just as fine;
  `SafeSave.dfy` the processes that change the project and the wait before it is
  saved; `Recording.dfy` the recording, `RecordingOwnership.dfy` and
  `RecordingConsistency.dfy` what every run of it keeps, `RecordingClips.dfy` what the clips
  are in the end, and `RecordingEngine.dfy` and
  `RecordingAudioEngine.dfy` the engine's methods, each shown to be a run of steps;
  `OutputBuffers.dfy` what becomes of the buffers that the engine plays into.
  A run is any interleaving of both threads, of any length. Memory is sequentially
  consistent. A send to a full queue is dropped without a word, as in the source.
- **The project file.** `Sink.dfy` and `IndentedOStream.dfy` are the printer, `JSON.dfy` and
  `JSONParser.dfy` the tokenizer, `ProjectFile.dfy` and `ProjectIO.dfy` what is written
  and read with them. `TokenTheorems.dfy` says exactly which strings and numbers
  survive, `ProjectText.dfy` that a printed project is its tokens, and
  `ProjectRoundTrip.dfy` that a saved project reopens as it was. `JSONValues.dfy` has values
  as trees and when one is ignored whole, and `UnknownFields.dfy` shows that fields of later
  versions make no difference.
- **Bytes.** `WebSocket.dfy`, `WebSocketTheorems.dfy` and `WebSocketStreams.dfy` reassemble
  frames (sections 5.2 to 5.5 of RFC 6455); `Sha1.dfy` is the definition in sections 4 to 6.1 of
  RFC 3174 and `Sha1Stream.dfy` the streaming and the simple program, both proved to
  compute it; `SampleCodec.dfy` is 24-bit recording and playing; `Wav.dfy`,
  `WavFile.dfy` and `WavTheorems.dfy` are WAV files, written with checkpoints and read.
- **The track tree.** `Mixer.dfy` is the recursive mix with borrowed buffers;
  `Siblings.dfy` is the order of siblings, `TrackList.dfy` the linked list that holds it,
  and `TrackDeletion.dfy` the undoing of deletions.

`Wrappers.dfy` has the option and result types that all of these share.

A class stands for each class of the source that changes its fields. Its methods are
proved against functions of the state before, and the theorems are about these
functions.

## Where the code does not do what one would expect

The model follows the code. These are proved, with the exact condition where there is one.

- An array without elements in a field that is ignored is not skipped: its bracket is taken
  for an element (`src/JSONParser.cpp:56-62`), and what follows for more of them. So unknown
  fields are ignored, as they are meant to be, if and only if no array in them is empty:
  `IgnoredIfNotEmpty`, `EmptyArrayGoesOn`, `EmptyArrayThenGain`. A field of the empty name
  ends its object (lines 14-27): `EmptyNameEndsObject`.
- A seek back by less than the read-ahead window leaves a gap in front of the read that
  is kept, since `first_loading_frame` is computed and not used (`src/Clip.cpp:194-231`):
  `CoveredUnlessGap`, `ShortBackwardSeekLeavesGap`.
- `BufferManager::tick` reads `needed_new_buffers` twice. If the need has dropped to just
  zero at the second read, since the engine installed a chain in between, a buffer is
  built that is never counted (`src/BufferManager.cpp:76-100`). `num_free_buffers` is right
  if and only if that never happened: `CountIsExact`, `DriftIsForGood`, `StaleNeedMiscounts`.
- Not all processes that change the project are counted. The start of a recording is no
  mutating process (`src/StartRecordingProcess.h:12`), but it adds clips to the project, which
  each recorded buffer then lengthens; and tracks are armed by an uncounted process when no
  connection asked for it (`src/SetTrackStateProcesses.h:56-61`), also while a save waits. So
  the project can change while it is being saved, if and only if the engine is recording or
  has been sent an uncounted process that changes the project and has not yet run:
  `SaveIsExclusiveUnlessExposed`, `RecordingDisturbsSave`. That is not what
  `README.md:33-43` of the repository promises.
- `get_capture_buffer` takes the channel just past the last one, and negative ones, to exist
  (`src/AudioEngine.cpp:520-525`), and the names of inputs are not checked against the card
  (`src/ALSAAudioInterface.cpp:525-546`). Then the mix reads outside the array:
  `Mixers.Engine.Run`, `ThirdInputOfTwo`.
- Strings are written without escapes and read without unescaping: `QuotedReadsBack`.
  A sign after the exponent ends a number (`src/JSONParser.cpp:191-212`):
  `NumberReadsBack`, `ExponentSignIsCutOff`. A count of frames of 2^31 or more does not
  survive, since it is read as an `int`: `FramesReadBack`.
- A WebSocket frame without a payload is not acted on until a further byte arrives
  (`src/web/Connection.cpp:449-463`): `EmptyFrameWaits`, `LastEmptyFrameWaits`. An extended
  length is an endless loop (lines 453-456), which the model calls `Hung`; a stream of any
  bytes leads there if and only if such a length is reached, all of it and a byte more:
  `HangsOnExtendedLength`.
- The SHA-1 program counts bytes in 32 bits: `LengthIsRight`.
- `push_back` leaves the `next` of the new element as it was, so the list is sound only if
  that was null (`src/List.h:40-46`): `PushBack`, `AddChildBefore`. A deleted track still
  leads to the sibling that followed it. So a track that is restored without a sibling
  (`src/APIHandlers.cpp:231-240`) breaks the list unless it was the last, and tracks restored
  in the order of deletion break it if and only if one of the siblings they are to be put
  before was deleted later: `RestoredAtTheEnd`, `SameOrderIsSound`, `SameOrderOfTwo`,
  `DeleteAndRestoreFirst`, `DeleteNeighbours`.
- The RIFF size written is the size of the file less 4, not less 8
  (`src/Recorder.cpp:324-344`), and 8 is added to it in an `int` (`src/WAVFile.cpp:26`), which
  overflows for the last eight sizes that a RIFF size can have: `FinishedFileOpens`.
- The engine does not return its first output buffer when the second is missing
  (`src/AudioEngine.cpp:336-367`). It gets back all that it took if and only if there was not
  just one free buffer: `OutputsComeBack`, `OneBufferIsLost`.

## Model

| member | source | states |
|---|---|---|
| ClipTheorems.SeamlessPlayback | src/Clip.cpp:96-243 | Main result. Over any uninterrupted run of buffers, from any well-formed slots and any position that leaves no gap, with a request free for each buffer in which some frame is still to be read and what was read arriving in time: buffer k is what it was plus exactly the file frames that belong at its place in time, and nothing where the clip does not reach, across slots, starts in mid-buffer and the clip's end |
| ClipTheorems.BufferOnTrack | src/Clip.cpp:96-243 | One buffer of such a run sounds right and leaves the clip in a state from which the next one will |
| ClipTheorems.RunInTime | src/Clip.cpp:96-183 | If the buffer's frames are covered by reads that have arrived, `run` adds just the frames between the clip's bounds, whether it was playing, starts in the middle of the buffer or in the middle of the clip, and ends in step with the play head |
| ClipTheorems.PlayedInTime | src/Clip.cpp:126-182 | The copying loop, when no frame is missing, amounts to one copy up to the end of the buffer or of the clip, and reports no miss |
| ClipTheorems.NeverMisplaced | src/Clip.cpp:126-182 | In time or not: a frame that is added to the buffer is the one that belongs at that place, for any pattern of missing reads within the buffer |
| ClipTheorems.MissingFramesAreSkipped | src/Clip.cpp:147-169 | When the next frame is missing, the first slot whose read lies strictly within the rest of the buffer sounds in full at its place, if it has arrived; if there is none, or it has not, the rest of the buffer stays as it was |
| ClipTheorems.CoveredIsPlayable | src/Clip.cpp:134-145 | A frame covered by reads that have arrived is found by the search and can be played |
| ClipTheorems.PreparedToPlay | src/Clip.cpp:87-93 | `prepare_to_play` sets up the start of such a run if and only if it leaves no gap |
| ClipTheorems.ForwardCoverage | src/Clip.cpp:186-275 | For any history of play positions that never go back, interleaved with arriving data and with refused reads: after every `read_ahead` that had a request free, or no frame still to be read, all the clip's frames within the window from the play position are in the slots |
| ClipTheorems.ForwardHasNoGap | src/Clip.cpp:186-243 | In every state of such a history no later position will find a gap, also after reads were refused |
| ClipTheorems.CoveredUnlessGap | src/Clip.cpp:186-243 | For any position at all: the window is covered after a `read_ahead` with a request free, or with no frame still to be read, if and only if no useful read starts behind the first frame to play |
| ClipTheorems.StartedIfNeeded | src/Clip.cpp:222-275 | For all well-formed slots: a read is started if and only if there is a request and some frame of the clip in the window lies behind all useful reads; it is refused just when there is such a frame and no request |
| ClipTheorems.ReadsWhatIsNeeded | src/Clip.cpp:194-275 | All that a `read_ahead` does to the slots: reads with frames to play that start within the window stay, others go, and the new read begins at the first frame behind them, is a window long or ends with the clip, and takes the first slot that is left |
| ClipTheorems.ShortBackwardSeekLeavesGap | src/Clip.cpp:194-231 | A seek back by 5 frames with a window of 10 after which nothing is read and the window is not covered |
| ClipTheorems.NoGapIsKept | src/Clip.cpp:186-243 | A `read_ahead` that leaves no gap leaves none for any later position either |
| ClipTheorems.CompletionKeeps | src/Clip.cpp:246-275 | Arriving data makes just the reads it is for playable, and changes neither the shape of the slots nor what they cover |
| ClipTheorems.NeverOverflows | src/Clip.cpp:194-264 | However the play head moves, forward or back, the slots stay disjoint, adjacent when both are used, inside the clip and a window long unless they end with it, and no read is ever turned away for want of a slot |
| ClipTheorems.ReadAheadKeepsTable | src/Clip.cpp:194-264 | One `read_ahead` keeps that shape, from any slots of that shape |
| ClipTheorems.EventKeepsTable | src/Clip.cpp:87-275 | So does anything else that can happen to a clip |
| Clips.Clip.StartRead | src/Clip.cpp:246-275 | Uses the first empty slot, as `ReadsWhatIsNeeded` says; reports whether the read was started, refused, or found no slot, and changes nothing in the last two cases |
| Clips.Clip.ReadAhead | src/Clip.cpp:186-243 | The slots and the outcome are those that `StartedIfNeeded`, `ReadsWhatIsNeeded` and the coverage theorems are about |
| Clips.Clip.PrepareToPlay | src/Clip.cpp:87-93 | Reads ahead, stops the clip and sets its position |
| Clips.Clip.PlayIntoBuffer | src/Clip.cpp:177-179 | Adds the frames at their places and leaves the rest of the buffer alone |
| Clips.Clip.FindRead | src/Clip.cpp:134-144 | Finds the first slot that holds the frame, or none |
| Clips.Clip.FindLaterRead | src/Clip.cpp:152-163 | Finds the first slot that begins after the frame and ends before the buffer does, or none |
| Clips.Clip.NextRead | src/Clip.cpp:134-169 | Chooses what to copy from next, skips to it if the frame is missing, or gives up on the buffer, with the position each leads to |
| Clips.Clip.CopyFrames | src/Clip.cpp:126-182 | The loop over slots and output frames computes what the theorems on playing are about |
| Clips.Clip.Run | src/Clip.cpp:96-183 | The whole of `run` on a real buffer: new state and new samples are those of the theorems |
| PlaylistTheorems.WalkIsFaithful | src/Playlist.cpp:87-121 | Main result. For clips in time order that do not overlap, after `prepare_to_play` and over any number of buffers with any arrivals and any supply of requests: starting at `first_playing_clip` and breaking off early gives the same sound and the same requests as running every clip in every buffer |
| PlaylistTheorems.SameRun | src/Playlist.cpp:101-121 | The same for any two states that agree from the first clip that has not ended |
| PlaylistTheorems.SameBuffer | src/Playlist.cpp:101-121 | One buffer: same sound, same requests, and the states still agree |
| PlaylistTheorems.SameWalk | src/Playlist.cpp:101-121 | From the first clip that has not ended, both walks stay together, although only one moves the index and stops |
| PlaylistTheorems.EndedAreSilent | src/Playlist.cpp:106-119 | Running clips that have ended neither sounds nor takes a request |
| PlaylistTheorems.FarAreIdle | src/Playlist.cpp:114-120 | Running clips beyond the window changes nothing at all |
| PlaylistTheorems.RequestTaken | src/Clip.cpp:266-275 | Reading ahead takes one request if there is one and some frame of the clip is still to be read, and none otherwise |
| PlaylistTheorems.RunOneGood | src/Clip.cpp:96-183 | What one clip may assume and keeps from buffer to buffer in a forward run; silent once ended, untouched while out of reach |
| PlaylistTheorems.PlayedAdvances | src/Clip.cpp:126-182 | Even when reads are missing, the position of a clip that goes on playing moves by at least the rest of the buffer |
| PlaylistTheorems.PreparedIsGood | src/Playlist.cpp:87-98 | `prepare_to_play` puts every clip in the state that a forward run assumes |
| SeamlessPlaylists.PlaylistIsSeamless | src/Playlist.cpp:87-121 | Main result. Prepare a playlist where no clip is left a gap and run it forward, with a request for each visited clip that has a frame still to be read and reads in time: sample j of buffer k becomes what it was plus the sum of what all clips, visited or not, have at that frame of the timeline |
| SeamlessPlaylists.BufferIsSeamless | src/Playlist.cpp:101-121 | One buffer of such a run, after which all clips that may still be visited are ready for the next |
| SeamlessPlaylists.WalkIsIdeal | src/Playlist.cpp:106-120 | The walk, with its skipping and its early end, adds what every clip should add, one after the other |
| SeamlessPlaylists.OneIsIdeal | src/Clip.cpp:96-243 | Reading ahead, receiving data and running adds just what one clip should, and keeps it ready for the next buffer |
| SeamlessPlaylists.PreparedIsReady | src/Playlist.cpp:87-98 | `prepare_to_play` makes every clip ready that it leaves no gap |
| Playlists.FirstPlaying | src/Playlist.cpp:87-98 | The first clip that has not ended: it has not, all before it have |
| Playlists.Playlist.PrepareToPlay | src/Playlist.cpp:87-98 | Prepares every clip in turn, counts the requests used, and leaves the index at the first clip that has not ended |
| Playlists.Playlist.Run | src/Playlist.cpp:101-121 | The loop with its skipping and breaking computes the walk of the theorems |
| MessageQueues.RefinesBoundedFifo | src/MessageQueue.cpp:23-94 | In any interleaving of loads and stores, publishing the tail is the one step that enqueues, advancing the head the one that dequeues, every other step leaves the queue alone, and a sender finds it full, or a receiver empty, just when it is |
| MessageQueues.ReceivesPrefixOfAccepted | src/MessageQueue.cpp:23-94 | In every run what was received is, message by message, a prefix of what was accepted, and at most capacity - 1 are in between |
| MessageQueues.UnreadSlotsAreStable | src/MessageQueue.cpp:23-29 | No step overwrites a slot whose message has not been received |
| MessageQueues.StepKeepsInv | src/MessageQueue.cpp:23-94 | Every step of either side keeps the ring's invariant |
| MessageQueues.MessageQueue.constructor | src/MessageQueue.cpp:9-14 | A new ring is empty |
| MessageQueues.MessageQueue.Send | src/MessageQueue.cpp:38-67 | A send that is not interrupted is the sender's steps in their order; on a full ring it changes nothing |
| MessageQueues.MessageQueue.Receive | src/MessageQueue.cpp:70-82 | Takes the oldest message and leaves the others, or says that there is none, just when there is none |
| BufferManagers.HandOffIsSafe | src/BufferManager.cpp:49-119 | Over every interleaving of the separate loads and stores of `tick` with `run`, `get_buffer` and `free_buffer`: free list, chain and borrowed buffers are a partition of all buffers; the free list is well linked; outside `run` it is longer than the counter says by the number of times that `tick` found the need gone at its second read, less one if that chain is still to come; a published chain has distinct nodes, ends at `last_new_buffer`, and has as many as announced if and only if the need was there at that read; the need is never negative |
| BufferManagers.CountIsExact | src/BufferManager.cpp:49-119 | Outside `run`, and with no chain on its way, the counter is the length of the free list if and only if no `tick` found the need gone at its second read; with a chain on its way, if and only if no such chain but that one was built |
| BufferManagers.StaleNeedMiscounts | src/BufferManager.cpp:76-119 | A run in which the engine installs a chain between the two reads, after which the free list is one longer than its counter says |
| BufferManagers.DriftIsForGood | src/BufferManager.cpp:49-119 | However any run goes on, that difference never gets smaller |
| BufferManagers.FewRaisesNeed | src/BufferManager.cpp:115-118 | In every interleaving: if the last `run` found fewer free buffers than the 50 wanted, the need is what it was and 50 more, so at least 50, until the next `run`; if it found enough, the need is what it was |
| BufferManagers.OverrunIfEmpty | src/BufferManager.cpp:49-61 | In every interleaving an overrun is noted if and only if a buffer was wanted when none was free |
| BufferManagers.StaleAreUncounted | src/BufferManager.cpp:76-119 | At every single load or store, uncounted buffers in the free list or on their way are as many as the times that the need was gone at its second read |
| BufferManagers.StepKeepsInv | src/BufferManager.cpp:49-119 | Every single load or store keeps the invariant of the hand-off |
| BufferManagers.BufferManager.constructor | src/BufferManager.cpp:13-22 | Starts with no buffers and no need |
| BufferManagers.BufferManager.GetBuffer | src/BufferManager.cpp:49-61 | Takes the first free buffer, or null when there is none, and keeps the invariant |
| BufferManagers.BufferManager.FreeBuffer | src/BufferManager.cpp:64-73 | Puts a borrowed buffer at the front of the free list; null is ignored |
| BufferManagers.BufferManager.InstallNewBuffers | src/BufferManager.cpp:103-113 | A published chain becomes the front of the free list and is counted |
| BufferManagers.BufferManager.Run | src/BufferManager.cpp:103-119 | Installs and then asks for what is missing, as the engine's steps do without interruption: with fewer free than wanted, as many are needed at least |
| BufferManagers.BufferManager.BuildChain | src/BufferManager.cpp:81-95 | The loop builds a chain of as many distinct new buffers as wanted |
| BufferManagers.BufferManager.Tick | src/BufferManager.cpp:76-100 | Publishes a chain as long as the need, unless there is none or one is waiting; free and borrowed buffers are not touched |
| SafeSave.PendingCountsMutations | src/DAW.cpp:191-230 | In every run `pending_mutations` is the number of mutating processes that are queued, executing, on their way back or lost, so that at zero none can still change the project |
| SafeSave.SaveIsExclusive | src/DAW.cpp:113-118 | While the project is being saved no process that counts itself is under way or will be started by a message already sent |
| SafeSave.SaveIsExclusiveUnlessExposed | src/DAW.cpp:113-118 | From any state of any run in which the project is being saved, there is a way to go on in which the project changes before the save is over, if and only if the engine is recording or has been sent an uncounted process, of whatever kind, that changes the project and has not yet run |
| SafeSave.RecordingDisturbsSave | src/StartRecordingProcess.cpp:23-47 | A run from the start in which a recording and then a save are asked for and the engine adds clips in the middle of the save |
| SafeSave.MessagesStayInOrder | src/AudioEngine.cpp:215-269 | In every run and for both queues: the messages taken off, followed by those in the queue, are just those that there was room for, in their order |
| SafeSave.FlagsFollowSteps | src/DAW.cpp:113-118 | In every run a save is waited for if and only if one was asked for since the last one ended, and the engine records if and only if a process that starts it has run since the last recording ended |
| SafeSave.HooksRunInTurn | src/Process.cpp:4-22 | In every state of every run, drops included, each process has run `in_engine` at most once, then `back_in_daw` at most once, then was deleted at most once |
| SafeSave.DrainedMeansDone | src/DAW.cpp:213-230 | When both queues are empty and both threads idle, each process that was not dropped has run each hook and been deleted exactly once, and a waiting save goes ahead if and only if no mutating process was dropped |
| SafeSave.RunKeepsInv | src/DAW.cpp:113-230 | The invariant behind these holds in every state of every run |
| SafeSave.StepKeepsInv | src/AudioEngine.cpp:215-269 | Each step of either thread keeps it: creating, sending, taking, running a hook, returning, handling, deleting, dropping |
| SafeSave.DAW.constructor | src/DAW.cpp:35-52 | No mutation is pending at first |
| SafeSave.MutatingProcess.constructor | src/MutatingProcess.cpp:5-10 | Counts itself if it really mutates, and is due in the engine |
| SafeSave.MutatingProcess.MutationDone | src/MutatingProcess.cpp:13-17 | Undoes that count |
| SafeSave.MutatingProcess.Next | src/Process.cpp:10-22 | Runs the hook that is due and no other; the count goes down with the last one, and only then |
| RecordingOwnership.SingleOwnership | src/AudioEngine.cpp:528-621 | Main result. In every interleaving, drops included, each buffer and each `RecordBuffers` has at most one holder among free list, new chain, capture slots, records, messages and borrowers; if no `get_buffer` returned null and no send was dropped, exactly one, until a `RecordBuffers` is deleted, once |
| RecordingOwnership.RunConserves | src/RecordBuffers.cpp:29-100 | In every run what is held, lost and deleted is together just what was made |
| RecordingOwnership.StepConserves | src/RecordBuffers.cpp:29-100 | Each step moves buffers and records and neither makes nor forgets any |
| RecordingOwnership.StepKeepsOrder | src/RecordBuffers.cpp:29-92 | Only records to be written or deleted are sent to the other thread, a record being deleted is empty, no buffer is ever deleted, and nothing is lost unless a send was dropped or a buffer was short |
| OutputBuffers.OutputsComeBack | src/AudioEngine.cpp:336-367 | In every reachable state: the engine gets back just the buffers that it took to play into if and only if there was not exactly one free, and that one is what is lost |
| OutputBuffers.OutputsAreSteps | src/AudioEngine.cpp:336-367 | What it does about them is a run of the steps that `SingleOwnership` is about: borrowing twice, and giving back or abandoning |
| OutputBuffers.OneBufferIsLost | src/AudioEngine.cpp:336-367 | The first buffer ever built, installed alone, is gone after one round |
| OutputBuffers.FreeIsNeverNull | src/BufferManager.cpp:49-73 | In every run there is no null among the free and the new buffers |
| RecordingAudioEngines.AudioEngine.RunOutputs | src/AudioEngine.cpp:332-367 | The two loops and the flag between them do to the buffers what `OutputsComeBack` is about |
| RecordingConsistency.FilesMatchClips | src/DAW.cpp:243-249 | Main result. If there was a free record for each buffer since that recording began and room for it in the queue, whatever else was dropped and whatever happened in earlier recordings: whenever the other thread handles `RecordingStopped`, after a stop or a pause and however both threads interleaved, every file has exactly as many frames as its clip's `file_start_frame + length_in_frames` |
| RecordingConsistency.LengthNeverUnderflows | src/AudioEngine.cpp:590-604 | In every run, drops and shortages included, cutting the start off a clip never takes more than its length |
| RecordingConsistency.RunKeepsInv | src/AudioEngine.cpp:545-604 | In every run, drops included, a recording goes through its phases in order, and frames in the files, frames under way and frames still to be counted make up the clips unless a buffer went unrecorded |
| RecordingConsistency.StepKeepsInv | src/AudioEngine.cpp:545-604 | Every step of either thread, dropping or not, keeps that |
| RecordingConsistency.StepKeepsLengths | src/AudioEngine.cpp:576-604 | Every step keeps enough in the clips for what the count-down will cut off |
| RecordingClips.ClipsAfterStop | src/AudioEngine.cpp:569-604 | Main result. In every run, drops and shortages included, with the buffers counted from its steps: the count-down announces the end if and only if just 3 buffers were recorded after the last request to stop; then every clip starts 2 buffers into its file and is as long as all buffers of that recording but 2 |
| RecordingClips.StopIsTaken | src/AudioEngine.cpp:581-587 | When a request to stop is taken, a checkpoint of the files is asked for, 3 more buffers are to come, and nothing is cut yet |
| RecordingClips.ClipsAfterPause | src/AudioEngine.cpp:416-430 | When a pause ends a recording, every clip starts at frame 0 and is as long as all buffers of that recording |
| RecordingClips.EndedClipsStay | src/AudioEngine.cpp:528-604 | The clips of a recording that has ended stay as they are, whatever happens, until the next one begins |
| RecordingClips.RunKeepsKnown | src/AudioEngine.cpp:569-587 | In every state of every run: while recording, every clip has all buffers so far, and what is counted down is 3 less the buffers since the last request to stop |
| RecordingClips.StepKeepsKnown | src/AudioEngine.cpp:545-604 | Every step of either thread keeps that, with the counts that it leads to |
| RecordingEngines.RunRecordingIsSteps | src/AudioEngine.cpp:545-604 | What the engine does about recording in a buffer, including the end of it, is a run of the steps that the theorems on recording speak of |
| RecordingEngines.RecordIsSteps | src/AudioEngine.cpp:552-567 | So is sending the captured buffers off, with and without a free record |
| RecordingEngines.AddsAreSteps | src/AudioEngine.cpp:556-561 | So is exchanging the buffers of all armed channels |
| RecordingEngines.ArmedAreSent | src/AudioEngine.cpp:552-567 | If there is a free record and room in the queue, the message sent has the buffers captured on all armed channels, in the order of the channels, and no others; the buffers of other channels stay in place |
| RecordingEngines.ArmedAre | src/AudioEngine.cpp:556-557 | The channels visited are those that are armed, in ascending order |
| RecordingEngines.AddsCaptured | src/AudioEngine.cpp:558-559 | Adding channel after channel appends what each had captured, although each gets a new buffer at once |
| RecordingEngines.DisposesAreSteps | src/AudioEngine.cpp:614-621 | So is disposing all free records at the end |
| RecordingEngines.PauseIsSteps | src/AudioEngine.cpp:416-430 | So is a pause, from `PlayingStopped`, which takes a place in the queue, to the last record |
| RecordingEngines.StopIsSteps | src/AudioEngine.cpp:402-413 | So is a stop |
| RecordingAudioEngines.AudioEngine.SendOther | src/AudioEngine.cpp:406-420 | A message about something else takes a place in the queue, if there is one |
| RecordingAudioEngines.AudioEngine.Send | src/MessageQueue.cpp:48-56 | A message that does not fit is dropped, and with it what it carries |
| RecordingAudioEngines.AudioEngine.FreeBuffers | src/RecordBuffers.cpp:95-100 | The loop returns every buffer of a record that is not null |
| RecordingAudioEngines.AudioEngine.AddChannels | src/AudioEngine.cpp:556-561 | The loop over all channels exchanges just the armed ones, in order |
| RecordingAudioEngines.AudioEngine.RecordBuffer | src/AudioEngine.cpp:552-567 | Fills a free record and sends it, or notes that there was none |
| RecordingAudioEngines.AudioEngine.StartWrite | src/RecordBuffers.cpp:54-59 | Sends a record off, and notes it if there was no room |
| RecordingAudioEngines.AudioEngine.UpdateClips | src/AudioEngine.cpp:569-573 | Every clip is longer by a buffer |
| RecordingAudioEngines.AudioEngine.CountDown | src/AudioEngine.cpp:575-577 | Ends the recording at the last of the buffers to come, and not before |
| RecordingAudioEngines.AudioEngine.CutClips | src/AudioEngine.cpp:592-599 | Moves every clip's start and leaves its end where it is, by what `ClipsAfterStop` says |
| RecordingAudioEngines.AudioEngine.FinishRecording | src/AudioEngine.cpp:590-604 | Cuts, announces and disposes, in this order; the cut is the one of `ClipsAfterStop` |
| RecordingAudioEngines.AudioEngine.DisposeRecordBuffers | src/AudioEngine.cpp:614-621 | The loop disposes every free record and leaves none |
| RecordingAudioEngines.AudioEngine.RunRecording | src/AudioEngine.cpp:545-578 | The whole of it, tied to the state that `RunRecordingIsSteps` reaches |
| RecordingAudioEngines.AudioEngine.StopRecording | src/AudioEngine.cpp:581-587 | Asks for a checkpoint and counts the buffers still to come |
| RecordingAudioEngines.AudioEngine.Stop | src/AudioEngine.cpp:402-413 | Reports that playing stopped, then lets a recording count down |
| RecordingAudioEngines.AudioEngine.Pause | src/AudioEngine.cpp:416-430 | Reports that playing stopped, then ends a recording at once, without a cut |
| RecordingAudioEngines.AudioEngine.Resupply | src/RecordBuffers.cpp:73-80 | A written record is emptied and is free again |
| ProjectRoundTrip.SavedProjectReopens | src/Project.cpp:35-99 | Main result. For every tree of tracks of any depth, with safe strings, plain numbers, ids and counts that fit, distinct file ids and clips that play files of the project: reading the text that is written gives back the same tracks, in order, with their clips, inputs and flags, the same files and paths up to their order, and the next free id, and consumes all of it |
| ProjectRoundTrip.NextIdIsNew | src/Project.cpp:126-141 | However a project was read, from whatever text, the next id it hands out is used by no track, clip or file in it |
| ProjectRoundTrip.NextIdIsLeast | src/Project.cpp:126-141 | And it is the least such number above 0: the one before it is in use, unless it is 1 |
| ProjectRoundTrip.TrackReadsBack | src/Track.cpp:41-91 | Reading the tokens of a track of any depth gives that track and stops right behind it |
| ProjectRoundTrip.TracksReadBack | src/Track.cpp:57-71 | The same for the list of its children |
| ProjectRoundTrip.ClipsReadBack | src/Playlist.cpp:23-41 | The same for any number of clips, whose files are added to the project when first mentioned |
| ProjectRoundTrip.ClipReadsBack | src/Clip.cpp:32-52 | The same for one clip |
| ProjectRoundTrip.FilesReadBack | src/Project.cpp:44-55 | Reading the table of files sets the path of each, known already or not |
| ProjectRoundTrip.SameFiles | src/ProjectReader.cpp:20-29 | Whichever files were mentioned before the table, and in whatever order, the project ends up with just those of the table |
| ProjectRoundTrip.EmptyObjectsRead | src/Track.cpp:18-27 | A project, a track and a clip of which nothing is said are read as they are made: the master track, a new id, gain 1, the flags, no files and no clips |
| UnknownFields.UnknownFieldsChangeNothing | src/Project.cpp:35-62 | Main result. For any value at all, of any depth, whatever follows it: reading it as a project gives the project, or the error, that reading it without its unknown fields gives, in the project, its tracks, playlists, clips and files, provided that no array within an unknown field is empty |
| UnknownFields.LaterProjectReopens | src/Project.cpp:35-62 | A text whose tokens are, without the unknown fields, those of a saved project opens as that project |
| UnknownFields.TrackSame | src/Track.cpp:41-91 | A track with unknown fields, in itself or in what is in it, gives the same track as without, stops right behind it, and fails alike |
| UnknownFields.TracksSame | src/Track.cpp:57-71 | So does an array of tracks |
| UnknownFields.PlaylistSame | src/Playlist.cpp:23-41 | So does a playlist |
| UnknownFields.ClipSame | src/Clip.cpp:32-52 | So does a clip |
| UnknownFields.FileSame | src/AudioFile.cpp:23-37 | So does a file |
| UnknownFields.FilesSame | src/Project.cpp:44-55 | So does the table of files, in which no name is unknown |
| UnknownFields.ClipIgnores | src/Clip.cpp:49-50 | An unknown field, anywhere among the others of a clip, with any value in which no array is empty, changes nothing of what is read |
| UnknownFields.PlaylistIgnores | src/Playlist.cpp:38-39 | So it is with a playlist |
| UnknownFields.TrackIgnores | src/Track.cpp:72-89 | So it is with a track, where `sends` is unknown as well |
| UnknownFields.FileIgnores | src/AudioFile.cpp:34-35 | So it is with a file |
| UnknownFields.ProjectIgnores | src/Project.cpp:56-59 | So it is with a project |
| UnknownFields.ObjectThenGain | src/JSONParser.cpp:63-67 | The track `{ "extra": {}, "gain": 2 }` has the gain 2 |
| UnknownFields.EmptyArrayThenGain | src/JSONParser.cpp:56-62 | The track `{ "extra": [], "gain": 2 }` is never read to its end |
| JSONValues.IgnoredIfNotEmpty | src/JSONParser.cpp:54-74 | Ignoring any value takes just its tokens, whatever follows, if and only if no array in it is empty, at any level |
| JSONValues.ValueIgnored | src/JSONParser.cpp:54-74 | The first half of this, by the nesting of the value |
| JSONValues.IgnoringTakesBrackets | src/JSONParser.cpp:54-74 | The second half: from any tokens, ignoring takes a closing bracket for each opening one, and one more for each empty array |
| JSONValues.EmptyArrayGoesOn | src/JSONParser.cpp:56-62 | The bracket of an empty array is taken for an element, and what follows for more of them, up to another closing bracket |
| JSONValues.EmptyNameEndsObject | src/JSONParser.cpp:14-27 | A field of the empty name ends the object that it is in; its value is left |
| JSONValues.ElementFound | src/JSONParser.cpp:37-51 | An array ends after its last element, and goes on before any other, with a comma or without |
| JSONValues.MemberFound | src/JSONParser.cpp:14-27 | An object ends after its last field, and the name of any other is read, with a comma or without |
| ProjectText.ProjectTextTokens | src/Project.cpp:75-99 | What is written for a project is its tokens and nothing more: layout and indentation make no difference |
| ProjectText.TrackText | src/Track.cpp:138-174 | The same for a track and all below it, written anywhere in a text |
| ProjectText.TracksText | src/Track.cpp:158-171 | The same for its children |
| ProjectText.SettingsText | src/Track.cpp:146-153 | The same for a track's own fields |
| ProjectText.PlaylistText | src/Playlist.cpp:61-84 | The same for a playlist, empty or not |
| ProjectText.ClipText | src/Clip.cpp:69-84 | The same for a clip |
| ProjectText.FilesText | src/AudioFile.cpp:40-45 | The same for the table of files |
| TokenTheorems.QuotedReadsBack | src/JSONParser.cpp:149-173 | A string between quotes is one token if and only if the tokenizer scans it whole: a backslash comes with the character after it, every quote comes with one, and none is left over at the end |
| TokenTheorems.NumberReadsBack | src/JSONParser.cpp:183-214 | A number is one token if and only if there is nothing after its first character but digits, at most one dot and at most one `e` |
| TokenTheorems.ExponentSignIsCutOff | src/JSONParser.cpp:191-212 | `1e+10` is read as two numbers |
| TokenTheorems.BooleanReadsBack | src/JSONParser.cpp:222-233 | A boolean is one token |
| TokenTheorems.IntReadsBack | src/JSONParser.cpp:77-86 | A decimal number of any size is read as what is left of it after 64 and then 32 bits |
| TokenTheorems.OtherBases | src/JSONParser.cpp:77-86 | `-0XA`, `017` and ` +7` are read as -10, 15 and 7; `08`, `7 ` and nothing at all are no numbers |
| TokenTheorems.IdReadsBack | src/ProjectReader.cpp:32-40 | So every `int` survives |
| TokenTheorems.FramesReadBack | src/Clip.cpp:32-52 | A 64-bit count of frames survives if and only if it is below 2^31, or is 2^64 - 1 |
| JSONParsers.JSONParser.ScanString | src/JSONParser.cpp:149-173 | Finds the quote that ends a string, past escaped ones, or that there is none |
| JSONParsers.JSONParser.ScanNumber | src/JSONParser.cpp:183-214 | Finds where a number ends, for each state of dot and exponent |
| JSONParsers.JSONParser.ScanWord | src/JSONParser.cpp:222-233 | Finds where a word ends |
| JSONParsers.JSONParser.SkipSpace | src/JSONParser.cpp:135-142 | Skips all white space and no more |
| JSONParsers.JSONParser.NextToken | src/JSONParser.cpp:127-239 | Takes the first token off the stream that the text stands for, peeked at before or not; a failure takes nothing |
| JSONParsers.JSONParser.PeekToken | src/JSONParser.cpp:242-247 | Tells the first token and takes nothing |
| JSONParsers.JSONParser.StartObject | src/JSONParser.cpp:7-11 | Takes an opening brace or fails |
| JSONParsers.JSONParser.StartArray | src/JSONParser.cpp:30-34 | Takes an opening bracket or fails |
| JSONParsers.JSONParser.NextField | src/JSONParser.cpp:14-27 | Name of the next field, after a comma or not, or the end of the object, with the errors of each |
| JSONParsers.JSONParser.ArrayIsDone | src/JSONParser.cpp:37-51 | Whether the array ends, after a comma or not |
| JSONParsers.JSONParser.IgnoreValue | src/JSONParser.cpp:54-74 | Skips a value with all that is nested in it, as `IgnoredIfNotEmpty` says |
| JSONParsers.JSONParser.NextInt | src/JSONParser.cpp:77-86 | The number, or the error |
| JSONParsers.JSONParser.NextString | src/JSONParser.cpp:106-112 | The text between the quotes, or the error |
| JSONParsers.JSONParser.NextBool | src/JSONParser.cpp:115-123 | The truth value, or the error |
| JSONParsers.JSONParser.NextDouble | src/JSONParser.cpp:89-103 | The number's text, or the error |
| IndentedOStreams.IndentedOStream.WriteIndent | src/IndentedOStream.cpp:4-17 | Writes as many tabs as the level says, however many the constant they are taken from has |
| IndentedOStreams.IndentedOStream.Put | src/IndentedOStream.h:11-19 | Indents at the start of a line and nowhere else |
| IndentedOStreams.IndentedOStream.PutChar | src/IndentedOStream.h:22-35 | The same for characters, where a newline starts a line and is never indented |
| Sinks.LayoutIsIndented | src/IndentedOStream.h:11-49 | Whatever is written, indented and unindented in whatever order: the first thing on each line has as many tabs before it as the stream is then deep, counted from what was done, and nothing else has any |
| ProjectIO.WriteClip | src/Clip.cpp:69-84 | The text of a clip that `ClipText` reads |
| ProjectIO.WritePlaylist | src/Playlist.cpp:61-84 | The text of a playlist that `PlaylistText` reads |
| ProjectIO.WriteSettings | src/Track.cpp:146-153 | The text of a track's fields that `SettingsText` reads |
| ProjectIO.WriteTrack | src/Track.cpp:138-174 | The text of a track that `TrackText` reads |
| ProjectIO.WriteFile | src/AudioFile.cpp:40-45 | The text of an entry that `FilesText` reads |
| ProjectIO.WriteProject | src/Project.cpp:75-99 | The text that `SavedProjectReopens` is about |
| ProjectIO.ProjectReader.FileForId | src/ProjectReader.cpp:20-29 | Adds a file for an id that is not known, and only then |
| ProjectIO.ProjectReader.ReadClipField | src/Clip.cpp:32-52 | One field of a clip, known or from the future |
| ProjectIO.ProjectReader.ReadClip | src/Clip.cpp:32-52 | The clip, the files and the tokens left that `ClipReadsBack` is about, or the error |
| ProjectIO.ProjectReader.ReadClips | src/Playlist.cpp:23-41 | Appends the clips of an array to those there are |
| ProjectIO.ProjectReader.ReadPlaylist | src/Playlist.cpp:23-41 | The playlist's fields, known or not |
| ProjectIO.ProjectReader.ReadSetting | src/Track.cpp:41-91 | One field of a track; the others stay as they were |
| ProjectIO.ProjectReader.ReadTrack | src/Track.cpp:41-91 | The track that `TrackReadsBack` is about, or the error |
| ProjectIO.ProjectReader.ReadTracks | src/Track.cpp:57-71 | The children, in order |
| ProjectIO.ProjectReader.ReadPath | src/AudioFile.cpp:23-37 | The path of a file, or what it was |
| ProjectIO.ProjectReader.ReadFiles | src/Project.cpp:44-55 | The table of files that `FilesReadBack` is about |
| ProjectIO.ProjectReader.ReadProject | src/Project.cpp:35-62 | The project that `SavedProjectReopens` is about, or the error |
| WebSocketTheorems.FramesReassemble | src/web/Connection.cpp:421-539 | Main result. For any frames, with byte i of a masked payload sent as its exclusive or with byte i modulo 4 of the key, and payloads of up to 125 bytes, however their bytes are cut into reads: the messages and replies are, in order, those of a receiver that gets the payloads whole and unmasked, up to a close; only an empty frame at the end is left waiting, whole |
| WebSocketTheorems.MaskedIsUnmasked | src/web/Connection.cpp:494-508 | What was masked with a key, byte by byte as in section 5.3 of RFC 6455, comes out as it was |
| WebSocketTheorems.HelloIsEncoded | src/web/Connection.cpp:421-480 | The bytes of such a frame are those of the example in section 5.7 of RFC 6455 |
| WebSocketStreams.ReceiveFrames | src/web/Connection.cpp:46-79 | The same of a connection's ticks, each of which reads as much of what has come as there is room for: messages and replies are those of a receiver of whole frames |
| WebSocketStreams.HangsOnExtendedLength | src/web/Connection.cpp:438-456 | Any bytes at all, however cut into reads, lead into the endless loop if and only if they begin with frames of seven bits' lengths, none of which closes the connection, and go on with a frame that has an extended length, all of that length and a byte more |
| WebSocketStreams.ReadAll | src/web/Connection.cpp:46-79 | The ticks of a connection over a whole stream do what the theorems on streams are about, and the buffer always has room for more |
| WebSocketStreams.ReadChunk | src/web/Connection.cpp:60-77 | As many ticks as it takes for what has come at a time |
| WebSocketStreams.FramesThen | src/web/Connection.cpp:421-539 | Frames that are followed by anything at all are taken, up to one that closes the connection |
| WebSocketTheorems.ReadBoundariesMakeNoDifference | src/web/Connection.cpp:46-101 | Any two ways to cut any bytes at all into reads, well-formed frames or not, lead to the same state, the same messages and the same leftover |
| WebSocketTheorems.FeedAllConcat | src/web/Connection.cpp:46-101 | Any number of reads are together one |
| WebSocketTheorems.FeedConcat | src/web/Connection.cpp:421-539 | Stopping anywhere, in the header, the mask or the data, and going on later makes no difference |
| WebSocketTheorems.FramesAreTaken | src/web/Connection.cpp:421-539 | Frames of which the last has a payload are all taken |
| WebSocketTheorems.FrameIsTaken | src/web/Connection.cpp:421-539 | A frame with a payload, or followed by something, is unmasked, taken whole and acted on |
| WebSocketTheorems.LastEmptyFrameWaits | src/web/Connection.cpp:449-463 | If the last frame has no payload, all before it are taken and it stays |
| WebSocketTheorems.EmptyFrameWaits | src/web/Connection.cpp:449-463 | An empty frame by itself has no effect yet |
| WebSocketTheorems.FragmentsMakeAMessage | src/web/Connection.cpp:483-539 | A message in any number of fragments is delivered once, as their concatenation (section 5.4 of RFC 6455) |
| WebSocketTheorems.ControlFramesDoNotDisturb | src/web/Connection.cpp:485-539 | Pings and pongs anywhere between fragments leave the messages as they would be without them, and each ping is answered once, in its turn, with its own payload |
| WebSocketTheorems.SameMessagesWithout | src/web/Connection.cpp:485-539 | The first half of this: the same messages as without the control frames |
| WebSocketTheorems.PingsAreAnswered | src/web/Connection.cpp:532-535 | The second half: the replies are the pongs that are due |
| WebSockets.LeftoverIsShort | src/web/Connection.cpp:421-480 | What is left over between reads is never more than 10 bytes, so the buffer of 1024 never fills up |
| WebSockets.Unmask | src/web/Connection.cpp:494-508 | The loop replaces each byte of that part of the buffer by its exclusive or with the next byte of the key (section 5.3 of RFC 6455), changes nothing else, and knows where in the key it stopped |
| WebSockets.Connection.constructor | src/web/Connection.cpp:25-31 | Starts with an empty buffer, waiting for a frame |
| WebSockets.Connection.ReadHeader | src/web/Connection.cpp:421-480 | Takes a whole header or nothing |
| WebSockets.Connection.StartFrame | src/web/Connection.cpp:468-480 | A new message drops the old fragments; a continuation or a control frame does not |
| WebSockets.Connection.ProcessWebSocketFrame | src/web/Connection.cpp:421-480 | Takes frames from the buffer as far as they go, as the theorems describe |
| WebSockets.Connection.ReadWebSocketData | src/web/Connection.cpp:483-539 | The same from within a payload |
| WebSockets.Connection.UnmaskFront | src/web/Connection.cpp:494-508 | Unmasks what has come of the payload, by the exclusive or that `Unmask` states, and not what comes after it |
| WebSockets.Connection.Append | src/web/Connection.cpp:485-511 | Payload of a control frame and of a message are kept apart |
| WebSockets.Connection.TakeData | src/web/Connection.cpp:485-511 | Takes what has come of the payload, but no more than belongs to it |
| WebSockets.Connection.FinishFrame | src/web/Connection.cpp:513-538 | Hands a finished message on, answers a ping, ends on a close |
| WebSockets.Connection.CompactBuffer | src/web/Connection.cpp:104-122 | Loses and changes no pending byte and always leaves room |
| WebSockets.Connection.Tick | src/web/Connection.cpp:60-77 | One read takes at least one byte, feeds it to the frames, and leaves the buffer fit for the next read |
| SecureHashStreams.HashInPieces | src/third-party/sha1-0.2/sha1.cpp:130-191 | Main result. For any message below 2^32 bytes and any way to cut it into non-empty pieces whose lengths are an `int`, the digest is that of RFC 3174 of the whole |
| SecureHashStreams.LengthIsRight | src/third-party/sha1-0.2/sha1.cpp:157-180 | The number of bits that the padding ends in is right if and only if the message is below 2^32 bytes |
| SecureHashStreams.SHA1.constructor | src/third-party/sha1-0.2/sha1.cpp:49-62 | Starts with the words of section 6.1 of RFC 3174 and no message |
| SecureHashStreams.SHA1.Expand | src/third-party/sha1-0.2/sha1.cpp:86-91 | The 80 words of section 6.1 (a) and (b) |
| SecureHashStreams.SHA1.Process | src/third-party/sha1-0.2/sha1.cpp:74-127 | The 80 rounds are those of section 6.1 |
| SecureHashStreams.SHA1.AddBytes | src/third-party/sha1-0.2/sha1.cpp:130-154 | Appends to the message, whatever was added before and whatever is left in the block |
| SecureHashStreams.SHA1.AddSome | src/third-party/sha1-0.2/sha1.cpp:137-153 | One round of that loop makes progress and loses nothing |
| SecureHashStreams.SHA1.Copy | src/third-party/sha1-0.2/sha1.cpp:139-149 | Completes the block or uses up the data |
| SecureHashStreams.SHA1.StartPadding | src/third-party/sha1-0.2/sha1.cpp:162-173 | The padding up to where the last block has room for the length |
| SecureHashStreams.SHA1.Pad | src/third-party/sha1-0.2/sha1.cpp:157-180 | The padding, in one step or two, is that of section 4 of RFC 3174, with the length counted in 32 bits |
| SecureHashStreams.SHA1.GetDigest | src/third-party/sha1-0.2/sha1.cpp:157-191 | The twenty bytes of the digest of what was added |
| SecureHashStreams.FooterPads | src/third-party/sha1-0.2/sha1.cpp:157-180 | A one, zeros up to the length, and the length fill whole blocks, also when the length needs another block |
| SecureHashStreams.SimpleSHA1.Process | src/third-party/sha1-0.2/sha1.py:17-54 | Its rounds are those of section 6.1 too, so both programs agree |
| SecureHashStreams.SimpleSHA1.Update | src/third-party/sha1-0.2/sha1.py:64-69 | Appends to the message |
| SecureHashStreams.SimpleSHA1.Finish | src/third-party/sha1-0.2/sha1.py:70-88 | Ends with the hash of the message |
| SecureHashStreams.SimpleSHA1.HexDigest | src/third-party/sha1-0.2/sha1.py:70-94 | The digest of RFC 3174 in hexadecimal words, the text of `TextShowsBytes` |
| SecureHashStreams.TextShowsBytes | src/third-party/sha1-0.2/sha1.py:57-94 | Both programs give the same digest: the text has two digits for each of the twenty bytes, in their order, after every four of which there is one character more |
| SecureHashStreams.WordOfBytes | src/third-party/sha1-0.2/sha1.cpp:183-191 | The four bytes that a word is taken apart into make that word, the highest first |
| SecureHashStreams.Expand | src/third-party/sha1-0.2/sha1.py:25-28 | The 80 words of section 6.1 |
| SecureHashStreams.Hex32 | src/third-party/sha1-0.2/sha1.py:57-63 | Built from the last digit to the first, it is the word byte by byte |
| SecureHash.FoldedAppend | src/third-party/sha1-0.2/sha1.cpp:130-154 | Folding one more block is processing it |
| SecureHash.BigEndianWraps | src/third-party/sha1-0.2/sha1.cpp:159-178 | Two words hold a number modulo 2^64 as section 4 wants it |
| WavTheorems.FinishedFileOpens | src/Recorder.cpp:264-344 | Main result. For any interleaving of blocks and checkpoints of up to 2^32 - 44 bytes, finished: the file opens, with its channels, rate, 24 bits, samples at byte 44 and all frames, if and only if header and samples are below 2^31 - 4 bytes; for the eight sizes from there on the end of the file overflows, and larger files are refused |
| WavTheorems.OpensAsCheckpointed | src/Recorder.cpp:324-344 | A file that was not finished opens as of its last checkpoint, with the same limits, or not at all before the first |
| WavTheorems.FileWhileRecording | src/Recorder.cpp:324-344 | At any time the file is its header, as of the last checkpoint, followed by all samples so far |
| WavTheorems.SamplesAreFrames | src/Recorder.cpp:222-225 | Blocks of whole frames lose none: the frame count read back is that of the frames written |
| WavTheorems.OpensAs | src/WAVFile.cpp:8-80 | What a header with any sizes is opened as, where its end overflows, or that it is refused |
| WavTheorems.ChunksAreFound | src/WAVFile.cpp:95-127 | Which chunk is found depends on where the file is believed to end, and how |
| WavTheorems.DwordReadsBack | src/RIFF.cpp:15-45 | Any number written in four bytes is read back as its signed 32 bits |
| WavTheorems.WordReadsBack | src/RIFF.cpp:27-54 | And in two bytes as its signed 16 bits |
| WavTheorems.SignedNumbers | src/RIFF.cpp:27-54 | These signed numbers lie within 32 and 16 bits and differ from what was written by a multiple of 2^32 and 2^16 |
| WavTheorems.ByteRateReadsBack | src/Recorder.cpp:294-295 | The byte rate in the header is right if and only if it fits in an `int` |
| WavFiles.ArmedTrack.CreateWavFile | src/Recorder.cpp:264-309 | The file begins as a header of 44 bytes with both sizes zero |
| WavFiles.ArmedTrack.Write | src/Recorder.cpp:222-225 | Overwrites at the cursor; at the end it appends |
| WavFiles.ArmedTrack.UpdateWavFileSize | src/Recorder.cpp:324-344 | Puts in both sizes, changes nothing else and returns to the end |
| WavFiles.ArmedTrack.FinishWavFile | src/Recorder.cpp:312-321 | Does so once more and closes the file; a closed file stays as it is |
| WavFiles.WAVFile.SeekChunk | src/WAVFile.cpp:95-127 | The search loop finds the chunk, or says how it failed |
| WavFiles.WAVFile.ReadInfo | src/WAVFile.cpp:40-80 | Reads the format once and remembers it |
| WavFiles.WAVFile.Load | src/WAVFile.cpp:8-37 | The opened file that the theorems are about, or the error, an overflowing sum included |
| SampleCodec.RecordedIsPlayed | src/AudioFile.cpp:86-137 | Main result. For any number of channels and frames, frame f of channel c that was recorded is played at frame f on output c, from one channel on every output, with an error below 511 / (2^31 - 1) of the clamped sample |
| SampleCodec.DecodedIs256Times | src/SampleConversion.cpp:60-74 | The decoded integer is exactly 256 times the stored one, for any sample |
| SampleCodec.DecodedIsScaled | src/AudioFile.cpp:104-110 | One to four bytes, the first one lowest, are decoded as the signed number that they make, scaled up to 32 bits |
| SampleCodec.ErrorIsSmall | src/SampleConversion.cpp:60-74 | The bound for a single sample |
| SampleCodec.SlotOfFilled | src/Recorder.cpp:211-221 | After interleaving, every slot of the write buffer holds the sample of its own frame and channel |
| SampleCodec.SlotOfWritten | src/Recorder.cpp:216-221 | Writing one channel changes its slots and no other's |
| SampleCodec.From24InvertsTo24 | src/SampleConversion.cpp:178-190 | `from_24_le` recovers the very integer that `to_24_le` stored |
| SampleCodec.ConvertedBack | src/SampleConversion.cpp:178-190 | From the interleaved buffer it recovers, frame by frame and channel by channel, the stored value of that very sample |
| SampleCodec.To24LE | src/SampleConversion.cpp:60-74 | The loop puts each sample's bytes at their step in the array and changes nothing between |
| SampleCodec.StoreSample | src/SampleConversion.cpp:60-74 | Three bytes of the clamped sample, in place |
| SampleCodec.FillWriteBuffer | src/Recorder.cpp:206-221 | The loop over the channels fills the buffer that `SlotOfFilled` is about |
| SampleCodec.DecodeSample | src/AudioFile.cpp:104-110 | The loop over the bytes yields the signed 32-bit value of one to four bytes |
| SampleCodec.PlayIntoBuffers | src/AudioFile.cpp:86-137 | Each output gets, added at its place, the sample of its own channel and frame; outputs beyond the file's channels and frames outside the range stay as they were |
| SampleCodec.PlayFrame | src/AudioFile.cpp:101-136 | One frame of that, one channel for all outputs or each for its own |
| SampleCodec.AddToAll | src/AudioFile.cpp:111-112 | Adds one sample to all outputs at one place |
| SampleCodec.AddToEach | src/AudioFile.cpp:124-133 | Adds each channel to its own output at one place |
| SampleCodec.From24LE | src/SampleConversion.cpp:178-190 | Reads every sample at its step |
| Mixers.Engine.Run | src/Track.cpp:187-291 | Main result. For every tree: it succeeds if and only if channels times height buffers are free and no track looks up a capture channel below 0 or just past the last; then each output has the track's mix added, which `MixIsWeightedSum` computes, no buffer but the outputs and the free ones has changed, and the same buffers are free |
| Mixers.MixIsWeightedSum | src/Track.cpp:230-266 | At each sample the mix is the sum, over all tracks that reach the top, of the product of all gains on the way times what the track itself hears and plays; times any factor, so with factor 1 as well |
| Mixers.OwnIs | src/Track.cpp:201-232 | What a track itself has: the input that it looks up, if it monitors it and it was captured, and its playlist, unless nothing plays or the track is armed and being recorded |
| Mixers.LookedUpIs | src/Track.cpp:201-214 | An armed track looks up its only input for every channel, or else the one for the channel, if there is one; inside the array or not |
| Mixers.MixAllIsWeightedSum | src/Track.cpp:234-241 | The same for a list of children |
| Mixers.Engine.Gather | src/Track.cpp:201-241 | Input, playlist and children are added up in the track's own buffers |
| Mixers.Engine.RunChildren | src/Track.cpp:234-241 | Each child adds its mix in turn, and all together need no more buffers than the tallest of them |
| Mixers.Engine.AddInput | src/Track.cpp:201-228 | Adds what the track monitors, one channel to all or each to its own, and nothing where there is none; fails if and only if a channel is looked up outside the array, monitored or not |
| Mixers.ThirdInputOfTwo | src/AudioEngine.cpp:520-525 | With two capture buffers channel 2 and channel -1 are looked up outside the array, and channel 3 is not |
| Mixers.Engine.AddPlaylist | src/Track.cpp:230-232 | Adds what is played, unless the track is recording |
| Mixers.Engine.Emit | src/Track.cpp:246-266 | Adds the sum, times the gain, to the outputs |
| Mixers.Engine.GetBuffers | src/Track.cpp:191-199 | Takes and clears a buffer for each channel, just when there are so many |
| Mixers.Engine.FreeBuffers | src/Track.cpp:289-290 | Gives all of them back |
| Mixers.BackTogether | src/BufferManager.cpp:49-73 | What was taken and returned and the others are the same buffers as before, none twice |
| TrackDeletions.RestoresUndoDeletes | src/Project.cpp:194-212 | Main result. Any deletions anywhere in the tree, restored in the opposite order, each before the sibling that followed it when it was deleted, give back the very project: order, index and deleted tracks |
| TrackDeletions.RestoreUndoesOne | src/RestoreTrackProcess.cpp:8-14 | The same for one deletion, which never breaks a list |
| TrackDeletions.SameOrderIsSound | src/Track.cpp:330-355 | Any deletions anywhere in the tree, restored in the order of deletion, each before the sibling that followed it: all lists stay sound if and only if none of these siblings was deleted later |
| TrackDeletions.SameOrderOfTwo | src/Track.cpp:330-355 | Two siblings restored in the order of deletion: a list is broken if and only if the second followed the first, and the project is as before if and only if they were not neighbours |
| TrackDeletions.RestoredAtTheEnd | src/APIHandlers.cpp:231-240 | A track restored without a sibling: if it was the last this undoes the deletion, if not the list is broken |
| TrackDeletions.NeighboursBreakTheList | src/Track.cpp:353-354 | The second and the third of four tracks, restored in the order of deletion |
| Siblings.RestoreUndoesDelete | src/Track.cpp:330-398 | Putting an element back before the one that followed it, or at the end if none did, undoes taking it out |
| Siblings.SameOrder | src/Track.cpp:330-398 | Two elements that are put back in the order in which they were taken out: the first one is in its place unless the other one followed it, then both are if and only if they were not neighbours |
| Siblings.InsertedFollows | src/Track.cpp:319-327 | An element put in behind another follows it and is followed by what followed that one; if that one is not there it is the last; the others keep their order |
| Siblings.OthersAreLeft | src/List.h:63-79 | Taking out any elements one after the other leaves just the others, in their order |
| TrackLists.TrackList.PushBack | src/List.h:40-46 | Appends; the list stays well linked if and only if the element led nowhere |
| TrackLists.TrackList.PushFront | src/List.h:47-52 | Prepends and keeps the list well linked |
| TrackLists.TrackList.PopFront | src/List.h:53-61 | Takes the first element, or nothing, and keeps it well linked |
| TrackLists.TrackList.FindBefore | src/List.h:70-78 | Finds the element that leads to the wanted one, or that there is none |
| TrackLists.TrackList.Remove | src/List.h:63-79 | Takes out just that element, first, last or between, and keeps head, last and all links right; one that is not there changes nothing |
| TrackLists.TrackList.AddChild | src/Track.cpp:319-327 | Inserts behind the given child, or at the back, and when the links stay right |
| TrackLists.TrackList.AddChildBefore | src/Track.cpp:330-355 | Inserts before the given child, at the back if it is not there, and when the links stay right |
| TrackLists.TrackList.ChildAfter | src/Track.cpp:388-398 | The sibling that follows, if any |
| TrackLists.NextIsFollowing | src/Track.cpp:388-398 | In a well-linked list `next` is the following sibling, and that survives the deletion |
| TrackLists.TrackList.DeleteAndRestore | src/RestoreTrackProcess.cpp:8-14 | On the pointers themselves: any children deleted one by one and restored in the opposite order leave head, last, every link and the order as they were |
| TrackLists.TrackList.RemoveAll | src/List.h:63-79 | Any children are taken out one by one, and the list stays sound |
| TrackLists.TrackList.DeleteAndRestoreFirst | src/Track.cpp:330-355 | On the pointers themselves: a child and then any others are deleted, and the first is restored before the sibling that followed it; the list is sound if and only if that one was not among the others |
| TrackLists.TrackList.DeleteNeighbours | src/Track.cpp:353-354 | If it was, the last child leads to the deleted one, and from there, unless that was the last, back into the list, so that a walk over it never ends |
| TrackLists.TrackList.DeleteAndRestoreAtEnd | src/APIHandlers.cpp:231-240 | On the pointers themselves: a child restored without a sibling leaves the list sound if and only if it was the last |
| TrackLists.Project.RemoveTrack | src/Project.cpp:194-205 | The track leaves index and siblings and is among the deleted |
| TrackLists.Project.RestoreTrackId | src/Project.cpp:208-212 | The track is in the index again and not among the deleted |

## Left out

- ALSA, sockets, asynchronous reads, standard I/O, launching threads, timing, logging and statistics: calls to the outside. A file is bytes with a cursor and a read from a socket an arbitrary piece of what was sent.
- Weak memory: loads and stores of both threads are interleaved in one order.
- The hand-over of an `AudioFileRead`: both threads write its `state`, and it may be disposed with a request outstanding. For a clip a read is an interval and whether it has arrived.
- Where exactly playback goes on after a missing read that reaches past the buffer: the position jumps by a whole buffer even if part of it was played. The model does the same, and `ClipTheorems.NeverMisplaced` says what still holds within the buffer.
- Rounding: frames are integers, samples and gains real numbers.
- Clips whose file rate differs from the engine's, and clips whose length changes while they play.
- Metering and peaks, which only look at the signals.
- How the name of an input becomes capture channels; a track has any list of them, negative ones included.
- What `int` arithmetic does when it overflows: opening a WAV file whose end does ends in an error of its own, and a byte rate in its header is taken to wrap.
- Recording twice at once, a change of armed tracks or of the interface while recording, files that cannot be opened, and the clips' times. A `RecordBuffers` has room for every armed channel, and what it carries moves with it as a value.
- Exceptions in hooks and deleted processes that never reach the engine.
- `BufferManager::reset`, which nothing calls, and `clear`.
- HTTP: parsing, routing, handlers and the handshake, except that its digest is modelled.
- What the reserved bits of a WebSocket frame mean; they are part of the opcode, as in the code. Splitting what is sent into frames.
- The other sample formats; `from_24_be` and `to_16` index differently from their pairs.
- What `read_json` does besides the fields: the index of tracks by id, which `TrackLists` treats for deletions.
- Buffering by the C library between writing and the disk.
- The user interface, the quoting of its messages, dates and Base64.
- JSONParsers.JSONParser.NextDouble: a number is kept as its text, so that no rounding is involved; what `strtod` makes of it is not modelled.
- JSONParsers.JSONParser.IgnoreValue: reports an error where the code never ends, at an array that is cut off.
- JSONParsers.JSONParser.NextField: after an error the tokens left are not specified, since reading ends with the exception.
- ProjectRoundTrip.SavedProjectReopens: the id after the largest is taken to fit in an `int`.
- WebSockets.Connection.ProcessWebSocketFrame: at an extended length the model stops in the state `Hung` where the code never ends.
- Mixers.Engine.AddPlaylist: what the playlist plays in this buffer is given, by channel; `SeamlessPlaylists` says what it is.
- Mixers.Engine.Run: buffers are known by number and their contents are a map, so sharing of buffers is modelled and updating arrays in place is not; the model stops where the code reads outside the array.
- RecordingAudioEngines.AudioEngine.Send: the queue's room is that of the ring, but the ring itself is modelled in `MessageQueues` only.
- SampleCodec.PlayIntoBuffers: one to four bytes to a sample; for more, the shift in the code is undefined.
