/**
  Opening a project that was saved gives back the same tracks, in the same order and
  with the same clips and settings, and the same files, perhaps in another order.
 */
module ProjectRoundTrip {
  import opened JSON
  import opened Sinks
  import opened ProjectFiles
  import opened TokenTheorems
  import opened ProjectText
  import opened Wrappers

  predicate IsInt(n: int) {
    -0x8000_0000 <= n < 0x8000_0000
  }

  predicate IsCount(n: int) {
    0 <= n < UNSIGNED && SmallCount(n)
  }

  predicate GoodClip(clip: Clip) {
    PlainClip(clip) && IsInt(clip.id) && IsInt(clip.file.value) && IsCount(clip.fileStartFrame) && IsCount(clip.length)
  }

  predicate GoodTrack(t: Track) {
    && SafeString(t.name) && SafeString(t.input) && PlainNumber(t.gain) && IsInt(t.id)
    && (forall i :: 0 <= i < |t.clips| ==> GoodClip(t.clips[i]))
    && (forall i :: 0 <= i < |t.children| ==> GoodTrack(t.children[i]))
  }

  predicate DistinctIds(files: seq<AudioFile>) {
    forall i, j :: 0 <= i < j < |files| ==> files[i].id != files[j].id
  }

  predicate ClipsFrom(clips: seq<Clip>, files: seq<AudioFile>) {
    forall i :: 0 <= i < |clips| ==> clips[i].file.Some? && HasFile(files, clips[i].file.value)
  }

  /** Every clip plays one of the files. */
  predicate PlaysFrom(t: Track, files: seq<AudioFile>) {
    ClipsFrom(t.clips, files) && forall i :: 0 <= i < |t.children| ==> PlaysFrom(t.children[i], files)
  }

  /** A project that can be saved: what the tokenizer can read, ids that fit, and every file known and of its own id. */
  predicate GoodProject(p: Project) {
    && GoodTrack(p.master) && DistinctIds(p.files) && PlaysFrom(p.master, p.files)
    && forall i :: 0 <= i < |p.files| ==> SafeString(p.files[i].path) && IsInt(p.files[i].id)
  }

  // ---------------------------------------------------------------- fields

  lemma UnquotedQuoted(s: string)
    ensures IsQuoted(Quoted(s)) && Unquoted(Quoted(s)) == s && Quoted(s) != "," && Quoted(s) != "}" && Quoted(s) != ""
  {
  }

  /** A comma before a field makes no difference. */
  lemma FieldReads(name: string, s: Stream)
    requires name != ""
    ensures var field := More(Quoted(name), More(":", s));
            NextField(field) == Success((name, s)) && NextField(Comma(field)) == Success((name, s))
  {
    hide Quoted, Unquoted, IsQuoted;
    UnquotedQuoted(name);
  }

  lemma IntReads(n: int, s: Stream)
    requires IsInt(n)
    ensures NextInt(More(Decimal(n), s)) == Success((n, s))
  {
    hide Decimal, StringToInt;
    IdReadsBack(n, BadInt);
  }

  lemma CountReads(n: int, s: Stream)
    requires IsCount(n)
    ensures NextInt(More(Decimal(n), s)).Success? && NextInt(More(Decimal(n), s)).value.1 == s
    ensures ToUnsigned(NextInt(More(Decimal(n), s)).value.0) == n
  {
    hide Decimal, StringToInt, ToUnsigned, SmallCount;
    FramesReadBack(n, BadInt);
  }

  // ---------------------------------------------------------------- clips

  function AfterClips(files: seq<AudioFile>, clips: seq<Clip>): seq<AudioFile>
    requires HaveFiles(clips)
    decreases |clips|
  {
    if clips == [] then files else AfterClips(FileForId(files, clips[0].file.value), clips[1..])
  }

  /** The tokens `s`, perhaps after a comma. */
  predicate MaybeComma(t: Stream, s: Stream) {
    t == s || t == Comma(s)
  }

  lemma ClipFieldStep(t: Stream, name: string, value: string, s: Stream, clip: Clip, files: seq<AudioFile>)
    requires name != "" && MaybeComma(t, Field(name, value, s))
    ensures var read := ReadClipField(name, More(value, s), clip, files);
            if read.Success? then ReadClipFields(t, clip, files) == ReadClipFields(read.value.1, read.value.0.0, read.value.0.1)
            else ReadClipFields(t, clip, files) == Failure(read.error)
  {
    hide NextField, ReadClipField;
    FieldReads(name, More(value, s));
  }

  lemma ClipReadsBack(clip: Clip, s: Stream, files: seq<AudioFile>)
    requires GoodClip(clip)
    ensures ReadClip(ClipTokens(clip, s), files) == Success(((clip, FileForId(files, clip.file.value)), s))
  {
    hide ReadClipFields, NextInt, Decimal, FileForId, Field, PlainNumber, ToUnsigned, NextField, IsCount;
    var s5 := More("}", s);
    var s4 := Field("length", Decimal(clip.length), s5);
    var s3 := Field("file-start-frame", Decimal(clip.fileStartFrame), Comma(s4));
    var s2 := Field("start", clip.start, Comma(s3));
    var s1 := Field("file", Decimal(clip.file.value), Comma(s2));
    var c1 := NewClip.(id := clip.id);
    if clip.id != 0 {
      ClipFieldStep(Field("id", Decimal(clip.id), Comma(s1)), "id", Decimal(clip.id), Comma(s1), NewClip, files);
      IntReads(clip.id, Comma(s1));
    }
    var t1 := if clip.id != 0 then Comma(s1) else s1;
    ClipFieldStep(t1, "file", Decimal(clip.file.value), Comma(s2), c1, files);
    IntReads(clip.file.value, Comma(s2));
    var files' := FileForId(files, clip.file.value);
    var c2 := c1.(file := clip.file);
    ClipFieldStep(Comma(s2), "start", clip.start, Comma(s3), c2, files');
    StartReads(clip.start, Comma(s3));
    var c3 := c2.(start := clip.start);
    ClipFieldStep(Comma(s3), "file-start-frame", Decimal(clip.fileStartFrame), Comma(s4), c3, files');
    CountReads(clip.fileStartFrame, Comma(s4));
    var c4 := c3.(fileStartFrame := clip.fileStartFrame);
    ClipFieldStep(Comma(s4), "length", Decimal(clip.length), s5, c4, files');
    CountReads(clip.length, s5);
    LastClipField(s, clip, files');
  }

  lemma StartReads(start: string, s: Stream)
    requires PlainNumber(start)
    ensures NextDouble(More(start, s)) == Success((start, s))
  {
  }

  lemma LastClipField(s: Stream, clip: Clip, files: seq<AudioFile>)
    ensures ReadClipFields(More("}", s), clip, files) == Success(((clip, files), s))
  {
  }

  /** An array goes on at an opening brace, after a comma or not, and ends at its bracket. */
  lemma ArrayGoesOn(s: Stream)
    requires s.More? && s.token == "{"
    ensures ArrayIsDone(s) == Success((false, s)) && ArrayIsDone(Comma(s)) == Success((false, s))
  {
  }

  lemma ArrayEnds(s: Stream)
    ensures ArrayIsDone(More("]", s)) == Success((true, s))
  {
  }

  lemma ClipOpens(clip: Clip, r: Stream)
    requires clip.file.Some?
    ensures ClipTokens(clip, r).More? && ClipTokens(clip, r).token == "{"
  {
    hide Field, Decimal;
  }

  lemma TrackOpens(t: Track, r: Stream)
    requires AllHaveFiles(t)
    ensures TrackTokens(t, r).More? && TrackTokens(t, r).token == "{"
  {
    hide SettingsTokens, PlaylistTokens, ChildrenTokens, AllHaveFiles;
  }

  lemma {:induction false} ClipsReadBack(clips: seq<Clip>, first: bool, done: seq<Clip>, s: Stream, files: seq<AudioFile>)
    requires HaveFiles(clips) && forall i :: 0 <= i < |clips| ==> GoodClip(clips[i])
    ensures ReadClips(ClipsTokens(clips, first, More("]", s)), done, files)
         == Success(((done + clips, AfterClips(files, clips)), s))
    decreases |clips|
  {
    hide ReadClip, GoodClip, FileForId, ArrayIsDone, ClipTokens;
    if clips == [] {
      assert done + clips == done;
      ArrayEnds(s);
    } else {
      var rest := ClipsTokens(clips[1..], false, More("]", s));
      var tokens := ClipTokens(clips[0], rest);
      ClipReadsBack(clips[0], rest, files);
      ClipsReadBack(clips[1..], false, done + [clips[0]], s, FileForId(files, clips[0].file.value));
      assert done + [clips[0]] + clips[1..] == done + clips;
      ClipOpens(clips[0], rest);
      ArrayGoesOn(tokens);
    }
  }

  lemma PlaylistReadsBack(clips: seq<Clip>, s: Stream, files: seq<AudioFile>)
    requires HaveFiles(clips) && forall i :: 0 <= i < |clips| ==> GoodClip(clips[i])
    ensures ReadPlaylist(PlaylistTokens(clips, s), [], files) == Success(((clips, AfterClips(files, clips)), s))
  {
    hide ReadClips, ClipsTokens, GoodClip, NextField, Quoted;
    NoFieldReads(s);
    if clips != [] {
      var list := ClipsTokens(clips, true, More("]", More("}", s)));
      FieldReads("clips", More("[", list));
      ClipsReadBack(clips, true, [], More("}", s), files);
      assert [] + clips == clips;
      assert ReadPlaylistFields(More("}", s), clips, AfterClips(files, clips)) == Success(((clips, AfterClips(files, clips)), s));
    }
  }

  lemma NoFieldReads(s: Stream)
    ensures NextField(More("}", s)) == Success(("", s))
  {
  }

  // ---------------------------------------------------------------- tracks

  /** What is known after a track was read. */
  function AfterTrack(ctx: Context, t: Track): Context
    requires AllHaveFiles(t)
    decreases t
  {
    AfterTracks(ctx.(files := AfterClips(ctx.files, t.clips)), t.children)
  }

  function AfterTracks(ctx: Context, tracks: seq<Track>): Context
    requires forall i :: 0 <= i < |tracks| ==> AllHaveFiles(tracks[i])
    decreases tracks
  {
    if tracks == [] then ctx
    else AfterTracks(AfterTrack(ctx.(nextNewId := ctx.nextNewId + 1), tracks[0]), tracks[1..])
  }

  lemma TrackFieldStep(t: Stream, name: string, value: string, s: Stream, track: Track, ctx: Context)
    requires name != "" && MaybeComma(t, Field(name, value, s)) && name != "playlist" && name != "children"
    ensures var read := ReadSetting(name, More(value, s), track);
            if read.Success? then ReadTrackFields(t, track, ctx) == ReadTrackFields(read.value.1, read.value.0, ctx)
            else ReadTrackFields(t, track, ctx) == Failure(read.error)
  {
    hide NextField, ReadSetting;
    FieldReads(name, More(value, s));
  }

  lemma StringReads(value: string, s: Stream)
    ensures NextString(More(Quoted(value), s)) == Success((value, s))
  {
    hide Quoted, Unquoted, IsQuoted;
    UnquotedQuoted(value);
  }

  lemma BoolReads(b: bool, s: Stream)
    ensures NextBool(More(Boolean(b), s)) == Success((b, s))
  {
  }

  function WithSettings(track: Track, t: Track): Track {
    t.(clips := track.clips, children := track.children)
  }

  lemma SettingsReadBack(t: Track, s: Stream, track: Track, ctx: Context)
    requires SafeString(t.name) && SafeString(t.input) && PlainNumber(t.gain) && IsInt(t.id)
    requires track.input == "" && s.More? && s.token != ","
    ensures ReadTrackFields(SettingsTokens(t, s), track, ctx) == ReadTrackFields(s, WithSettings(track, t), ctx)
  {
    hide ReadTrackFields, NextInt, NextString, NextBool, NextDouble, Decimal, Field, PlainNumber, SafeString, Quoted, Boolean;
    var s7 := if t.input != "" then Field("input", Quoted(t.input), Comma(s)) else s;
    var s6 := Field("monitor_input", Boolean(t.monitorInput), Comma(s7));
    var s5 := Field("record_armed", Boolean(t.recordArmed), Comma(s6));
    var s4 := Field("sends_to_parent", Boolean(t.sendsToParent), Comma(s5));
    var s3 := Field("gain", t.gain, Comma(s4));
    var s2 := Field("name", Quoted(t.name), Comma(s3));
    var s1 := Field("id", Decimal(t.id), Comma(s2));
    TrackFieldStep(s1, "id", Decimal(t.id), Comma(s2), track, ctx);
    IntReads(t.id, Comma(s2));
    var t1 := track.(id := t.id);
    TrackFieldStep(Comma(s2), "name", Quoted(t.name), Comma(s3), t1, ctx);
    StringReads(t.name, Comma(s3));
    var t2 := t1.(name := t.name);
    TrackFieldStep(Comma(s3), "gain", t.gain, Comma(s4), t2, ctx);
    StartReads(t.gain, Comma(s4));
    var t3 := t2.(gain := t.gain);
    FlagsReadBack(t, s7, t3, ctx);
    var t6 := t3.(sendsToParent := t.sendsToParent, recordArmed := t.recordArmed, monitorInput := t.monitorInput);
    if t.input != "" {
      TrackFieldStep(Comma(s7), "input", Quoted(t.input), Comma(s), t6, ctx);
      StringReads(t.input, Comma(s));
    }
    assert t6.(input := t.input) == WithSettings(track, t);
    CommaSkipped(s, WithSettings(track, t), ctx);
  }

  lemma FlagsReadBack(t: Track, s: Stream, track: Track, ctx: Context)
    ensures ReadTrackFields(
              Comma(Field("sends_to_parent", Boolean(t.sendsToParent),
              Comma(Field("record_armed", Boolean(t.recordArmed),
              Comma(Field("monitor_input", Boolean(t.monitorInput), Comma(s))))))), track, ctx)
         == ReadTrackFields(
              Comma(s),
              track.(sendsToParent := t.sendsToParent, recordArmed := t.recordArmed, monitorInput := t.monitorInput), ctx)
  {
    hide ReadTrackFields, NextBool, Field, Boolean;
    var s6 := Field("monitor_input", Boolean(t.monitorInput), Comma(s));
    var s5 := Field("record_armed", Boolean(t.recordArmed), Comma(s6));
    var s4 := Field("sends_to_parent", Boolean(t.sendsToParent), Comma(s5));
    TrackFieldStep(Comma(s4), "sends_to_parent", Boolean(t.sendsToParent), Comma(s5), track, ctx);
    BoolReads(t.sendsToParent, Comma(s5));
    var t4 := track.(sendsToParent := t.sendsToParent);
    TrackFieldStep(Comma(s5), "record_armed", Boolean(t.recordArmed), Comma(s6), t4, ctx);
    BoolReads(t.recordArmed, Comma(s6));
    var t5 := t4.(recordArmed := t.recordArmed);
    TrackFieldStep(Comma(s6), "monitor_input", Boolean(t.monitorInput), Comma(s), t5, ctx);
    BoolReads(t.monitorInput, Comma(s));
  }

  lemma CommaSkipped(s: Stream, track: Track, ctx: Context)
    requires s.More? && s.token != ","
    ensures ReadTrackFields(Comma(s), track, ctx) == ReadTrackFields(s, track, ctx)
  {
    hide ReadTrackField;
    assert NextField(Comma(s)) == NextField(s);
  }

  lemma {:induction false} TrackReadsBack(t: Track, s: Stream, track: Track, ctx: Context)
    requires GoodTrack(t) && AllHaveFiles(t)
    requires track.input == "" && track.clips == [] && track.children == []
    ensures ReadTrack(TrackTokens(t, s), track, ctx) == Success(((t, AfterTrack(ctx, t)), s))
    decreases t, 0
  {
    hide SettingsTokens, PlaylistTokens, ChildrenTokens, ReadTrackFields, AfterTracks, AfterClips, SafeString, PlainNumber;
    var rest := ChildrenTokens(t.children, s);
    var list := PlaylistTokens(t.clips, rest);
    var playlist := More(Quoted("playlist"), More(":", list));
    var t1 := WithSettings(track, t);
    var ctx1 := ctx.(files := AfterClips(ctx.files, t.clips));
    UnquotedQuoted("playlist");
    SettingsReadBack(t, playlist, track, ctx);
    PlaylistReadsBack(t.clips, rest, ctx.files);
    PlaylistFieldStep(t.clips, rest, t1, ctx);
    ChildrenReadBack(t.children, s, t1.(clips := t.clips), ctx1);
    assert t1.(clips := t.clips).(children := t.children) == t;
  }

  lemma PlaylistFieldStep(clips: seq<Clip>, rest: Stream, track: Track, ctx: Context)
    requires HaveFiles(clips) && track.clips == []
    requires ReadPlaylist(PlaylistTokens(clips, rest), [], ctx.files) == Success(((clips, AfterClips(ctx.files, clips)), rest))
    ensures ReadTrackFields(More(Quoted("playlist"), More(":", PlaylistTokens(clips, rest))), track, ctx)
         == ReadTrackFields(rest, track.(clips := clips), ctx.(files := AfterClips(ctx.files, clips)))
  {
    hide NextField, ReadPlaylist, PlaylistTokens, AfterClips, Quoted;
    FieldReads("playlist", PlaylistTokens(clips, rest));
  }

  lemma {:induction false} ChildrenReadBack(children: seq<Track>, s: Stream, track: Track, ctx: Context)
    requires forall i :: 0 <= i < |children| ==> GoodTrack(children[i]) && AllHaveFiles(children[i])
    requires track.children == []
    ensures ReadTrackFields(ChildrenTokens(children, s), track, ctx)
         == Success(((track.(children := children), AfterTracks(ctx, children)), s))
    decreases children, 1
  {
    hide NextField, ReadTracks, TracksTokens, AfterTracks, GoodTrack, AllHaveFiles, Quoted;
    NoFieldReads(s);
    if children == [] {
      NoChildren(ctx);
    } else {
      var list := TracksTokens(children, true, More("]", More("}", s)));
      FieldReads("children", More("[", list));
      TracksReadBack(children, true, [], More("}", s), ctx);
      assert [] + children == children;
      ChildrenFieldStep(children, list, More("}", s), track, ctx);
    }
  }

  lemma NoChildren(ctx: Context)
    ensures AfterTracks(ctx, []) == ctx
  {
  }

  lemma ChildrenFieldStep(children: seq<Track>, list: Stream, rest: Stream, track: Track, ctx: Context)
    requires forall i :: 0 <= i < |children| ==> AllHaveFiles(children[i])
    requires ReadTracks(list, track.children, ctx) == Success(((children, AfterTracks(ctx, children)), rest))
    ensures ReadTrackFields(Comma(More(Quoted("children"), More(":", More("[", list)))), track, ctx)
         == ReadTrackFields(rest, track.(children := children), AfterTracks(ctx, children))
  {
    hide NextField, ReadTracks, AfterTracks, AllHaveFiles, Quoted;
    FieldReads("children", More("[", list));
  }

  lemma {:induction false} TracksReadBack(tracks: seq<Track>, first: bool, done: seq<Track>, s: Stream, ctx: Context)
    requires forall i :: 0 <= i < |tracks| ==> GoodTrack(tracks[i]) && AllHaveFiles(tracks[i])
    ensures ReadTracks(TracksTokens(tracks, first, More("]", s)), done, ctx)
         == Success(((done + tracks, AfterTracks(ctx, tracks)), s))
    decreases tracks, 0
  {
    hide ReadTrack, GoodTrack, AllHaveFiles, AfterTrack, TrackTokens, ArrayIsDone;
    if tracks == [] {
      assert done + tracks == done;
      ArrayEnds(s);
    } else {
      var rest := TracksTokens(tracks[1..], false, More("]", s));
      var tokens := TrackTokens(tracks[0], rest);
      var ctx1 := ctx.(nextNewId := ctx.nextNewId + 1);
      TrackReadsBack(tracks[0], rest, NewTrack(ctx.nextNewId), ctx1);
      TracksReadBack(tracks[1..], false, done + [tracks[0]], s, AfterTrack(ctx1, tracks[0]));
      assert done + [tracks[0]] + tracks[1..] == done + tracks;
      TrackOpens(tracks[0], rest);
      ArrayGoesOn(tokens);
    }
  }

  // ---------------------------------------------------------------- files

  function AfterFile(known: seq<AudioFile>, file: AudioFile): seq<AudioFile> {
    WithPath(FileForId(known, file.id), file.id, file.path)
  }

  function AfterFiles(known: seq<AudioFile>, files: seq<AudioFile>): seq<AudioFile>
    decreases |files|
  {
    if files == [] then known else AfterFiles(AfterFile(known, files[0]), files[1..])
  }

  lemma FileReadsBack(file: AudioFile, s: Stream, known: seq<AudioFile>)
    ensures ReadFile(More("{", Field("path", Quoted(file.path), More("}", s))), file.id, known)
         == Success((AfterFile(known, file), s))
  {
    hide NextField, NextString, FileForId, WithPath, Quoted;
    FieldReads("path", More(Quoted(file.path), More("}", s)));
    StringReads(file.path, More("}", s));
    NoFieldReads(s);
    assert ReadFileFields(More("}", s), file.path) == Success((file.path, s));
  }

  lemma {:induction false} FilesReadBack(files: seq<AudioFile>, first: bool, s: Stream, known: seq<AudioFile>)
    requires forall i :: 0 <= i < |files| ==> IsInt(files[i].id)
    ensures ReadFiles(FilesTokens(files, first, More("}", s)), known) == Success((AfterFiles(known, files), s))
    decreases |files|
  {
    hide NextField, ReadFile, AfterFile, Quoted, Decimal, StringToInt;
    if files == [] {
      NoFieldReads(s);
    } else {
      var rest := FilesTokens(files[1..], false, More("}", s));
      var entry := More("{", Field("path", Quoted(files[0].path), More("}", rest)));
      DecimalNotEmpty(files[0].id);
      FieldReads(Decimal(files[0].id), entry);
      IdReadsBack(files[0].id, InvalidProjectFile);
      FileReadsBack(files[0], rest, known);
      FilesReadBack(files[1..], false, s, AfterFile(known, files[0]));
    }
  }

  lemma DecimalNotEmpty(n: int)
    ensures Decimal(n) != ""
  {
  }

  lemma {:induction false} PathOfHas(files: seq<AudioFile>, id: int)
    ensures PathOf(files, id).Some? <==> HasFile(files, id)
  {
    if files != [] {
      PathOfHas(files[1..], id);
      if HasFile(files, id) && files[0].id != id {
        var i :| 0 <= i < |files| && files[i].id == id;
        assert files[1..][i - 1].id == id;
      } else if HasFile(files[1..], id) {
        var i :| 0 <= i < |files[1..]| && files[1..][i].id == id;
        assert files[i + 1].id == id;
      }
    }
  }

  lemma {:induction false} PathAppend(files: seq<AudioFile>, file: AudioFile, id: int)
    ensures PathOf(files + [file], id)
         == if PathOf(files, id).Some? then PathOf(files, id) else if file.id == id then Some(file.path) else None
  {
    if files == [] {
      assert ([file])[1..] == [];
      assert files + [file] == [file];
    } else {
      assert (files + [file])[1..] == files[1..] + [file];
      PathAppend(files[1..], file, id);
    }
  }

  lemma {:induction false} PathWithPath(files: seq<AudioFile>, id: int, path: string, other: int)
    ensures PathOf(WithPath(files, id, path), other)
         == if other == id && PathOf(files, id).Some? then Some(path) else PathOf(files, other)
  {
    if files != [] {
      assert WithPath(files, id, path)[1..] == WithPath(files[1..], id, path);
      PathWithPath(files[1..], id, path, other);
    }
  }

  lemma PathAfterFile(known: seq<AudioFile>, file: AudioFile, id: int)
    ensures PathOf(AfterFile(known, file), id) == if id == file.id then Some(file.path) else PathOf(known, id)
  {
    hide PathOf, WithPath;
    PathOfHas(known, file.id);
    PathAppend(known, AudioFile(file.id, ""), id);
    PathAppend(known, AudioFile(file.id, ""), file.id);
    PathWithPath(FileForId(known, file.id), file.id, file.path, id);
  }

  lemma {:induction false} PathAfterFiles(known: seq<AudioFile>, files: seq<AudioFile>, id: int)
    requires DistinctIds(files)
    ensures PathOf(AfterFiles(known, files), id) == if HasFile(files, id) then PathOf(files, id) else PathOf(known, id)
    decreases |files|
  {
    hide AfterFile;
    PathOfHas(files, id);
    if files != [] {
      PathAfterFile(known, files[0], id);
      PathAfterFiles(AfterFile(known, files[0]), files[1..], id);
      PathOfHas(files[1..], id);
    }
  }

  lemma DistinctAfterFile(known: seq<AudioFile>, file: AudioFile)
    requires DistinctIds(known)
    ensures DistinctIds(AfterFile(known, file))
  {
  }

  lemma {:induction false} DistinctAfterFiles(known: seq<AudioFile>, files: seq<AudioFile>)
    requires DistinctIds(known)
    ensures DistinctIds(AfterFiles(known, files))
    decreases |files|
  {
    hide DistinctIds, AfterFile;
    if files != [] {
      DistinctAfterFile(known, files[0]);
      DistinctAfterFiles(AfterFile(known, files[0]), files[1..]);
    }
  }

  /** Files of distinct ids are determined, up to their order, by the path of each id. */
  lemma {:induction false} CountOfFile(files: seq<AudioFile>, file: AudioFile)
    requires DistinctIds(files)
    ensures multiset(files)[file] == if PathOf(files, file.id) == Some(file.path) then 1 else 0
  {
    if files != [] {
      CountOfFile(files[1..], file);
      assert files == [files[0]] + files[1..];
      PathOfHas(files[1..], file.id);
      if HasFile(files[1..], file.id) {
        var i :| 0 <= i < |files[1..]| && files[1..][i].id == file.id;
        assert files[i + 1].id == file.id;
      }
    }
  }

  // ---------------------------------------------------------------- which files are known

  predicate Within(known: seq<AudioFile>, files: seq<AudioFile>) {
    DistinctIds(known) && forall i :: 0 <= i < |known| ==> HasFile(files, known[i].id)
  }

  lemma {:induction false} ClipsWithin(known: seq<AudioFile>, clips: seq<Clip>, files: seq<AudioFile>)
    requires HaveFiles(clips) && ClipsFrom(clips, files) && Within(known, files)
    ensures Within(AfterClips(known, clips), files)
    decreases |clips|
  {
    hide HasFile;
    if clips != [] {
      FileWithin(known, clips[0].file.value, files);
      ClipsWithin(FileForId(known, clips[0].file.value), clips[1..], files);
    }
  }

  lemma FileWithin(known: seq<AudioFile>, id: int, files: seq<AudioFile>)
    requires Within(known, files) && HasFile(files, id)
    ensures Within(FileForId(known, id), files)
  {
  }

  lemma {:induction false} TrackWithin(ctx: Context, t: Track, files: seq<AudioFile>)
    requires AllHaveFiles(t) && PlaysFrom(t, files) && Within(ctx.files, files)
    ensures Within(AfterTrack(ctx, t).files, files)
    decreases t
  {
    hide Within, ClipsFrom, AfterClips;
    ClipsWithin(ctx.files, t.clips, files);
    TracksWithin(ctx.(files := AfterClips(ctx.files, t.clips)), t.children, files);
  }

  lemma {:induction false} TracksWithin(ctx: Context, tracks: seq<Track>, files: seq<AudioFile>)
    requires forall i :: 0 <= i < |tracks| ==> AllHaveFiles(tracks[i]) && PlaysFrom(tracks[i], files)
    requires Within(ctx.files, files)
    ensures Within(AfterTracks(ctx, tracks).files, files)
    decreases tracks
  {
    hide Within, AllHaveFiles, PlaysFrom, AfterTrack;
    if tracks != [] {
      var ctx1 := ctx.(nextNewId := ctx.nextNewId + 1);
      TrackWithin(ctx1, tracks[0], files);
      TracksWithin(AfterTrack(ctx1, tracks[0]), tracks[1..], files);
    }
  }

  // ---------------------------------------------------------------- the whole project

  lemma {:induction false} GoodIsPlain(t: Track)
    requires GoodTrack(t)
    ensures PlainTrack(t)
  {
    hide SafeString, PlainNumber;
    forall i | 0 <= i < |t.children| ensures PlainTrack(t.children[i]) {
      GoodIsPlain(t.children[i]);
    }
  }

  lemma ProjectTokensReadBack(p: Project)
    requires GoodProject(p) && AllHaveFiles(p.master)
    ensures var ctx := AfterTrack(Context([], 2), p.master);
            var files := AfterFiles(ctx.files, p.files);
            ReadProject(ProjectTokens(p, End)) == Success((Project(p.master, files, MaxUsedId(p.master, files) + 1), End))
  {
    hide NextField, ReadTrack, ReadFiles, TrackTokens, FilesTokens, AfterTrack, AfterFiles, MaxUsedId, GoodTrack, PlaysFrom,
         SafeString, DistinctIds, Quoted, AllHaveFiles;
    var s := More("}", More("}", End));
    var list := FilesTokens(p.files, true, s);
    var files := More(Quoted("files"), More(":", More("{", list)));
    var ctx := AfterTrack(Context([], 2), p.master);
    UnquotedQuoted("files");
    TrackReadsBack(p.master, Comma(files), NewMaster, Context([], 2));
    FilesReadBack(p.files, true, More("}", End), ctx.files);
    FieldReads("master", TrackTokens(p.master, Comma(files)));
    FieldReads("files", More("{", list));
    NoFieldReads(End);
    LastProjectFields(p.master, list, ctx, AfterFiles(ctx.files, p.files));
    MasterFieldStep(p.master, Comma(files), ctx);
  }

  lemma LastProjectFields(master: Track, list: Stream, ctx: Context, files: seq<AudioFile>)
    requires ReadFiles(list, ctx.files) == Success((files, More("}", End)))
    ensures ReadProjectFields(Comma(More(Quoted("files"), More(":", More("{", list)))), master, ctx)
         == Success(((master, ctx.(files := files)), End))
  {
    hide NextField, ReadFiles, Quoted;
    FieldReads("files", More("{", list));
    NoFieldReads(End);
    assert ReadProjectFields(More("}", End), master, ctx.(files := files)) == Success(((master, ctx.(files := files)), End));
  }

  lemma MasterFieldStep(master: Track, rest: Stream, ctx: Context)
    requires AllHaveFiles(master)
    requires ReadTrack(TrackTokens(master, rest), NewMaster, Context([], 2)) == Success(((master, ctx), rest))
    ensures ReadProjectFields(More(Quoted("master"), More(":", TrackTokens(master, rest))), NewMaster, Context([], 2))
         == ReadProjectFields(rest, master, ctx)
  {
    hide NextField, ReadTrack, Quoted, TrackTokens, AllHaveFiles;
    FieldReads("master", TrackTokens(master, rest));
  }

  /**
    The round trip.  The text saved for a project reads as one with the same tree of
    tracks and the same files, each with the id it had, and nothing is left of the text.
   */
  lemma SavedProjectReopens(p: Project)
    requires GoodProject(p)
    ensures AllHaveFiles(p.master)
    ensures var reopened := ReadProject(Lex(WriteProject(Sink("", 0, true), p).out));
            && reopened.Success? && reopened.value.1 == End
            && reopened.value.0.master == p.master
            && multiset(reopened.value.0.files) == multiset(p.files)
            && reopened.value.0.nextNewId == MaxUsedId(p.master, reopened.value.0.files) + 1
  {
    hide Lex, WriteProject, ReadProject, MaxUsedId, AfterTrack, AfterFiles, GoodTrack, PlaysFrom, SafeString, AllHaveFiles, PlainTrack,
         PathOf;
    GoodIsPlain(p.master);
    PlainHaveFiles(p.master);
    ProjectTextTokens(p);
    ProjectTokensReadBack(p);
    TrackWithin(Context([], 2), p.master, p.files);
    var known := AfterTrack(Context([], 2), p.master).files;
    var files := AfterFiles(known, p.files);
    SameFiles(known, p.files);
  }

  /** Reading the table of files restores it, whatever was mentioned before. */
  lemma SameFiles(known: seq<AudioFile>, files: seq<AudioFile>)
    requires Within(known, files) && DistinctIds(files)
    ensures multiset(AfterFiles(known, files)) == multiset(files)
  {
    hide PathOf, AfterFiles;
    var after := AfterFiles(known, files);
    DistinctAfterFiles(known, files);
    forall file ensures multiset(after)[file] == multiset(files)[file] {
      CountOfFile(after, file);
      CountOfFile(files, file);
      PathAfterFiles(known, files, file.id);
      PathOfHas(files, file.id);
      PathOfHas(known, file.id);
    }
  }

  // ---------------------------------------------------------------- what is not in the text

  /** A project, a track and a clip of which nothing is said are as they are when they are made. */
  lemma EmptyObjectsRead(s: Stream, ctx: Context)
    ensures var nothing := More("{", More("}", s));
            && ReadProject(nothing) == Success((Project(Track(1, "Master", "1", true, false, true, "", [], []), [], 2), s))
            && ReadTracks(More("{", More("}", More("]", s))), [], ctx)
               == Success((([Track(ctx.nextNewId, "", "1", true, false, true, "", [], [])], ctx.(nextNewId := ctx.nextNewId + 1)), s))
            && ReadClip(nothing, ctx.files) == Success(((Clip(0, None, "", 0, 0), ctx.files), s))
  {
    hide ReadTrackField, ReadClipField, MaxUsedId, ReadProjectFields;
    NoFieldReads(s);
    NoFieldReads(More("]", s));
    ArrayGoesOn(More("{", More("}", More("]", s))));
    ArrayEnds(s);
    NoProjectFields(s);
    var track, ctx1 := NewTrack(ctx.nextNewId), ctx.(nextNewId := ctx.nextNewId + 1);
    assert ReadTrack(More("{", More("}", More("]", s))), track, ctx1) == Success(((track, ctx1), More("]", s)));
    assert [] + [track] == [track] && ReadTracks(More("]", s), [track], ctx1) == Success((([track], ctx1), s));
  }

  lemma NoProjectFields(s: Stream)
    ensures ReadProjectFields(More("}", s), NewMaster, Context([], 2)) == Success(((NewMaster, Context([], 2)), s))
    ensures MaxUsedId(NewMaster, []) == 1
  {
    NoFieldReads(s);
  }

  // ---------------------------------------------------------------- new ids

  predicate UsesId(t: Track, id: int) {
    || t.id == id
    || (exists i :: 0 <= i < |t.clips| && t.clips[i].id == id)
    || (exists i :: 0 <= i < |t.children| && UsesId(t.children[i], id))
  }

  lemma {:induction false} ClipIdAtMost(clips: seq<Clip>, i: nat)
    requires i < |clips|
    ensures clips[i].id <= MaxClipId(clips)
  {
    if i > 0 {
      ClipIdAtMost(clips[1..], i - 1);
    }
  }

  lemma {:induction false} FileIdAtMost(files: seq<AudioFile>, i: nat)
    requires i < |files|
    ensures files[i].id <= MaxFileId(files)
  {
    if i > 0 {
      FileIdAtMost(files[1..], i - 1);
    }
  }

  lemma {:induction false} TrackIdAtMost(t: Track, id: int)
    requires UsesId(t, id)
    ensures id <= MaxTrackId(t)
    decreases t, 0
  {
    hide MaxClipId, MaxTracksId;
    if t.id != id {
      if i :| 0 <= i < |t.clips| && t.clips[i].id == id {
        ClipIdAtMost(t.clips, i);
      } else {
        var i :| 0 <= i < |t.children| && UsesId(t.children[i], id);
        ChildIdAtMost(t.children, i, id);
      }
    }
  }

  lemma {:induction false} ChildIdAtMost(tracks: seq<Track>, i: nat, id: int)
    requires i < |tracks| && UsesId(tracks[i], id)
    ensures id <= MaxTracksId(tracks)
    decreases tracks, 1
  {
    hide UsesId, MaxTrackId;
    if i == 0 {
      TrackIdAtMost(tracks[0], id);
    } else {
      ChildIdAtMost(tracks[1..], i - 1, id);
    }
  }

  /** However a project was read, the next id it hands out is used by no track, clip or file in it. */
  lemma NextIdIsNew(s: Stream, id: int)
    requires ReadProject(s).Success?
    ensures var p := ReadProject(s).value.0;
            UsesId(p.master, id) || HasFile(p.files, id) ==> id < p.nextNewId
  {
    hide ReadProjectFields, MaxTrackId, MaxFileId, UsesId;
    var p := ReadProject(s).value.0;
    if UsesId(p.master, id) {
      TrackIdAtMost(p.master, id);
    } else if HasFile(p.files, id) {
      var i :| 0 <= i < |p.files| && p.files[i].id == id;
      FileIdAtMost(p.files, i);
    }
  }

  lemma {:induction false} MaxClipIsUsed(clips: seq<Clip>)
    ensures MaxClipId(clips) == 0 || exists i :: 0 <= i < |clips| && clips[i].id == MaxClipId(clips)
  {
    if clips != [] {
      MaxClipIsUsed(clips[1..]);
      if i :| 0 <= i < |clips[1..]| && clips[1..][i].id == MaxClipId(clips[1..]) {
        assert clips[i + 1].id == MaxClipId(clips[1..]);
      }
    }
  }

  lemma {:induction false} MaxFileIsUsed(files: seq<AudioFile>)
    ensures MaxFileId(files) == 0 || HasFile(files, MaxFileId(files))
  {
    if files != [] {
      MaxFileIsUsed(files[1..]);
      if i :| 0 <= i < |files[1..]| && files[1..][i].id == MaxFileId(files[1..]) {
        assert files[i + 1].id == MaxFileId(files[1..]);
      }
    }
  }

  lemma {:induction false} MaxTrackIsUsed(t: Track)
    ensures MaxTrackId(t) == 0 || UsesId(t, MaxTrackId(t))
    decreases t, 0
  {
    hide MaxClipId, MaxTracksId;
    MaxClipIsUsed(t.clips);
    MaxChildIsUsed(t.children);
  }

  lemma {:induction false} MaxChildIsUsed(tracks: seq<Track>)
    ensures MaxTracksId(tracks) == 0 || exists i :: 0 <= i < |tracks| && UsesId(tracks[i], MaxTracksId(tracks))
    decreases tracks, 1
  {
    hide UsesId, MaxTrackId;
    if tracks != [] {
      MaxTrackIsUsed(tracks[0]);
      MaxChildIsUsed(tracks[1..]);
      if i :| 0 <= i < |tracks[1..]| && UsesId(tracks[1..][i], MaxTracksId(tracks[1..])) {
        assert UsesId(tracks[i + 1], MaxTracksId(tracks[1..]));
      }
    }
  }

  /** The next id is the least one above all that are used, or 1. */
  lemma NextIdIsLeast(s: Stream)
    requires ReadProject(s).Success?
    ensures var p := ReadProject(s).value.0;
            p.nextNewId == 1 || UsesId(p.master, p.nextNewId - 1) || HasFile(p.files, p.nextNewId - 1)
  {
    hide ReadProjectFields, MaxTrackId, MaxFileId, UsesId;
    var p := ReadProject(s).value.0;
    MaxTrackIsUsed(p.master);
    MaxFileIsUsed(p.files);
  }
}
