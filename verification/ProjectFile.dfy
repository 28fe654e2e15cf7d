/**
  What a project is on disk: the text that is written for it, and what is made of a
  stream of tokens when one is read.
 */
module ProjectFiles {
  import opened JSON
  import opened Sinks
  import opened Wrappers

  /** `start` is the text of a number; frames are counted in 64 bits without a sign. */
  datatype Clip = Clip(id: int, file: Option<int>, start: string, fileStartFrame: int, length: int)

  datatype Track = Track(
    id: int, name: string, gain: string, sendsToParent: bool, recordArmed: bool, monitorInput: bool, input: string,
    clips: seq<Clip>, children: seq<Track>)

  datatype AudioFile = AudioFile(id: int, path: string)

  datatype Project = Project(master: Track, files: seq<AudioFile>, nextNewId: int)

  // ---------------------------------------------------------------- writing

  function Digits(n: nat): (s: string)
    ensures s != "" && forall i :: 0 <= i < |s| ==> IsDigit(s[i])
  {
    if n < 10 then [('0' as nat + n) as char] else Digits(n / 10) + [('0' as nat + n % 10) as char]
  }

  function Decimal(n: int): string {
    if n < 0 then "-" + Digits(-n) else Digits(n)
  }

  function Boolean(b: bool): string {
    if b then "true" else "false"
  }

  function Quoted(s: string): string {
    "\"" + s + "\""
  }

  function Label(name: string): string {
    Quoted(name) + ": "
  }

  /** A field whose value is written as it is. */
  function PutValue(k: Sink, name: string, value: string, after: string): Sink {
    Put(Put(Put(k, Label(name)), value), after)
  }

  /** A field whose value is written in quotes. */
  function PutString(k: Sink, name: string, value: string, after: string): Sink {
    Put(Put(Put(k, Label(name) + "\""), value), "\"" + after)
  }

  function WriteClip(k: Sink, clip: Clip): Sink
    requires clip.file.Some?
  {
    var k := Put(k, "{ ");
    var k := if clip.id != 0 then PutValue(k, "id", Decimal(clip.id), ", ") else k;
    var k := PutValue(k, "file", Decimal(clip.file.value), ", ");
    var k := PutValue(k, "start", clip.start, ", ");
    var k := PutValue(k, "file-start-frame", Decimal(clip.fileStartFrame), ", ");
    PutValue(k, "length", Decimal(clip.length), " }")
  }

  predicate HaveFiles(clips: seq<Clip>) {
    forall i :: 0 <= i < |clips| ==> clips[i].file.Some?
  }

  function WriteClips(k: Sink, clips: seq<Clip>, first: bool): Sink
    requires HaveFiles(clips)
    decreases |clips|
  {
    if clips == [] then k
    else WriteClips(WriteClip(if first then k else PutChar(Put(k, ","), '\n'), clips[0]), clips[1..], false)
  }

  function WritePlaylist(k: Sink, clips: seq<Clip>): Sink
    requires HaveFiles(clips)
  {
    if clips == [] then Put(k, "{}")
    else
      var k := Indented(PutChar(Put(k, "{"), '\n'));
      var k := Indented(PutChar(Put(k, "\"clips\": ["), '\n'));
      var k := WriteClips(k, clips, true);
      Unindented(Unindented(Put(PutChar(k, '\n'), "]}")))
  }

  /** Every clip of the track and of the tracks in it has a file. */
  predicate AllHaveFiles(track: Track) {
    HaveFiles(track.clips) && forall i :: 0 <= i < |track.children| ==> AllHaveFiles(track.children[i])
  }

  /** The fields of a track that come before its playlist. */
  function WriteSettings(k: Sink, track: Track, separator: char): Sink {
    var k := PutChar(PutValue(k, "id", Decimal(track.id), ","), separator);
    var k := PutChar(PutString(k, "name", track.name, ","), separator);
    var k := PutChar(PutValue(k, "gain", track.gain, ","), separator);
    var k := PutChar(PutValue(k, "sends_to_parent", Boolean(track.sendsToParent), ","), separator);
    var k := PutChar(PutValue(k, "record_armed", Boolean(track.recordArmed), ","), separator);
    var k := PutChar(PutValue(k, "monitor_input", Boolean(track.monitorInput), ","), separator);
    if track.input != "" then PutChar(PutString(k, "input", track.input, ","), separator) else k
  }

  function WriteTrack(k: Sink, track: Track): Sink
    requires AllHaveFiles(track)
    decreases track
  {
    var separator := if track.clips == [] && track.children == [] then ' ' else '\n';
    var k := Indented(PutChar(Put(k, "{"), separator));
    var k := WriteSettings(k, track, separator);
    var k := WritePlaylist(Put(k, Label("playlist")), track.clips);
    var k :=
      if track.children == [] then k
      else
        var k := PutChar(Put(k, ","), separator);
        var k := Indented(PutChar(Put(k, "\"children\": ["), '\n'));
        var k := WriteTracks(k, track.children, true);
        Unindented(PutChar(Put(PutChar(k, '\n'), "]"), '\n'));
    Unindented(Put(k, "}"))
  }

  function WriteTracks(k: Sink, tracks: seq<Track>, first: bool): Sink
    requires forall i :: 0 <= i < |tracks| ==> AllHaveFiles(tracks[i])
    decreases tracks
  {
    if tracks == [] then k
    else WriteTracks(WriteTrack(if first then k else PutChar(PutChar(k, ','), '\n'), tracks[0]), tracks[1..], false)
  }

  function WriteFile(k: Sink, file: AudioFile): Sink {
    var k := Put(Put(Put(k, "\""), Decimal(file.id)), "\": { ");
    Put(PutString(k, "path", file.path, " "), "}")
  }

  function WriteFiles(k: Sink, files: seq<AudioFile>, first: bool): Sink
    decreases |files|
  {
    if files == [] then k
    else WriteFiles(WriteFile(if first then k else PutChar(PutChar(k, ','), '\n'), files[0]), files[1..], false)
  }

  function WriteProject(k: Sink, project: Project): Sink
    requires AllHaveFiles(project.master)
  {
    var k := Indented(PutChar(Put(k, "{"), '\n'));
    var k := WriteTrack(Put(k, Label("master")), project.master);
    var k := PutChar(PutChar(PutChar(k, ','), '\n'), '\n');
    var k := Indented(PutChar(Put(k, "\"files\": {"), '\n'));
    var k := WriteFiles(k, project.files, true);
    var k := PutChar(Put(PutChar(k, '\n'), "}"), '\n');
    PutChar(Put(Unindented(Unindented(k)), "}"), '\n')
  }

  // ---------------------------------------------------------------- reading

  /** What the reader knows: the files seen so far, and the next id to give to something new. */
  datatype Context = Context(files: seq<AudioFile>, nextNewId: int)

  type Loading<T> = Reading<(T, Context)>

  predicate HasFile(files: seq<AudioFile>, id: int) {
    exists i :: 0 <= i < |files| && files[i].id == id
  }

  /** A file is added to the project when it is first mentioned. */
  function FileForId(files: seq<AudioFile>, id: int): seq<AudioFile> {
    if HasFile(files, id) then files else files + [AudioFile(id, "")]
  }

  function WithPath(files: seq<AudioFile>, id: int, path: string): seq<AudioFile> {
    seq(|files|, i requires 0 <= i < |files| => if files[i].id == id then AudioFile(id, path) else files[i])
  }

  const UNSIGNED: int := 0x1_0000_0000_0000_0000

  /** An `int` stored as an `unsigned long`. */
  function ToUnsigned(n: int): (r: int)
    ensures 0 <= r < UNSIGNED && (0 <= n < UNSIGNED ==> r == n)
  {
    n % UNSIGNED
  }

  const NewClip := Clip(0, None, "", 0, 0)

  function NewTrack(id: int): Track {
    Track(id, "", "1", true, false, true, "", [], [])
  }

  function ReadClipField(name: string, s: Stream, clip: Clip, files: seq<AudioFile>): (r: Reading<(Clip, seq<AudioFile>)>)
    ensures r.Success? ==> Size(r.value.1) <= Size(s)
  {
    if name == "file" then
      var (id, s) :- NextInt(s);
      Success(((clip.(file := Some(id)), FileForId(files, id)), s))
    else if name == "start" then
      var (start, s) :- NextDouble(s);
      Success(((clip.(start := start), files), s))
    else if name == "length" then
      var (length, s) :- NextInt(s);
      Success(((clip.(length := ToUnsigned(length)), files), s))
    else if name == "file-start-frame" then
      var (frame, s) :- NextInt(s);
      Success(((clip.(fileStartFrame := ToUnsigned(frame)), files), s))
    else if name == "id" then
      var (id, s) :- NextInt(s);
      Success(((clip.(id := id), files), s))
    else
      var (_, s) :- IgnoreValue(s);
      Success(((clip, files), s))
  }

  function ReadClipFields(s: Stream, clip: Clip, files: seq<AudioFile>): (r: Reading<(Clip, seq<AudioFile>)>)
    ensures r.Success? ==> Size(r.value.1) <= Size(s)
    decreases Size(s)
  {
    var (name, s) :- NextField(s);
    if name == "" then Success(((clip, files), s))
    else
      var (read, s) :- ReadClipField(name, s, clip, files);
      ReadClipFields(s, read.0, read.1)
  }

  function ReadClip(s: Stream, files: seq<AudioFile>): (r: Reading<(Clip, seq<AudioFile>)>)
    ensures r.Success? ==> Size(r.value.1) < Size(s)
  {
    var (_, s) :- StartObject(s);
    ReadClipFields(s, NewClip, files)
  }

  /** The clips up to the end of the array, after those in `clips`. */
  function ReadClips(s: Stream, clips: seq<Clip>, files: seq<AudioFile>): (r: Reading<(seq<Clip>, seq<AudioFile>)>)
    ensures r.Success? ==> Size(r.value.1) <= Size(s)
    decreases Size(s)
  {
    var (done, s) :- ArrayIsDone(s);
    if done then Success(((clips, files), s))
    else
      var (read, s) :- ReadClip(s, files);
      ReadClips(s, clips + [read.0], read.1)
  }

  function ReadPlaylistFields(s: Stream, clips: seq<Clip>, files: seq<AudioFile>): (r: Reading<(seq<Clip>, seq<AudioFile>)>)
    ensures r.Success? ==> Size(r.value.1) <= Size(s)
    decreases Size(s)
  {
    var (name, s) :- NextField(s);
    if name == "" then Success(((clips, files), s))
    else if name == "clips" then
      var (_, s) :- StartArray(s);
      var (read, s) :- ReadClips(s, clips, files);
      ReadPlaylistFields(s, read.0, read.1)
    else
      var (_, s) :- IgnoreValue(s);
      ReadPlaylistFields(s, clips, files)
  }

  function ReadPlaylist(s: Stream, clips: seq<Clip>, files: seq<AudioFile>): (r: Reading<(seq<Clip>, seq<AudioFile>)>)
    ensures r.Success? ==> Size(r.value.1) < Size(s)
  {
    var (_, s) :- StartObject(s);
    ReadPlaylistFields(s, clips, files)
  }

  /** A field of a track other than its playlist and its children. */
  function ReadSetting(name: string, s: Stream, track: Track): (r: Reading<Track>)
    ensures r.Success? ==> Size(r.value.1) <= Size(s)
  {
    if name == "id" then
      var (id, s) :- NextInt(s);
      Success((track.(id := id), s))
    else if name == "name" then
      var (name, s) :- NextString(s);
      Success((track.(name := name), s))
    else if name == "gain" then
      var (gain, s) :- NextDouble(s);
      Success((track.(gain := gain), s))
    else if name == "sends_to_parent" then
      var (b, s) :- NextBool(s);
      Success((track.(sendsToParent := b), s))
    else if name == "record_armed" then
      var (b, s) :- NextBool(s);
      Success((track.(recordArmed := b), s))
    else if name == "monitor_input" then
      var (b, s) :- NextBool(s);
      Success((track.(monitorInput := b), s))
    else if name == "input" then
      var (input, s) :- NextString(s);
      Success((track.(input := input), s))
    else
      var (_, s) :- IgnoreValue(s);
      Success((track, s))
  }

  function ReadTrackField(name: string, s: Stream, track: Track, ctx: Context): (r: Loading<Track>)
    ensures r.Success? ==> Size(r.value.1) <= Size(s)
    decreases Size(s), 3
  {
    if name == "playlist" then
      var (read, s) :- ReadPlaylist(s, track.clips, ctx.files);
      Success(((track.(clips := read.0), ctx.(files := read.1)), s))
    else if name == "children" then
      var (_, s) :- StartArray(s);
      var (read, s) :- ReadTracks(s, track.children, ctx);
      Success(((track.(children := read.0), read.1), s))
    else
      var (track, s) :- ReadSetting(name, s, track);
      Success(((track, ctx), s))
  }

  function ReadTrackFields(s: Stream, track: Track, ctx: Context): (r: Loading<Track>)
    ensures r.Success? ==> Size(r.value.1) <= Size(s)
    decreases Size(s), 2
  {
    var (name, s) :- NextField(s);
    if name == "" then Success(((track, ctx), s))
    else
      var (read, s) :- ReadTrackField(name, s, track, ctx);
      ReadTrackFields(s, read.0, read.1)
  }

  function ReadTrack(s: Stream, track: Track, ctx: Context): (r: Loading<Track>)
    ensures r.Success? ==> Size(r.value.1) < Size(s)
    decreases Size(s), 3
  {
    var (_, s) :- StartObject(s);
    ReadTrackFields(s, track, ctx)
  }

  /** The tracks up to the end of the array, after those in `tracks`. */
  function ReadTracks(s: Stream, tracks: seq<Track>, ctx: Context): (r: Loading<seq<Track>>)
    ensures r.Success? ==> Size(r.value.1) <= Size(s)
    decreases Size(s), 4
  {
    var (done, s) :- ArrayIsDone(s);
    if done then Success(((tracks, ctx), s))
    else
      var (read, s) :- ReadTrack(s, NewTrack(ctx.nextNewId), ctx.(nextNewId := ctx.nextNewId + 1));
      ReadTracks(s, tracks + [read.0], read.1)
  }

  function ReadFileFields(s: Stream, path: string): (r: Reading<string>)
    ensures r.Success? ==> Size(r.value.1) <= Size(s)
    decreases Size(s)
  {
    var (name, s) :- NextField(s);
    if name == "" then Success((path, s))
    else if name == "path" then
      var (path, s) :- NextString(s);
      ReadFileFields(s, path)
    else
      var (_, s) :- IgnoreValue(s);
      ReadFileFields(s, path)
  }

  function PathOf(files: seq<AudioFile>, id: int): Option<string> {
    if files == [] then None else if files[0].id == id then Some(files[0].path) else PathOf(files[1..], id)
  }

  /** One entry of the table of files. */
  function ReadFile(s: Stream, id: int, files: seq<AudioFile>): (r: Reading<seq<AudioFile>>)
    ensures r.Success? ==> Size(r.value.1) < Size(s)
  {
    var files := FileForId(files, id);
    var (_, s) :- StartObject(s);
    var (path, s) :- ReadFileFields(s, match PathOf(files, id) case Some(path) => path case None => "");
    Success((WithPath(files, id, path), s))
  }

  function ReadFiles(s: Stream, files: seq<AudioFile>): (r: Reading<seq<AudioFile>>)
    ensures r.Success? ==> Size(r.value.1) <= Size(s)
    decreases Size(s)
  {
    var (name, s) :- NextField(s);
    if name == "" then Success((files, s))
    else
      var id :- StringToInt(name, InvalidProjectFile);
      var (files, s) :- ReadFile(s, id, files);
      ReadFiles(s, files)
  }

  function ReadProjectFields(s: Stream, master: Track, ctx: Context): (r: Loading<Track>)
    ensures r.Success? ==> Size(r.value.1) <= Size(s)
    decreases Size(s)
  {
    var (name, s) :- NextField(s);
    if name == "" then Success(((master, ctx), s))
    else if name == "master" then
      var (read, s) :- ReadTrack(s, master, ctx);
      ReadProjectFields(s, read.0, read.1)
    else if name == "files" then
      var (_, s) :- StartObject(s);
      var (files, s) :- ReadFiles(s, ctx.files);
      ReadProjectFields(s, master, ctx.(files := files))
    else
      var (_, s) :- IgnoreValue(s);
      ReadProjectFields(s, master, ctx)
  }

  function Max(a: int, b: int): int {
    if a > b then a else b
  }

  function MaxClipId(clips: seq<Clip>): int {
    if clips == [] then 0 else Max(clips[0].id, MaxClipId(clips[1..]))
  }

  function MaxTrackId(track: Track): int
    decreases track
  {
    Max(Max(track.id, MaxTracksId(track.children)), MaxClipId(track.clips))
  }

  function MaxTracksId(tracks: seq<Track>): int
    decreases tracks
  {
    if tracks == [] then 0 else Max(MaxTrackId(tracks[0]), MaxTracksId(tracks[1..]))
  }

  function MaxFileId(files: seq<AudioFile>): int {
    if files == [] then 0 else Max(files[0].id, MaxFileId(files[1..]))
  }

  function MaxUsedId(master: Track, files: seq<AudioFile>): int {
    Max(MaxTrackId(master), MaxFileId(files))
  }

  const NewMaster := NewTrack(1).(name := "Master")

  /** Reading into a new project. */
  function ReadProject(s: Stream): (r: Reading<Project>)
    ensures r.Success? ==> Size(r.value.1) < Size(s)
  {
    var (_, s) :- StartObject(s);
    var (read, s) :- ReadProjectFields(s, NewMaster, Context([], 2));
    Success((Project(read.0, read.1.files, MaxUsedId(read.0, read.1.files) + 1), s))
  }
}
