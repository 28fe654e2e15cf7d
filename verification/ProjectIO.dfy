/**
  Writing and reading projects step by step.  Each method does to the stream, or makes
  of the tokens that are left, what the functions in `ProjectFiles` say.
 */
module ProjectIO {
  import opened JSON
  import JSONParsers
  import opened IndentedOStreams
  import opened Sinks
  import opened ProjectFiles
  import opened Wrappers

  // ---------------------------------------------------------------- writing

  method PutValue(stream: IndentedOStream, name: string, value: string, after: string)
    modifies stream
    ensures stream.View() == ProjectFiles.PutValue(old(stream.View()), name, value, after)
  {
    stream.Put(Label(name));
    stream.Put(value);
    stream.Put(after);
  }

  method PutString(stream: IndentedOStream, name: string, value: string, after: string)
    modifies stream
    ensures stream.View() == ProjectFiles.PutString(old(stream.View()), name, value, after)
  {
    stream.Put(Label(name) + "\"");
    stream.Put(value);
    stream.Put("\"" + after);
  }

  method WriteClip(stream: IndentedOStream, clip: Clip)
    requires clip.file.Some?
    modifies stream
    ensures stream.View() == ProjectFiles.WriteClip(old(stream.View()), clip)
  {
    stream.Put("{ ");
    if clip.id != 0 {
      PutValue(stream, "id", Decimal(clip.id), ", ");
    }
    PutValue(stream, "file", Decimal(clip.file.value), ", ");
    PutValue(stream, "start", clip.start, ", ");
    PutValue(stream, "file-start-frame", Decimal(clip.fileStartFrame), ", ");
    PutValue(stream, "length", Decimal(clip.length), " }");
  }

  method WritePlaylist(stream: IndentedOStream, clips: seq<Clip>)
    requires HaveFiles(clips)
    modifies stream
    ensures stream.View() == ProjectFiles.WritePlaylist(old(stream.View()), clips)
  {
    hide Sinks.Put, Sinks.PutChar, Indented, Unindented, ProjectFiles.WriteClip;
    if clips == [] {
      stream.Put("{}");
      return;
    }
    stream.Put("{");
    stream.PutChar('\n');
    stream.Indent();
    stream.Put("\"clips\": [");
    stream.PutChar('\n');
    stream.Indent();
    ghost var start := stream.View();
    var firstOne := true;
    for i := 0 to |clips|
      invariant firstOne == (i == 0)
      invariant WriteClips(start, clips, true) == WriteClips(stream.View(), clips[i..], firstOne)
    {
      if firstOne {
        firstOne := false;
      } else {
        stream.Put(",");
        stream.PutChar('\n');
      }
      WriteClip(stream, clips[i]);
      assert clips[i..][1..] == clips[i + 1..];
    }
    stream.PutChar('\n');
    stream.Put("]}");
    stream.Unindent();
    stream.Unindent();
  }

  method WriteSettings(stream: IndentedOStream, track: Track, separator: char)
    modifies stream
    ensures stream.View() == ProjectFiles.WriteSettings(old(stream.View()), track, separator)
  {
    hide ProjectFiles.PutValue, ProjectFiles.PutString, Sinks.PutChar;
    PutValue(stream, "id", Decimal(track.id), ",");
    stream.PutChar(separator);
    PutString(stream, "name", track.name, ",");
    stream.PutChar(separator);
    PutValue(stream, "gain", track.gain, ",");
    stream.PutChar(separator);
    PutValue(stream, "sends_to_parent", Boolean(track.sendsToParent), ",");
    stream.PutChar(separator);
    PutValue(stream, "record_armed", Boolean(track.recordArmed), ",");
    stream.PutChar(separator);
    PutValue(stream, "monitor_input", Boolean(track.monitorInput), ",");
    stream.PutChar(separator);
    if track.input != "" {
      PutString(stream, "input", track.input, ",");
      stream.PutChar(separator);
    }
  }

  method WriteTrack(stream: IndentedOStream, track: Track)
    requires AllHaveFiles(track)
    modifies stream
    ensures stream.View() == ProjectFiles.WriteTrack(old(stream.View()), track)
    decreases track
  {
    hide Sinks.Put, Sinks.PutChar, Indented, Unindented, ProjectFiles.WriteSettings, ProjectFiles.WritePlaylist;
    var compact := track.clips == [] && track.children == [];
    var separator := if compact then ' ' else '\n';
    stream.Put("{");
    stream.PutChar(separator);
    stream.Indent();
    WriteSettings(stream, track, separator);
    stream.Put(Label("playlist"));
    WritePlaylist(stream, track.clips);
    if track.children != [] {
      stream.Put(",");
      stream.PutChar(separator);
      stream.Put("\"children\": [");
      stream.PutChar('\n');
      stream.Indent();
      ghost var start := stream.View();
      var firstOne := true;
      for i := 0 to |track.children|
        invariant firstOne == (i == 0)
        invariant WriteTracks(start, track.children, true) == WriteTracks(stream.View(), track.children[i..], firstOne)
      {
        if firstOne {
          firstOne := false;
        } else {
          stream.PutChar(',');
          stream.PutChar('\n');
        }
        WriteTrack(stream, track.children[i]);
        assert track.children[i..][1..] == track.children[i + 1..];
      }
      stream.PutChar('\n');
      stream.Put("]");
      stream.PutChar('\n');
      stream.Unindent();
    }
    stream.Put("}");
    stream.Unindent();
  }

  method WriteFile(stream: IndentedOStream, file: AudioFile)
    modifies stream
    ensures stream.View() == ProjectFiles.WriteFile(old(stream.View()), file)
  {
    hide Sinks.Put, ProjectFiles.PutString;
    stream.Put("\"");
    stream.Put(Decimal(file.id));
    stream.Put("\": { ");
    PutString(stream, "path", file.path, " ");
    stream.Put("}");
  }

  method WriteProject(stream: IndentedOStream, project: Project)
    requires AllHaveFiles(project.master)
    modifies stream
    ensures stream.View() == ProjectFiles.WriteProject(old(stream.View()), project)
  {
    hide Sinks.Put, Sinks.PutChar, Indented, Unindented, ProjectFiles.WriteTrack, ProjectFiles.WriteFile;
    stream.Put("{");
    stream.PutChar('\n');
    stream.Indent();
    stream.Put(Label("master"));
    WriteTrack(stream, project.master);
    stream.PutChar(',');
    stream.PutChar('\n');
    stream.PutChar('\n');
    stream.Put("\"files\": {");
    stream.PutChar('\n');
    stream.Indent();
    ghost var start := stream.View();
    var firstOne := true;
    for i := 0 to |project.files|
      invariant firstOne == (i == 0)
      invariant WriteFiles(start, project.files, true) == WriteFiles(stream.View(), project.files[i..], firstOne)
    {
      if firstOne {
        firstOne := false;
      } else {
        stream.PutChar(',');
        stream.PutChar('\n');
      }
      WriteFile(stream, project.files[i]);
      assert project.files[i..][1..] == project.files[i + 1..];
    }
    stream.PutChar('\n');
    stream.Put("}");
    stream.PutChar('\n');
    stream.Unindent();
    stream.Unindent();
    stream.Put("}");
    stream.PutChar('\n');
  }

  // ---------------------------------------------------------------- reading

  class ProjectReader {
    const parser: JSONParsers.JSONParser
    var files: seq<AudioFile>
    var nextNewId: int

    constructor (text: string)
      ensures fresh(parser) && parser.Tokens() == Lex(text)
      ensures files == [] && nextNewId == 2
    {
      parser := new JSONParsers.JSONParser(text);
      files, nextNewId := [], 2;
    }

    ghost function Tokens(): Stream
      reads parser
    {
      parser.Tokens()
    }

    /** Adds the file to the project if it was not there already. */
    method FileForId(id: int)
      modifies this`files
      ensures files == ProjectFiles.FileForId(old(files), id)
    {
      if !HasFile(files, id) {
        files := files + [AudioFile(id, "")];
      }
    }

    method ReadClip() returns (r: Result<Clip, Error>)
      modifies this`files, parser
      ensures match ProjectFiles.ReadClip(old(Tokens()), old(files))
              case Success(read) => r == Success(read.0.0) && files == read.0.1 && Tokens() == read.1
              case Failure(error) => r == Failure(error)
    {
      hide Lex, JSON.NextField, JSON.NextInt, JSON.NextDouble, IgnoreValue, ProjectFiles.FileForId;
      var _ :- parser.StartObject();
      var clip := NewClip;
      while true
        invariant ProjectFiles.ReadClip(old(Tokens()), old(files)) == ReadClipFields(Tokens(), clip, files)
        decreases Size(Tokens())
      {
        var name :- parser.NextField();
        if name == "" {
          return Success(clip);
        }
        clip :- ReadClipField(name, clip);
      }
    }

    method ReadClipField(name: string, clip: Clip) returns (r: Result<Clip, Error>)
      modifies this`files, parser
      ensures match ProjectFiles.ReadClipField(name, old(Tokens()), clip, old(files))
              case Success(read) => r == Success(read.0.0) && files == read.0.1 && Tokens() == read.1
              case Failure(error) => r == Failure(error)
    {
      hide Lex, JSON.NextInt, JSON.NextDouble, IgnoreValue, ProjectFiles.FileForId;
      if name == "file" {
        var id :- parser.NextInt();
        FileForId(id);
        return Success(clip.(file := Some(id)));
      } else if name == "start" {
        var start :- parser.NextDouble();
        return Success(clip.(start := start));
      } else if name == "length" {
        var length :- parser.NextInt();
        return Success(clip.(length := ToUnsigned(length)));
      } else if name == "file-start-frame" {
        var frame :- parser.NextInt();
        return Success(clip.(fileStartFrame := ToUnsigned(frame)));
      } else if name == "id" {
        var id :- parser.NextInt();
        return Success(clip.(id := id));
      }
      var _ :- parser.IgnoreValue();
      return Success(clip);
    }

    /** Appends the clips to those that are there. */
    method ReadClips(clips: seq<Clip>) returns (r: Result<seq<Clip>, Error>)
      modifies this`files, parser
      ensures match ProjectFiles.ReadClips(old(Tokens()), clips, old(files))
              case Success(read) => r == Success(read.0.0) && files == read.0.1 && Tokens() == read.1
              case Failure(error) => r == Failure(error)
    {
      hide Lex, JSON.ArrayIsDone, ProjectFiles.ReadClip;
      var read := clips;
      while true
        invariant ProjectFiles.ReadClips(old(Tokens()), clips, old(files)) == ProjectFiles.ReadClips(Tokens(), read, files)
        decreases Size(Tokens())
      {
        var done :- parser.ArrayIsDone();
        if done {
          return Success(read);
        }
        var clip :- ReadClip();
        read := read + [clip];
      }
    }

    method ReadPlaylist(clips: seq<Clip>) returns (r: Result<seq<Clip>, Error>)
      modifies this`files, parser
      ensures match ProjectFiles.ReadPlaylist(old(Tokens()), clips, old(files))
              case Success(read) => r == Success(read.0.0) && files == read.0.1 && Tokens() == read.1
              case Failure(error) => r == Failure(error)
    {
      hide Lex, JSON.NextField, JSON.StartArray, IgnoreValue, ProjectFiles.ReadClips;
      var _ :- parser.StartObject();
      var read := clips;
      while true
        invariant ProjectFiles.ReadPlaylist(old(Tokens()), clips, old(files)) == ReadPlaylistFields(Tokens(), read, files)
        decreases Size(Tokens())
      {
        var name :- parser.NextField();
        if name == "" {
          return Success(read);
        }
        if name == "clips" {
          var _ :- parser.StartArray();
          read :- ReadClips(read);
        } else {
          var _ :- parser.IgnoreValue();
        }
      }
    }

    method ReadSetting(name: string, track: Track) returns (r: Result<Track, Error>)
      modifies parser
      ensures JSONParsers.Agrees(r, Tokens(), ProjectFiles.ReadSetting(name, old(Tokens()), track))
    {
      hide Lex, JSON.NextInt, JSON.NextDouble, JSON.NextString, JSON.NextBool, IgnoreValue;
      if name == "id" {
        var id :- parser.NextInt();
        return Success(track.(id := id));
      } else if name == "name" {
        var name :- parser.NextString();
        return Success(track.(name := name));
      } else if name == "gain" {
        var gain :- parser.NextDouble();
        return Success(track.(gain := gain));
      } else if name == "sends_to_parent" {
        var b :- parser.NextBool();
        return Success(track.(sendsToParent := b));
      } else if name == "record_armed" {
        var b :- parser.NextBool();
        return Success(track.(recordArmed := b));
      } else if name == "monitor_input" {
        var b :- parser.NextBool();
        return Success(track.(monitorInput := b));
      } else if name == "input" {
        var input :- parser.NextString();
        return Success(track.(input := input));
      }
      var _ :- parser.IgnoreValue();
      return Success(track);
    }

    ghost function Ctx(): Context
      reads this
    {
      Context(files, nextNewId)
    }

    /** Reads into a track that is there. */
    method ReadTrack(track: Track) returns (r: Result<Track, Error>)
      modifies this, parser
      ensures match ProjectFiles.ReadTrack(old(Tokens()), track, old(Ctx()))
              case Success(read) => r == Success(read.0.0) && Ctx() == read.0.1 && Tokens() == read.1
              case Failure(error) => r == Failure(error)
      decreases Size(Tokens()), 0
    {
      hide Lex, JSON.NextField, JSON.StartArray, ProjectFiles.ReadPlaylist, ProjectFiles.ReadTracks, ProjectFiles.ReadSetting;
      var _ :- parser.StartObject();
      var read := track;
      while true
        invariant ProjectFiles.ReadTrack(old(Tokens()), track, old(Ctx())) == ReadTrackFields(Tokens(), read, Ctx())
        invariant Size(Tokens()) < old(Size(Tokens()))
        decreases Size(Tokens())
      {
        var name :- parser.NextField();
        if name == "" {
          return Success(read);
        }
        if name == "playlist" {
          var clips :- ReadPlaylist(read.clips);
          read := read.(clips := clips);
        } else if name == "children" {
          var _ :- parser.StartArray();
          var children :- ReadTracks(read.children);
          read := read.(children := children);
        } else {
          read :- ReadSetting(name, read);
        }
      }
    }

    method ReadTracks(tracks: seq<Track>) returns (r: Result<seq<Track>, Error>)
      modifies this, parser
      ensures match ProjectFiles.ReadTracks(old(Tokens()), tracks, old(Ctx()))
              case Success(read) => r == Success(read.0.0) && Ctx() == read.0.1 && Tokens() == read.1
              case Failure(error) => r == Failure(error)
      decreases Size(Tokens()), 1
    {
      hide Lex, JSON.ArrayIsDone, ProjectFiles.ReadTrack;
      var read := tracks;
      while true
        invariant ProjectFiles.ReadTracks(old(Tokens()), tracks, old(Ctx())) == ProjectFiles.ReadTracks(Tokens(), read, Ctx())
        invariant Size(Tokens()) <= old(Size(Tokens()))
        decreases Size(Tokens())
      {
        var done :- parser.ArrayIsDone();
        if done {
          return Success(read);
        }
        var child := NewTrack(nextNewId);
        nextNewId := nextNewId + 1;
        child :- ReadTrack(child);
        read := read + [child];
      }
    }

    method ReadPath(path: string) returns (r: Result<string, Error>)
      modifies parser
      ensures JSONParsers.Agrees(r, Tokens(), match JSON.StartObject(old(Tokens()))
                                  case Success(start) => ReadFileFields(start.1, path)
                                  case Failure(error) => Failure(error))
    {
      hide Lex, JSON.NextField, JSON.NextString, JSON.StartObject, IgnoreValue;
      var _ :- parser.StartObject();
      var read := path;
      while true
        invariant JSON.StartObject(old(Tokens())).Success?
        invariant ReadFileFields(JSON.StartObject(old(Tokens())).value.1, path) == ReadFileFields(Tokens(), read)
        decreases Size(Tokens())
      {
        var name :- parser.NextField();
        if name == "" {
          return Success(read);
        }
        if name == "path" {
          read :- parser.NextString();
        } else {
          var _ :- parser.IgnoreValue();
        }
      }
    }

    method ReadFiles() returns (r: Result<(), Error>)
      modifies this`files, parser
      ensures match ProjectFiles.ReadFiles(old(Tokens()), old(files))
              case Success(read) => r == Success(()) && files == read.0 && Tokens() == read.1
              case Failure(error) => r == Failure(error)
    {
      hide Lex, JSON.NextField, StringToInt, ProjectFiles.FileForId, ReadFileFields;
      while true
        invariant ProjectFiles.ReadFiles(old(Tokens()), old(files)) == ProjectFiles.ReadFiles(Tokens(), files)
        decreases Size(Tokens())
      {
        var name :- parser.NextField();
        if name == "" {
          return Success(());
        }
        var id :- StringToInt(name, InvalidProjectFile);
        FileForId(id);
        var path :- ReadPath(match PathOf(files, id) case Some(path) => path case None => "");
        files := WithPath(files, id, path);
      }
    }

    method ReadProject() returns (r: Result<Project, Error>)
      requires files == [] && nextNewId == 2
      modifies this, parser
      ensures match ProjectFiles.ReadProject(old(Tokens()))
              case Success(read) => r == Success(read.0) && nextNewId == read.0.nextNewId && Tokens() == read.1
              case Failure(error) => r == Failure(error)
    {
      hide Lex, JSON.NextField, JSON.StartObject, IgnoreValue, ProjectFiles.ReadTrack, ProjectFiles.ReadFiles, MaxUsedId;
      var _ :- parser.StartObject();
      var master := NewMaster;
      while true
        invariant JSON.StartObject(old(Tokens())).Success?
        invariant ReadProjectFields(JSON.StartObject(old(Tokens())).value.1, NewMaster, Context([], 2))
               == ReadProjectFields(Tokens(), master, Ctx())
        decreases Size(Tokens())
      {
        var name :- parser.NextField();
        if name == "" {
          nextNewId := MaxUsedId(master, files) + 1;
          return Success(Project(master, files, nextNewId));
        }
        if name == "master" {
          master :- ReadTrack(master);
        } else if name == "files" {
          var _ :- parser.StartObject();
          var _ :- ReadFiles();
        } else {
          var _ :- parser.IgnoreValue();
        }
      }
    }
  }
}
