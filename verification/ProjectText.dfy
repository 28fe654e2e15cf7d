/** The text written for a project splits into the tokens it should. */
module ProjectText {
  import opened JSON
  import opened Sinks
  import opened ProjectFiles
  import opened TokenTheorems
  import opened Wrappers

  // ---------------------------------------------------------------- the tokens of a project

  function Comma(r: Stream): Stream {
    More(",", r)
  }

  function Field(name: string, value: string, r: Stream): Stream {
    More(Quoted(name), More(":", More(value, r)))
  }

  function ClipTokens(clip: Clip, r: Stream): Stream
    requires clip.file.Some?
  {
    var s := Field("length", Decimal(clip.length), More("}", r));
    var s := Field("file-start-frame", Decimal(clip.fileStartFrame), Comma(s));
    var s := Field("start", clip.start, Comma(s));
    var s := Field("file", Decimal(clip.file.value), Comma(s));
    More("{", if clip.id != 0 then Field("id", Decimal(clip.id), Comma(s)) else s)
  }

  function ClipsTokens(clips: seq<Clip>, first: bool, r: Stream): Stream
    requires HaveFiles(clips)
    decreases |clips|
  {
    if clips == [] then r
    else
      var s := ClipTokens(clips[0], ClipsTokens(clips[1..], false, r));
      if first then s else Comma(s)
  }

  function PlaylistTokens(clips: seq<Clip>, r: Stream): Stream
    requires HaveFiles(clips)
  {
    if clips == [] then More("{", More("}", r))
    else More("{", More(Quoted("clips"), More(":", More("[", ClipsTokens(clips, true, More("]", More("}", r)))))))
  }

  function SettingsTokens(t: Track, r: Stream): Stream {
    var s := if t.input != "" then Field("input", Quoted(t.input), Comma(r)) else r;
    var s := Field("monitor_input", Boolean(t.monitorInput), Comma(s));
    var s := Field("record_armed", Boolean(t.recordArmed), Comma(s));
    var s := Field("sends_to_parent", Boolean(t.sendsToParent), Comma(s));
    var s := Field("gain", t.gain, Comma(s));
    var s := Field("name", Quoted(t.name), Comma(s));
    Field("id", Decimal(t.id), Comma(s))
  }

  function ChildrenTokens(children: seq<Track>, r: Stream): Stream
    requires forall i :: 0 <= i < |children| ==> AllHaveFiles(children[i])
    decreases children, 1
  {
    if children == [] then More("}", r)
    else Comma(More(Quoted("children"), More(":", More("[", TracksTokens(children, true, More("]", More("}", r)))))))
  }

  function TrackTokens(t: Track, r: Stream): Stream
    requires AllHaveFiles(t)
    decreases t, 0
  {
    var rest := More(Quoted("playlist"), More(":", PlaylistTokens(t.clips, ChildrenTokens(t.children, r))));
    More("{", SettingsTokens(t, rest))
  }

  function TracksTokens(tracks: seq<Track>, first: bool, r: Stream): Stream
    requires forall i :: 0 <= i < |tracks| ==> AllHaveFiles(tracks[i])
    decreases tracks, 0
  {
    if tracks == [] then r
    else
      var s := TrackTokens(tracks[0], TracksTokens(tracks[1..], false, r));
      if first then s else Comma(s)
  }

  function FileTokens(file: AudioFile, r: Stream): Stream {
    More(Quoted(Decimal(file.id)), More(":", More("{", Field("path", Quoted(file.path), More("}", r)))))
  }

  function FilesTokens(files: seq<AudioFile>, first: bool, r: Stream): Stream
    decreases |files|
  {
    if files == [] then r
    else
      var s := FileTokens(files[0], FilesTokens(files[1..], false, r));
      if first then s else Comma(s)
  }

  function ProjectTokens(p: Project, r: Stream): Stream
    requires AllHaveFiles(p.master)
  {
    var s := More("}", More("}", r));
    var s := More(Quoted("files"), More(":", More("{", FilesTokens(p.files, true, s))));
    More("{", More(Quoted("master"), More(":", TrackTokens(p.master, Comma(s)))))
  }

  // ---------------------------------------------------------------- which projects

  predicate IsValue(s: string) {
    PlainNumber(s) || s == "true" || s == "false"
  }

  predicate PlainClip(clip: Clip) {
    PlainNumber(clip.start) && clip.file.Some?
  }

  predicate PlainClips(clips: seq<Clip>) {
    forall i :: 0 <= i < |clips| ==> PlainClip(clips[i])
  }

  /** Every string of the track can be read whole and so can every number. */
  predicate PlainTrack(t: Track) {
    && SafeString(t.name) && SafeString(t.input) && PlainNumber(t.gain) && PlainClips(t.clips)
    && forall i :: 0 <= i < |t.children| ==> PlainTrack(t.children[i])
  }

  lemma {:induction false} PlainHaveFiles(t: Track)
    requires PlainTrack(t)
    ensures AllHaveFiles(t)
  {
    forall i | 0 <= i < |t.children| ensures AllHaveFiles(t.children[i]) {
      PlainHaveFiles(t.children[i]);
    }
  }

  // ---------------------------------------------------------------- pieces of text

  /** What follows `k` in the whole text. */
  ghost function Rest(k: Sink, full: string): string
    requires k.out <= full
  {
    full[|k.out|..]
  }

  lemma {:induction false} LexTabs(n: int, r: string)
    ensures Lex(Tabs(n) + r) == Lex(r)
    decreases n
  {
    hide Lex;
    if n <= 0 {
      assert "" + r == r;
    } else {
      assert Tabs(n) + r == Tabs(n - 1) + (['\t'] + r);
      LexTabs(n - 1, ['\t'] + r);
      LexSpace('\t', r);
    }
  }

  /** Indentation makes no difference. */
  lemma PutText(k: Sink, x: string, full: string)
    requires Put(k, x).out <= full
    ensures k.out <= full && Lex(Rest(k, full)) == Lex(x + Rest(Put(k, x), full))
    ensures !k.atBol ==> Rest(k, full) == x + Rest(Put(k, x), full)
  {
    hide Lex;
    var tabs := if k.atBol then Tabs(k.level) else "";
    assert Put(k, x).out == k.out + (tabs + x);
    var rest := Rest(Put(k, x), full);
    assert full == k.out + (tabs + x) + rest;
    assert Rest(k, full) == tabs + (x + rest);
    if k.atBol {
      LexTabs(k.level, x + rest);
    } else {
      assert tabs + (x + rest) == x + rest;
    }
  }

  lemma PutSpace(k: Sink, c: char, full: string)
    requires PutChar(k, c).out <= full && (c == ' ' || c == '\n')
    ensures k.out <= full && Lex(Rest(k, full)) == Lex(Rest(PutChar(k, c), full))
  {
    hide Lex;
    var rest := Rest(PutChar(k, c), full);
    LexSpace(c, rest);
    if c == '\n' {
      assert full == k.out + ("\n" + rest);
    } else {
      PutText(k, [c], full);
    }
  }

  lemma PutPunctuation(k: Sink, s: string, full: string)
    requires |s| == 1 && IsPunctuation(s[0]) && Put(k, s).out <= full
    ensures k.out <= full && Lex(Rest(k, full)) == More(s, Lex(Rest(Put(k, s), full)))
  {
    hide Lex, Put;
    PutText(k, s, full);
    assert s == [s[0]];
    LexPunctuation(s[0], Rest(Put(k, s), full));
  }

  /** A comma, as a string or as a character, and the end of the line. */
  lemma PutCommaLine(k: Sink, c: char, full: string)
    requires c == ' ' || c == '\n'
    requires PutChar(Put(k, ","), c).out <= full
    ensures k.out <= full && Lex(Rest(k, full)) == Comma(Lex(Rest(PutChar(Put(k, ","), c), full)))
  {
    hide Lex, Put, PutChar;
    PutSpace(Put(k, ","), c, full);
    PutPunctuation(k, ",", full);
  }

  lemma LexLabel(name: string, r: string)
    requires SafeString(name)
    ensures Lex(Label(name) + r) == More(Quoted(name), More(":", Lex(r)))
  {
    hide Lex, SafeString;
    assert Label(name) + r == Quoted(name) + ([':'] + ([' '] + r));
    QuotedReadsBack(name, [':'] + ([' '] + r));
    LexPunctuation(':', [' '] + r);
    LexSpace(' ', r);
  }

  lemma LexValue(value: string, r: string)
    requires IsValue(value) && r != "" && (r[0] == ',' || r[0] == ' ')
    ensures Lex(value + r) == More(value, Lex(r))
  {
    hide Lex;
    if PlainNumber(value) {
      NumberReadsBack(value, r);
    } else {
      BooleanReadsBack(value == "true", r);
    }
  }

  lemma PutLabel(k: Sink, name: string, full: string)
    requires SafeString(name) && Put(k, Label(name)).out <= full
    ensures k.out <= full
    ensures Lex(Rest(k, full)) == More(Quoted(name), More(":", Lex(Rest(Put(k, Label(name)), full))))
  {
    hide Lex, Put, SafeString;
    PutText(k, Label(name), full);
    LexLabel(name, Rest(Put(k, Label(name)), full));
  }

  lemma PutIsNotAtBol(k: Sink, x: string)
    ensures !Put(k, x).atBol
  {
  }

  lemma PutValueText(k: Sink, name: string, value: string, after: string, full: string)
    requires SafeString(name) && IsValue(value) && after != "" && (after[0] == ',' || after[0] == ' ')
    requires PutValue(k, name, value, after).out <= full
    ensures k.out <= full
    ensures Lex(Rest(k, full)) == Field(name, value, Lex(after + Rest(PutValue(k, name, value, after), full)))
  {
    hide Lex, Put, SafeString, IsValue;
    var k1 := Put(k, Label(name));
    var k2 := Put(k1, value);
    PutIsNotAtBol(k1, value);
    PutText(k2, after, full);
    PutText(k1, value, full);
    LexValue(value, Rest(k2, full));
    PutLabel(k, name, full);
  }

  lemma PutStringText(k: Sink, name: string, value: string, after: string, full: string)
    requires SafeString(name) && SafeString(value)
    requires PutString(k, name, value, after).out <= full
    ensures k.out <= full
    ensures Lex(Rest(k, full)) == Field(name, Quoted(value), Lex(after + Rest(PutString(k, name, value, after), full)))
  {
    hide Lex, Put, SafeString, Label, Quoted;
    var k1 := Put(k, Label(name) + "\"");
    var k2 := Put(k1, value);
    var rest := after + Rest(Put(k2, "\"" + after), full);
    PutIsNotAtBol(k, Label(name) + "\"");
    PutIsNotAtBol(k1, value);
    PutText(k2, "\"" + after, full);
    PutText(k1, value, full);
    PutText(k, Label(name) + "\"", full);
    Requoted(Label(name), value, after, Rest(Put(k2, "\"" + after), full));
    LexLabel(name, Quoted(value) + rest);
    QuotedReadsBack(value, rest);
  }

  lemma Requoted(name: string, value: string, after: string, rest: string)
    ensures (name + "\"") + (value + (("\"" + after) + rest)) == name + (Quoted(value) + (after + rest))
  {
  }

  lemma CommaSpace(r: string)
    ensures Lex(", " + r) == Comma(Lex(r))
  {
    hide Lex;
    assert ", " + r == [','] + ([' '] + r);
    LexPunctuation(',', [' '] + r);
    LexSpace(' ', r);
  }

  lemma SpaceBrace(r: string)
    ensures Lex(" }" + r) == More("}", Lex(r))
  {
    hide Lex;
    assert " }" + r == [' '] + (['}'] + r);
    LexSpace(' ', ['}'] + r);
    LexPunctuation('}', r);
  }

  /** A field of a track: a comma and a separator come after it. */
  lemma SettingText(k: Sink, name: string, value: string, separator: char, full: string)
    requires SafeString(name) && IsValue(value) && (separator == ' ' || separator == '\n')
    requires PutChar(PutValue(k, name, value, ","), separator).out <= full
    ensures k.out <= full
    ensures Lex(Rest(k, full)) == Field(name, value, Comma(Lex(Rest(PutChar(PutValue(k, name, value, ","), separator), full))))
  {
    hide Lex, SafeString, IsValue, PutChar, PutValue;
    var k1 := PutValue(k, name, value, ",");
    PutSpace(k1, separator, full);
    PutValueText(k, name, value, ",", full);
    LexPunctuation(',', Rest(k1, full));
  }

  lemma NameText(k: Sink, name: string, value: string, separator: char, full: string)
    requires SafeString(name) && SafeString(value) && (separator == ' ' || separator == '\n')
    requires PutChar(PutString(k, name, value, ","), separator).out <= full
    ensures k.out <= full
    ensures Lex(Rest(k, full))
         == Field(name, Quoted(value), Comma(Lex(Rest(PutChar(PutString(k, name, value, ","), separator), full))))
  {
    hide Lex, SafeString, PutChar, PutString;
    var k1 := PutString(k, name, value, ",");
    PutSpace(k1, separator, full);
    PutStringText(k, name, value, ",", full);
    LexPunctuation(',', Rest(k1, full));
  }

  lemma ClipNamesAreSafe()
    ensures SafeString("id") && SafeString("file") && SafeString("start") && SafeString("file-start-frame") && SafeString("length")
    ensures SafeString("clips")
  {
    hide SafeString;
    PlainIsSafe("id");
    PlainIsSafe("file");
    PlainIsSafe("start");
    PlainIsSafe("file-start-frame");
    PlainIsSafe("length");
    PlainIsSafe("clips");
  }

  lemma TrackNamesAreSafe()
    ensures SafeString("id") && SafeString("name") && SafeString("gain") && SafeString("sends_to_parent")
    ensures SafeString("record_armed") && SafeString("monitor_input") && SafeString("input")
  {
    hide SafeString;
    PlainIsSafe("id");
    PlainIsSafe("name");
    PlainIsSafe("gain");
    PlainIsSafe("sends_to_parent");
    PlainIsSafe("record_armed");
    PlainIsSafe("monitor_input");
    PlainIsSafe("input");
  }

  lemma PartNamesAreSafe()
    ensures SafeString("playlist") && SafeString("children") && SafeString("master") && SafeString("files") && SafeString("path")
  {
    hide SafeString;
    PlainIsSafe("playlist");
    PlainIsSafe("children");
    PlainIsSafe("master");
    PlainIsSafe("files");
    PlainIsSafe("path");
  }

  // ---------------------------------------------------------------- clips

  lemma OpenClipText(k: Sink, full: string)
    requires Put(k, "{ ").out <= full
    ensures k.out <= full && Lex(Rest(k, full)) == More("{", Lex(Rest(Put(k, "{ "), full)))
  {
    hide Lex, Put;
    var rest := Rest(Put(k, "{ "), full);
    PutText(k, "{ ", full);
    assert "{ " + rest == ['{'] + ([' '] + rest);
    LexPunctuation('{', [' '] + rest);
    LexSpace(' ', rest);
  }

  lemma CommaFieldText(k: Sink, name: string, value: string, full: string)
    requires SafeString(name) && IsValue(value) && PutValue(k, name, value, ", ").out <= full
    ensures k.out <= full
    ensures Lex(Rest(k, full)) == Field(name, value, Comma(Lex(Rest(PutValue(k, name, value, ", "), full))))
  {
    hide Lex, SafeString, IsValue, PutValue;
    PutValueText(k, name, value, ", ", full);
    CommaSpace(Rest(PutValue(k, name, value, ", "), full));
  }

  lemma LastFieldText(k: Sink, name: string, value: string, full: string)
    requires SafeString(name) && IsValue(value) && PutValue(k, name, value, " }").out <= full
    ensures k.out <= full
    ensures Lex(Rest(k, full)) == Field(name, value, More("}", Lex(Rest(PutValue(k, name, value, " }"), full))))
  {
    hide Lex, SafeString, IsValue, PutValue;
    PutValueText(k, name, value, " }", full);
    SpaceBrace(Rest(PutValue(k, name, value, " }"), full));
  }

  lemma ClipText(k: Sink, clip: Clip, full: string)
    requires PlainClip(clip) && WriteClip(k, clip).out <= full
    ensures k.out <= full && Lex(Rest(k, full)) == ClipTokens(clip, Lex(Rest(WriteClip(k, clip), full)))
  {
    hide Lex, SafeString, PutValue, Put, Decimal, Field, PlainNumber;
    ClipNamesAreSafe();
    DigitsArePlain(clip.id);
    DigitsArePlain(clip.file.value);
    DigitsArePlain(clip.fileStartFrame);
    DigitsArePlain(clip.length);
    var k1 := Put(k, "{ ");
    var k2 := if clip.id != 0 then PutValue(k1, "id", Decimal(clip.id), ", ") else k1;
    var k3 := PutValue(k2, "file", Decimal(clip.file.value), ", ");
    var k4 := PutValue(k3, "start", clip.start, ", ");
    var k5 := PutValue(k4, "file-start-frame", Decimal(clip.fileStartFrame), ", ");
    LastFieldText(k5, "length", Decimal(clip.length), full);
    CommaFieldText(k4, "file-start-frame", Decimal(clip.fileStartFrame), full);
    CommaFieldText(k3, "start", clip.start, full);
    CommaFieldText(k2, "file", Decimal(clip.file.value), full);
    if clip.id != 0 {
      CommaFieldText(k1, "id", Decimal(clip.id), full);
    }
    OpenClipText(k, full);
  }

  lemma {:induction false} ClipsText(k: Sink, clips: seq<Clip>, first: bool, full: string)
    requires PlainClips(clips) && WriteClips(k, clips, first).out <= full
    ensures k.out <= full && Lex(Rest(k, full)) == ClipsTokens(clips, first, Lex(Rest(WriteClips(k, clips, first), full)))
    decreases |clips|
  {
    hide Lex, Put, PutChar, WriteClip, ClipTokens;
    if clips != [] {
      var k1 := if first then k else PutChar(Put(k, ","), '\n');
      var k2 := WriteClip(k1, clips[0]);
      ClipsText(k2, clips[1..], false, full);
      ClipText(k1, clips[0], full);
      if !first {
        PutCommaLine(k, '\n', full);
      }
    }
  }

  // ---------------------------------------------------------------- playlists and tracks

  /** An opening bracket or brace that ends a line. */
  lemma OpenLineText(k: Sink, s: string, full: string)
    requires |s| == 1 && IsPunctuation(s[0]) && PutChar(Put(k, s), '\n').out <= full
    ensures k.out <= full && Lex(Rest(k, full)) == More(s, Lex(Rest(PutChar(Put(k, s), '\n'), full)))
  {
    hide Lex, Put, PutChar;
    PutSpace(Put(k, s), '\n', full);
    PutPunctuation(k, s, full);
  }

  /** A label and an opening bracket or brace that ends the line. */
  lemma OpenListText(k: Sink, name: string, s: string, full: string)
    requires SafeString(name) && |s| == 1 && IsPunctuation(s[0])
    requires PutChar(Put(k, Label(name) + s), '\n').out <= full
    ensures k.out <= full
    ensures Lex(Rest(k, full))
         == More(Quoted(name), More(":", More(s, Lex(Rest(PutChar(Put(k, Label(name) + s), '\n'), full)))))
  {
    hide Lex, Put, PutChar, SafeString;
    var k1 := Put(k, Label(name) + s);
    PutSpace(k1, '\n', full);
    PutText(k, Label(name) + s, full);
    assert (Label(name) + s) + Rest(k1, full) == Label(name) + ([s[0]] + Rest(k1, full));
    LexLabel(name, [s[0]] + Rest(k1, full));
    LexPunctuation(s[0], Rest(k1, full));
    assert s == [s[0]];
  }

  lemma TwoMarksText(k: Sink, a: char, b: char, full: string)
    requires IsPunctuation(a) && IsPunctuation(b) && Put(k, [a, b]).out <= full
    ensures k.out <= full && Lex(Rest(k, full)) == More([a], More([b], Lex(Rest(Put(k, [a, b]), full))))
  {
    hide Lex, Put;
    var rest := Rest(Put(k, [a, b]), full);
    PutText(k, [a, b], full);
    assert [a, b] + rest == [a] + ([b] + rest);
    LexPunctuation(a, [b] + rest);
    LexPunctuation(b, rest);
  }

  lemma PlaylistText(k: Sink, clips: seq<Clip>, full: string)
    requires PlainClips(clips) && WritePlaylist(k, clips).out <= full
    ensures k.out <= full && Lex(Rest(k, full)) == PlaylistTokens(clips, Lex(Rest(WritePlaylist(k, clips), full)))
  {
    hide Lex, Put, PutChar, WriteClips, ClipsTokens, SafeString;
    ClipNamesAreSafe();
    if clips == [] {
      assert "{}" == ['{', '}'];
      TwoMarksText(k, '{', '}', full);
    } else {
      var k1 := Indented(PutChar(Put(k, "{"), '\n'));
      assert "\"clips\": [" == Label("clips") + "[";
      var k2 := Indented(PutChar(Put(k1, Label("clips") + "["), '\n'));
      var k3 := WriteClips(k2, clips, true);
      var k4 := PutChar(k3, '\n');
      assert "]}" == [']', '}'];
      TwoMarksText(k4, ']', '}', full);
      PutSpace(k3, '\n', full);
      ClipsText(k2, clips, true, full);
      OpenListText(k1, "clips", "[", full);
      OpenLineText(k, "{", full);
    }
  }

  lemma SettingsText(k: Sink, t: Track, separator: char, full: string)
    requires PlainTrack(t) && (separator == ' ' || separator == '\n') && WriteSettings(k, t, separator).out <= full
    ensures k.out <= full && Lex(Rest(k, full)) == SettingsTokens(t, Lex(Rest(WriteSettings(k, t, separator), full)))
  {
    hide Lex, PutChar, PutValue, PutString, SafeString, Decimal, Field, PlainNumber, Quoted, Boolean;
    TrackNamesAreSafe();
    DigitsArePlain(t.id);
    BooleansAreValues(t.sendsToParent);
    BooleansAreValues(t.recordArmed);
    BooleansAreValues(t.monitorInput);
    var k1 := PutChar(PutValue(k, "id", Decimal(t.id), ","), separator);
    var k2 := PutChar(PutString(k1, "name", t.name, ","), separator);
    var k3 := PutChar(PutValue(k2, "gain", t.gain, ","), separator);
    var k4 := PutChar(PutValue(k3, "sends_to_parent", Boolean(t.sendsToParent), ","), separator);
    var k5 := PutChar(PutValue(k4, "record_armed", Boolean(t.recordArmed), ","), separator);
    var k6 := PutChar(PutValue(k5, "monitor_input", Boolean(t.monitorInput), ","), separator);
    if t.input != "" {
      NameText(k6, "input", t.input, separator, full);
    }
    SettingText(k5, "monitor_input", Boolean(t.monitorInput), separator, full);
    SettingText(k4, "record_armed", Boolean(t.recordArmed), separator, full);
    SettingText(k3, "sends_to_parent", Boolean(t.sendsToParent), separator, full);
    SettingText(k2, "gain", t.gain, separator, full);
    NameText(k1, "name", t.name, separator, full);
    SettingText(k, "id", Decimal(t.id), separator, full);
  }

  lemma BooleansAreValues(b: bool)
    ensures IsValue(Boolean(b))
  {
  }

  /** What follows the playlist. */
  function WriteChildren(k: Sink, children: seq<Track>, separator: char): Sink
    requires forall i :: 0 <= i < |children| ==> AllHaveFiles(children[i])
  {
    var k :=
      if children == [] then k
      else
        var k := PutChar(Put(k, ","), separator);
        var k := Indented(PutChar(Put(k, "\"children\": ["), '\n'));
        var k := WriteTracks(k, children, true);
        Unindented(PutChar(Put(PutChar(k, '\n'), "]"), '\n'));
    Unindented(Put(k, "}"))
  }

  lemma {:induction false} TrackText(k: Sink, t: Track, full: string)
    requires PlainTrack(t) && AllHaveFiles(t) && WriteTrack(k, t).out <= full
    ensures k.out <= full && Lex(Rest(k, full)) == TrackTokens(t, Lex(Rest(WriteTrack(k, t), full)))
    decreases t, 0
  {
    hide Lex, Put, PutChar, WriteSettings, WritePlaylist, WriteTracks, WriteChildren, SettingsTokens, PlaylistTokens, ChildrenTokens,
         SafeString, PlainNumber;
    PartNamesAreSafe();
    var separator := if t.clips == [] && t.children == [] then ' ' else '\n';
    var k1 := PutChar(Put(k, "{"), separator);
    var k2 := WriteSettings(Indented(k1), t, separator);
    var k3 := Put(k2, Label("playlist"));
    var k4 := WritePlaylist(k3, t.clips);
    WriteTrackParts(k, t);
    ChildrenText(k4, t.children, separator, full);
    PlaylistText(k3, t.clips, full);
    PutLabel(k2, "playlist", full);
    SettingsText(Indented(k1), t, separator, full);
    PutSpace(Put(k, "{"), separator, full);
    PutPunctuation(k, "{", full);
  }

  lemma WriteTrackParts(k: Sink, t: Track)
    requires AllHaveFiles(t)
    ensures var separator := if t.clips == [] && t.children == [] then ' ' else '\n';
            var k2 := WriteSettings(Indented(PutChar(Put(k, "{"), separator)), t, separator);
            WriteTrack(k, t) == WriteChildren(WritePlaylist(Put(k2, Label("playlist")), t.clips), t.children, separator)
  {
    hide Put, PutChar, WriteSettings, WritePlaylist, WriteTracks, Label;
  }

  lemma {:induction false} ChildrenText(k: Sink, children: seq<Track>, separator: char, full: string)
    requires separator == ' ' || separator == '\n'
    requires forall i :: 0 <= i < |children| ==> AllHaveFiles(children[i]) && PlainTrack(children[i])
    requires WriteChildren(k, children, separator).out <= full
    ensures k.out <= full
    ensures Lex(Rest(k, full)) == ChildrenTokens(children, Lex(Rest(WriteChildren(k, children, separator), full)))
    decreases children, 1
  {
    hide Lex, Put, PutChar, WriteTracks, TracksTokens, PlainTrack, AllHaveFiles, SafeString;
    PartNamesAreSafe();
    if children == [] {
      PutPunctuation(k, "}", full);
    } else {
      var k1 := PutChar(Put(k, ","), separator);
      assert "\"children\": [" == Label("children") + "[";
      var k2 := Indented(PutChar(Put(k1, Label("children") + "["), '\n'));
      var k3 := WriteTracks(k2, children, true);
      var k4 := PutChar(k3, '\n');
      var k5 := Unindented(PutChar(Put(k4, "]"), '\n'));
      PutPunctuation(k5, "}", full);
      OpenLineText(k4, "]", full);
      PutSpace(k3, '\n', full);
      TracksText(k2, children, true, full);
      OpenListText(k1, "children", "[", full);
      PutCommaLine(k, separator, full);
    }
  }

  lemma PutCommaCharLine(k: Sink, full: string)
    requires PutChar(PutChar(k, ','), '\n').out <= full
    ensures k.out <= full && Lex(Rest(k, full)) == Comma(Lex(Rest(PutChar(PutChar(k, ','), '\n'), full)))
  {
    hide Lex, Put;
    PutSpace(PutChar(k, ','), '\n', full);
    PutPunctuation(k, ",", full);
    assert "," == [','];
  }

  lemma {:induction false} TracksText(k: Sink, tracks: seq<Track>, first: bool, full: string)
    requires forall i :: 0 <= i < |tracks| ==> AllHaveFiles(tracks[i]) && PlainTrack(tracks[i])
    requires WriteTracks(k, tracks, first).out <= full
    ensures k.out <= full && Lex(Rest(k, full)) == TracksTokens(tracks, first, Lex(Rest(WriteTracks(k, tracks, first), full)))
    decreases tracks, 0
  {
    hide Lex, PutChar, WriteTrack, TrackTokens, PlainTrack, AllHaveFiles;
    if tracks != [] {
      var k1 := if first then k else PutChar(PutChar(k, ','), '\n');
      var k2 := WriteTrack(k1, tracks[0]);
      TracksText(k2, tracks[1..], false, full);
      TrackText(k1, tracks[0], full);
      if !first {
        PutCommaCharLine(k, full);
      }
    }
  }

  // ---------------------------------------------------------------- files and projects

  lemma FileText(k: Sink, file: AudioFile, full: string)
    requires SafeString(file.path) && WriteFile(k, file).out <= full
    ensures k.out <= full && Lex(Rest(k, full)) == FileTokens(file, Lex(Rest(WriteFile(k, file), full)))
  {
    hide Lex, Put, PutString, SafeString, Decimal, Field;
    PartNamesAreSafe();
    var id := Decimal(file.id);
    var k1 := Put(k, "\"");
    var k2 := Put(k1, id);
    var k3 := Put(k2, "\": { ");
    var k4 := PutString(k3, "path", file.path, " ");
    PutPunctuation(k4, "}", full);
    PutStringText(k3, "path", file.path, " ", full);
    LexSpace(' ', Rest(k4, full));
    PutIsNotAtBol(k, "\"");
    PutIsNotAtBol(k1, id);
    PutText(k2, "\": { ", full);
    PutText(k1, id, full);
    PutText(k, "\"", full);
    FileIdText(id, Rest(k3, full));
    DigitsAreSafe(file.id);
  }

  lemma FileIdText(id: string, r: string)
    ensures SafeString(id) ==> Lex("\"" + (id + ("\": { " + r))) == More(Quoted(id), More(":", More("{", Lex(r))))
  {
    hide Lex, SafeString;
    if SafeString(id) {
      var r1 := ['{'] + ([' '] + r);
      assert "\"" + (id + ("\": { " + r)) == Label(id) + r1;
      LexLabel(id, r1);
      LexPunctuation('{', [' '] + r);
      LexSpace(' ', r);
    }
  }

  lemma DigitsAreSafe(n: int)
    ensures SafeString(Decimal(n))
  {
    hide SafeString;
    PlainIsSafe(Decimal(n));
  }

  lemma {:induction false} FilesText(k: Sink, files: seq<AudioFile>, first: bool, full: string)
    requires forall i :: 0 <= i < |files| ==> SafeString(files[i].path)
    requires WriteFiles(k, files, first).out <= full
    ensures k.out <= full && Lex(Rest(k, full)) == FilesTokens(files, first, Lex(Rest(WriteFiles(k, files, first), full)))
    decreases |files|
  {
    hide Lex, PutChar, WriteFile, FileTokens, SafeString;
    if files != [] {
      var k1 := if first then k else PutChar(PutChar(k, ','), '\n');
      var k2 := WriteFile(k1, files[0]);
      FilesText(k2, files[1..], false, full);
      FileText(k1, files[0], full);
      if !first {
        PutCommaCharLine(k, full);
      }
    }
  }

  predicate PlainProject(p: Project) {
    PlainTrack(p.master) && forall i :: 0 <= i < |p.files| ==> SafeString(p.files[i].path)
  }

  /** What is written for a project is read as its tokens and nothing more. */
  lemma ProjectTextTokens(p: Project)
    requires PlainProject(p) && AllHaveFiles(p.master)
    ensures Lex(WriteProject(Sink("", 0, true), p).out) == ProjectTokens(p, End)
  {
    hide Lex, Put, PutChar, WriteTrack, WriteFiles, TrackTokens, FilesTokens, SafeString, PlainTrack, AllHaveFiles;
    PartNamesAreSafe();
    var k := Sink("", 0, true);
    var k1 := Indented(PutChar(Put(k, "{"), '\n'));
    var k2 := Put(k1, Label("master"));
    var k3 := WriteTrack(k2, p.master);
    var k4 := PutChar(PutChar(k3, ','), '\n');
    var k5 := PutChar(k4, '\n');
    assert "\"files\": {" == Label("files") + "{";
    var k6 := Indented(PutChar(Put(k5, Label("files") + "{"), '\n'));
    var k7 := WriteFiles(k6, p.files, true);
    var k8 := PutChar(k7, '\n');
    var k9 := Unindented(Unindented(PutChar(Put(k8, "}"), '\n')));
    var full := WriteProject(k, p).out;
    LexNothing();
    assert full[|full|..] == "";
    OpenLineText(k9, "}", full);
    OpenLineText(k8, "}", full);
    PutSpace(k7, '\n', full);
    FilesText(k6, p.files, true, full);
    OpenListText(k5, "files", "{", full);
    PutSpace(k4, '\n', full);
    PutCommaCharLine(k3, full);
    TrackText(k2, p.master, full);
    PutLabel(k1, "master", full);
    OpenLineText(k, "{", full);
    assert full[0..] == full;
  }
}
