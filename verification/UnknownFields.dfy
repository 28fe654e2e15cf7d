/**
  Project files of later versions.  Fields of names that the program does not know,
  wherever they stand among the others and however deep in the project, change nothing
  of what is read, as long as no array in their values is empty.
 */
module UnknownFields {
  import opened JSON
  import opened Sinks
  import opened ProjectFiles
  import opened ProjectText
  import opened ProjectRoundTrip
  import opened JSONValues
  import opened Wrappers

  /** What a value in a project file is read as. */
  datatype Kind = Single | OfClip | OfClips | OfPlaylist | OfTrack | OfTracks | OfFile | OfFiles | OfProject

  predicate HasFields(kind: Kind) {
    kind != Single && kind != OfClips && kind != OfTracks
  }

  /** What the value of a field is read as, if the field is known.  In the table of files every name is that of a file. */
  function FieldKind(kind: Kind, name: string): Option<Kind> {
    match kind
    case OfClip => if IsOfClip(name) then Some(Single) else None
    case OfPlaylist => if name == "clips" then Some(OfClips) else None
    case OfTrack =>
      if name == "playlist" then Some(OfPlaylist)
      else if name == "children" then Some(OfTracks)
      else if IsSetting(name) then Some(Single)
      else None
    case OfFile => if name == "path" then Some(Single) else None
    case OfFiles => Some(OfFile)
    case OfProject => if name == "master" then Some(OfTrack) else if name == "files" then Some(OfFiles) else None
    case _ => None
  }

  predicate IsOfClip(name: string) {
    name == "file" || name == "start" || name == "length" || name == "file-start-frame" || name == "id"
  }

  predicate IsSetting(name: string) {
    || name == "id" || name == "name" || name == "gain" || name == "sends_to_parent" || name == "record_armed"
    || name == "monitor_input" || name == "input"
  }

  /** What the elements of an array are read as. */
  function ElementKind(kind: Kind): Option<Kind> {
    if kind == OfClips then Some(OfClip) else if kind == OfTracks then Some(OfTrack) else None
  }

  /** A value without its unknown fields, at any depth. */
  function Stripped(kind: Kind, v: Value): Value
    decreases v
  {
    match v
    case Scalar(_) => v
    case Array(elements) => if ElementKind(kind).Some? then Array(StrippedElements(ElementKind(kind).value, elements)) else v
    case Object(members) => if HasFields(kind) then Object(StrippedMembers(kind, members)) else v
  }

  function StrippedElements(kind: Kind, elements: seq<Value>): (r: seq<Value>)
    ensures r == [] <==> elements == []
    decreases elements
  {
    if elements == [] then [] else [Stripped(kind, elements[0])] + StrippedElements(kind, elements[1..])
  }

  function StrippedMembers(kind: Kind, members: seq<Member>): seq<Member>
    decreases members
  {
    if members == [] then []
    else
      var field := FieldKind(kind, members[0].name);
      (if field.Some? then [Member(members[0].name, Stripped(field.value, members[0].value))] else [])
      + StrippedMembers(kind, members[1..])
  }

  /** No array in the value of an unknown field is empty. */
  predicate Ignorable(kind: Kind, v: Value)
    decreases v
  {
    match v
    case Scalar(_) => true
    case Array(elements) =>
      ElementKind(kind).Some? ==> forall i :: 0 <= i < |elements| ==> Ignorable(ElementKind(kind).value, elements[i])
    case Object(members) => HasFields(kind) ==> forall i :: 0 <= i < |members| ==> IgnorableMember(kind, members[i])
  }

  predicate IgnorableMember(kind: Kind, m: Member)
    decreases m
  {
    var field := FieldKind(kind, m.name);
    if field.Some? then Ignorable(field.value, m.value) else EmptyArrays(m.value) == 0
  }

  /** Two readings give the same, or fail alike, and leave just what follows. */
  ghost predicate Same<T(!new)>(r: Reading<T>, s: Stream, r': Reading<T>, s': Stream) {
    if r.Success? then r'.Success? && r.value.0 == r'.value.0 && r.value.1 == s && r'.value.1 == s'
    else r' == r
  }

  ghost predicate Whole(kind: Kind, v: Value) {
    Proper(v) && Ignorable(kind, v)
  }

  ghost predicate WholeElements(kind: Kind, elements: seq<Value>) {
    forall i :: 0 <= i < |elements| ==> Whole(kind, elements[i])
  }

  ghost predicate WholeMembers(kind: Kind, members: seq<Member>) {
    forall i :: 0 <= i < |members| ==> members[i].name != "" && Proper(members[i].value) && IgnorableMember(kind, members[i])
  }

  // ---------------------------------------------------------------- single tokens

  lemma BracketsAreNoInt()
    ensures StringToInt("[", BadInt).Failure? && StringToInt("{", BadInt).Failure?
  {
    assert CString("[") == "[" && CString("{") == "{";
  }

  lemma SingleSame(v: Value, s: Stream, s': Stream)
    requires Proper(v)
    ensures Same(NextInt(ValueTokens(v, s)), s, NextInt(ValueTokens(v, s')), s')
    ensures Same(NextDouble(ValueTokens(v, s)), s, NextDouble(ValueTokens(v, s')), s')
    ensures Same(NextString(ValueTokens(v, s)), s, NextString(ValueTokens(v, s')), s')
    ensures Same(NextBool(ValueTokens(v, s)), s, NextBool(ValueTokens(v, s')), s')
  {
    hide StringToInt, Unquoted;
    BracketsAreNoInt();
    var token := FirstToken(v, s);
    var token' := FirstToken(v, s');
  }

  lemma FirstToken(v: Value, s: Stream) returns (token: string)
    requires Proper(v)
    ensures token == match v { case Scalar(token) => token case Array(_) => "[" case Object(_) => "{" }
    ensures var t := ValueTokens(v, s); t.More? && t.token == token && (v.Scalar? ==> t.rest == s)
  {
    hide ElementTokens, MemberTokens;
    token := ValueTokens(v, s).token;
  }

  /** A value of one token has no fields. */
  lemma SingleIsWhole(v: Value)
    ensures Stripped(Single, v) == v
  {
  }

  /** A value that is no object, or no array, is seen to be none. */
  lemma NotOpened(v: Value, s: Stream)
    requires Proper(v)
    ensures StartObject(ValueTokens(v, s))
         == if v.Object? then Success(((), MemberTokens(v.members, true, s))) else Failure(ObjectExpected)
    ensures StartArray(ValueTokens(v, s))
         == if v.Array? then Success(((), ElementTokens(v.elements, true, s))) else Failure(ArrayExpected)
  {
    hide ElementTokens, MemberTokens;
  }

  // ---------------------------------------------------------------- clips

  lemma ClipFieldSame(m: Member, s: Stream, s': Stream, clip: Clip, files: seq<AudioFile>)
    requires Proper(m.value) && IsOfClip(m.name)
    ensures Same(ReadClipField(m.name, ValueTokens(m.value, s), clip, files), s,
                 ReadClipField(m.name, ValueTokens(m.value, s'), clip, files), s')
  {
    hide ValueTokens, NextInt, NextDouble, FileForId, ToUnsigned, Proper, IgnoreValue;
    SingleSame(m.value, s, s');
  }

  lemma ClipFieldKind(name: string)
    ensures FieldKind(OfClip, name).Some? ==> FieldKind(OfClip, name) == Some(Single) && IsOfClip(name)
  {
  }

  lemma ClipFieldIgnored(m: Member, s: Stream, clip: Clip, files: seq<AudioFile>)
    requires Proper(m.value) && FieldKind(OfClip, m.name).None? && EmptyArrays(m.value) == 0
    ensures ReadClipField(m.name, ValueTokens(m.value, s), clip, files) == Success(((clip, files), s))
  {
    hide ValueTokens, EmptyArrays;
    ValueIgnored(m.value, s);
  }

  /** The first of some fields that are left once the unknown ones are taken out. */
  lemma StrippedFrom(kind: Kind, members: seq<Member>)
    requires members != []
    ensures var m, stripped := members[0], StrippedMembers(kind, members);
            if FieldKind(kind, m.name).None? then stripped == StrippedMembers(kind, members[1..])
            else stripped != [] && stripped[1..] == StrippedMembers(kind, members[1..])
                 && stripped[0] == Member(m.name, Stripped(FieldKind(kind, m.name).value, m.value))
  {
    hide Stripped, FieldKind;
  }

  lemma {:induction false} StrippedIsProper(kind: Kind, v: Value)
    requires Proper(v)
    ensures Proper(Stripped(kind, v))
    decreases v, 0
  {
    hide StrippedElements, StrippedMembers;
    match v
    case Scalar(_) =>
    case Array(elements) =>
      if ElementKind(kind).Some? {
        ElementsAreProper(ElementKind(kind).value, elements);
      }
    case Object(members) => MembersAreProper(kind, members);
  }

  lemma {:induction false} ElementsAreProper(kind: Kind, elements: seq<Value>)
    requires Proper(Array(elements))
    ensures Proper(Array(StrippedElements(kind, elements)))
    decreases elements, 1
  {
    if elements != [] {
      StrippedIsProper(kind, elements[0]);
      ElementsAreProper(kind, elements[1..]);
      var rest := StrippedElements(kind, elements[1..]);
      assert forall i :: 0 <= i < |rest| ==> Proper(rest[i]);
    }
  }

  lemma {:induction false} MembersAreProper(kind: Kind, members: seq<Member>)
    requires Proper(Object(members))
    ensures Proper(Object(StrippedMembers(kind, members)))
    decreases members, 1
  {
    if members != [] {
      var field := FieldKind(kind, members[0].name);
      if field.Some? {
        StrippedIsProper(field.value, members[0].value);
      }
      MembersAreProper(kind, members[1..]);
      var rest := StrippedMembers(kind, members[1..]);
      assert forall i :: 0 <= i < |rest| ==> rest[i].name != "" && Proper(rest[i].value);
    }
  }

  lemma WholeIsProper(kind: Kind, members: seq<Member>)
    requires WholeMembers(kind, members)
    ensures Proper(Object(members))
  {
  }

  /** The first field, and what it takes to read or to ignore it. */
  lemma FirstFound(kind: Kind, members: seq<Member>, first: bool, s: Stream)
    requires WholeMembers(kind, members)
    ensures NextField(MemberTokens(members, first, s))
         == if members == [] then Success(("", s))
            else Success((members[0].name, ValueTokens(members[0].value, MemberTokens(members[1..], false, s))))
    ensures members != [] ==>
              && members[0].name != "" && Proper(members[0].value) && WholeMembers(kind, members[1..])
              && var field := FieldKind(kind, members[0].name);
                 if field.Some? then Whole(field.value, members[0].value) else EmptyArrays(members[0].value) == 0
  {
    hide Ignorable, FieldKind, Proper;
    WholeIsProper(kind, members);
    hide MemberTokens, NextField, ValueTokens;
    MemberFound(members, first, s);
  }

  /** The first field that is left when the unknown ones are taken out. */
  lemma StrippedFound(kind: Kind, members: seq<Member>, first: bool, s: Stream)
    requires WholeMembers(kind, members) && members != []
    ensures var m := members[0];
            var field := FieldKind(kind, m.name);
            var t := MemberTokens(StrippedMembers(kind, members), first, s);
            if field.None? then t == MemberTokens(StrippedMembers(kind, members[1..]), first, s)
            else
              var rest := MemberTokens(StrippedMembers(kind, members[1..]), false, s);
              NextField(t) == Success((m.name, ValueTokens(Stripped(field.value, m.value), rest)))
  {
    WholeIsProper(kind, members);
    hide Ignorable, Stripped, ValueTokens, MemberTokens, NextField, FieldKind, Proper, StrippedMembers;
    MembersAreProper(kind, members);
    MemberFound(StrippedMembers(kind, members), first, s);
    StrippedFrom(kind, members);
  }

  lemma NoneStripped(kind: Kind, first: bool, s: Stream)
    ensures NextField(MemberTokens(StrippedMembers(kind, []), first, s)) == Success(("", s))
  {
    hide NextField;
    NoFieldReads(s);
  }

  lemma {:induction false} ClipFieldsSame(members: seq<Member>, first: bool, first': bool, s: Stream, s': Stream,
                                          clip: Clip, files: seq<AudioFile>)
    requires WholeMembers(OfClip, members)
    ensures Same(ReadClipFields(MemberTokens(members, first, s), clip, files), s,
                 ReadClipFields(MemberTokens(StrippedMembers(OfClip, members), first', s'), clip, files), s')
    decreases |members|
  {
    hide NextField, ReadClipField, MemberTokens, ValueTokens, Stripped, StrippedMembers, FieldKind, WholeMembers, Proper, EmptyArrays;
    FirstFound(OfClip, members, first, s);
    if members == [] {
      NoneStripped(OfClip, first', s');
    } else {
      StrippedFound(OfClip, members, first', s');
      var m := members[0];
      var rest, rest' := MemberTokens(members[1..], false, s), MemberTokens(StrippedMembers(OfClip, members[1..]), false, s');
      if FieldKind(OfClip, m.name).None? {
        ClipFieldIgnored(m, rest, clip, files);
        ClipFieldsSame(members[1..], false, first', s, s', clip, files);
      } else {
        ClipFieldKind(m.name);
        ClipFieldSame(m, rest, rest', clip, files);
        SingleIsWhole(m.value);
        var read := ReadClipField(m.name, ValueTokens(m.value, rest), clip, files);
        if read.Success? {
          ClipFieldsSame(members[1..], false, false, s, s', read.value.0.0, read.value.0.1);
        }
      }
    }
  }

  /** A value that is read as an object is one, or is not, with its unknown fields and without. */
  lemma ObjectOpened(kind: Kind, v: Value, s: Stream, s': Stream)
    requires Whole(kind, v) && HasFields(kind)
    ensures var r, r' := StartObject(ValueTokens(v, s)), StartObject(ValueTokens(Stripped(kind, v), s'));
            if v.Object? then
              && WholeMembers(kind, v.members)
              && r == Success(((), MemberTokens(v.members, true, s)))
              && r' == Success(((), MemberTokens(StrippedMembers(kind, v.members), true, s')))
            else r == r' == Failure(ObjectExpected)
  {
    hide StartObject, StartArray, MemberTokens, ValueTokens, StrippedMembers, StrippedElements, EmptyArrays;
    NotOpened(v, s);
    StrippedIsProper(kind, v);
    NotOpened(Stripped(kind, v), s');
  }

  lemma ArrayOpened(kind: Kind, v: Value, s: Stream, s': Stream)
    requires Whole(kind, v) && ElementKind(kind).Some?
    ensures var r, r' := StartArray(ValueTokens(v, s)), StartArray(ValueTokens(Stripped(kind, v), s'));
            if v.Array? then
              && WholeElements(ElementKind(kind).value, v.elements)
              && r == Success(((), ElementTokens(v.elements, true, s)))
              && r' == Success(((), ElementTokens(StrippedElements(ElementKind(kind).value, v.elements), true, s')))
            else r == r' == Failure(ArrayExpected)
  {
    hide StartObject, StartArray, MemberTokens, ValueTokens, StrippedMembers, StrippedElements, EmptyArrays;
    NotOpened(v, s);
    StrippedIsProper(kind, v);
    NotOpened(Stripped(kind, v), s');
  }

  /** The first element of an array, with its unknown fields and without. */
  lemma FirstElement(kind: Kind, elements: seq<Value>, first: bool, s: Stream, s': Stream)
    requires WholeElements(kind, elements)
    ensures var r := ArrayIsDone(ElementTokens(elements, first, s));
            var r' := ArrayIsDone(ElementTokens(StrippedElements(kind, elements), first, s'));
            if elements == [] then r == Success((true, s)) && r' == Success((true, s'))
            else
              && Whole(kind, elements[0]) && WholeElements(kind, elements[1..])
              && r == Success((false, ValueTokens(elements[0], ElementTokens(elements[1..], false, s))))
              && r' == Success((false, ValueTokens(Stripped(kind, elements[0]), ElementTokens(StrippedElements(kind, elements[1..]), false, s'))))
  {
    assert Proper(Array(elements));
    hide ArrayIsDone, ValueTokens, Stripped, Ignorable, Proper;
    ElementsAreProper(kind, elements);
    ElementFound(elements, first, s);
    ElementFound(StrippedElements(kind, elements), first, s');
    if elements != [] {
      assert StrippedElements(kind, elements)[1..] == StrippedElements(kind, elements[1..]);
    }
  }

  lemma ClipSame(v: Value, s: Stream, s': Stream, files: seq<AudioFile>)
    requires Whole(OfClip, v)
    ensures Same(ReadClip(ValueTokens(v, s), files), s, ReadClip(ValueTokens(Stripped(OfClip, v), s'), files), s')
  {
    hide StartObject, ReadClipFields, MemberTokens, ValueTokens, StrippedMembers, Stripped, WholeMembers, Whole;
    ObjectOpened(OfClip, v, s, s');
    if v.Object? {
      ClipFieldsSame(v.members, true, true, s, s', NewClip, files);
    }
  }

  lemma {:induction false} ClipsSame(elements: seq<Value>, first: bool, s: Stream, s': Stream, clips: seq<Clip>, files: seq<AudioFile>)
    requires WholeElements(OfClip, elements)
    ensures Same(ReadClips(ElementTokens(elements, first, s), clips, files), s,
                 ReadClips(ElementTokens(StrippedElements(OfClip, elements), first, s'), clips, files), s')
    decreases |elements|
  {
    hide ArrayIsDone, ReadClip, ElementTokens, ValueTokens, StrippedElements, Stripped, WholeElements, Whole;
    FirstElement(OfClip, elements, first, s, s');
    if elements != [] {
      var rest, rest' := ElementTokens(elements[1..], false, s), ElementTokens(StrippedElements(OfClip, elements[1..]), false, s');
      ClipSame(elements[0], rest, rest', files);
      var read := ReadClip(ValueTokens(elements[0], rest), files);
      if read.Success? {
        ClipsSame(elements[1..], false, s, s', clips + [read.value.0.0], read.value.0.1);
      }
    }
  }

  // ---------------------------------------------------------------- playlists

  lemma {:induction false} PlaylistFieldsSame(members: seq<Member>, first: bool, first': bool, s: Stream, s': Stream,
                                              clips: seq<Clip>, files: seq<AudioFile>)
    requires WholeMembers(OfPlaylist, members)
    ensures Same(ReadPlaylistFields(MemberTokens(members, first, s), clips, files), s,
                 ReadPlaylistFields(MemberTokens(StrippedMembers(OfPlaylist, members), first', s'), clips, files), s')
    decreases |members|
  {
    hide NextField, StartArray, ReadClips, IgnoreValue, MemberTokens, ElementTokens, ValueTokens, Stripped, StrippedMembers,
         StrippedElements, Whole, WholeMembers, WholeElements, Proper, EmptyArrays;
    FirstFound(OfPlaylist, members, first, s);
    if members == [] {
      NoneStripped(OfPlaylist, first', s');
    } else {
      StrippedFound(OfPlaylist, members, first', s');
      var m := members[0];
      var rest, rest' := MemberTokens(members[1..], false, s), MemberTokens(StrippedMembers(OfPlaylist, members[1..]), false, s');
      if m.name != "clips" {
        ValueIgnored(m.value, rest);
        PlaylistFieldsSame(members[1..], false, first', s, s', clips, files);
      } else {
        ArrayOpened(OfClips, m.value, rest, rest');
        if m.value.Array? {
          ClipsSame(m.value.elements, true, rest, rest', clips, files);
          var read := ReadClips(ElementTokens(m.value.elements, true, rest), clips, files);
          if read.Success? {
            PlaylistFieldsSame(members[1..], false, false, s, s', read.value.0.0, read.value.0.1);
          }
        }
      }
    }
  }

  lemma PlaylistSame(v: Value, s: Stream, s': Stream, clips: seq<Clip>, files: seq<AudioFile>)
    requires Whole(OfPlaylist, v)
    ensures Same(ReadPlaylist(ValueTokens(v, s), clips, files), s,
                 ReadPlaylist(ValueTokens(Stripped(OfPlaylist, v), s'), clips, files), s')
  {
    hide StartObject, ReadPlaylistFields, MemberTokens, ValueTokens, StrippedMembers, Stripped, WholeMembers, Whole;
    ObjectOpened(OfPlaylist, v, s, s');
    if v.Object? {
      PlaylistFieldsSame(v.members, true, true, s, s', clips, files);
    }
  }

  // ---------------------------------------------------------------- tracks

  lemma SettingSame(m: Member, s: Stream, s': Stream, track: Track)
    requires Proper(m.value) && IsSetting(m.name)
    ensures Same(ReadSetting(m.name, ValueTokens(m.value, s), track), s,
                 ReadSetting(m.name, ValueTokens(Stripped(Single, m.value), s'), track), s')
  {
    hide ValueTokens, NextInt, NextDouble, NextString, NextBool, Proper, IgnoreValue, Stripped;
    SingleIsWhole(m.value);
    SingleSame(m.value, s, s');
  }

  lemma TrackFieldIgnored(m: Member, s: Stream, track: Track, ctx: Context)
    requires Proper(m.value) && FieldKind(OfTrack, m.name).None? && EmptyArrays(m.value) == 0
    ensures ReadTrackField(m.name, ValueTokens(m.value, s), track, ctx) == Success(((track, ctx), s))
  {
    hide ValueTokens, EmptyArrays;
    ValueIgnored(m.value, s);
  }

  lemma {:induction false} TrackFieldSame(m: Member, s: Stream, s': Stream, track: Track, ctx: Context)
    requires FieldKind(OfTrack, m.name).Some? && Whole(FieldKind(OfTrack, m.name).value, m.value)
    ensures Same(ReadTrackField(m.name, ValueTokens(m.value, s), track, ctx), s,
                 ReadTrackField(m.name, ValueTokens(Stripped(FieldKind(OfTrack, m.name).value, m.value), s'), track, ctx), s')
    decreases m, 0
  {
    hide ReadPlaylist, ReadTracks, ReadSetting, StartArray, ValueTokens, ElementTokens, Stripped, StrippedElements, WholeElements,
         Ignorable, Proper;
    if m.name == "playlist" {
      PlaylistSame(m.value, s, s', track.clips, ctx.files);
    } else if m.name == "children" {
      ArrayOpened(OfTracks, m.value, s, s');
      if m.value.Array? {
        TracksSame(m.value.elements, true, s, s', track.children, ctx);
      }
    } else {
      SettingSame(m, s, s', track);
    }
  }

  lemma {:induction false} TrackFieldsSame(members: seq<Member>, first: bool, first': bool, s: Stream, s': Stream, track: Track, ctx: Context)
    requires WholeMembers(OfTrack, members)
    ensures Same(ReadTrackFields(MemberTokens(members, first, s), track, ctx), s,
                 ReadTrackFields(MemberTokens(StrippedMembers(OfTrack, members), first', s'), track, ctx), s')
    decreases members, 1
  {
    hide NextField, ReadTrackField, MemberTokens, ValueTokens, Stripped, StrippedMembers, FieldKind, Whole, WholeMembers, Proper,
         EmptyArrays;
    FirstFound(OfTrack, members, first, s);
    if members == [] {
      NoneStripped(OfTrack, first', s');
    } else {
      StrippedFound(OfTrack, members, first', s');
      var m := members[0];
      var rest, rest' := MemberTokens(members[1..], false, s), MemberTokens(StrippedMembers(OfTrack, members[1..]), false, s');
      if FieldKind(OfTrack, m.name).None? {
        TrackFieldIgnored(m, rest, track, ctx);
        TrackFieldsSame(members[1..], false, first', s, s', track, ctx);
      } else {
        TrackFieldSame(m, rest, rest', track, ctx);
        var read := ReadTrackField(m.name, ValueTokens(m.value, rest), track, ctx);
        if read.Success? {
          TrackFieldsSame(members[1..], false, false, s, s', read.value.0.0, read.value.0.1);
        }
      }
    }
  }

  lemma {:induction false} TrackSame(v: Value, s: Stream, s': Stream, track: Track, ctx: Context)
    requires Whole(OfTrack, v)
    ensures Same(ReadTrack(ValueTokens(v, s), track, ctx), s, ReadTrack(ValueTokens(Stripped(OfTrack, v), s'), track, ctx), s')
    decreases v, 2
  {
    hide StartObject, ReadTrackFields, MemberTokens, ValueTokens, StrippedMembers, Stripped, WholeMembers, Whole;
    ObjectOpened(OfTrack, v, s, s');
    if v.Object? {
      TrackFieldsSame(v.members, true, true, s, s', track, ctx);
    }
  }

  lemma {:induction false} TracksSame(elements: seq<Value>, first: bool, s: Stream, s': Stream, tracks: seq<Track>, ctx: Context)
    requires WholeElements(OfTrack, elements)
    ensures Same(ReadTracks(ElementTokens(elements, first, s), tracks, ctx), s,
                 ReadTracks(ElementTokens(StrippedElements(OfTrack, elements), first, s'), tracks, ctx), s')
    decreases elements, 3
  {
    hide ArrayIsDone, ReadTrack, ElementTokens, ValueTokens, StrippedElements, Stripped, WholeElements, Whole;
    FirstElement(OfTrack, elements, first, s, s');
    if elements != [] {
      var rest, rest' := ElementTokens(elements[1..], false, s), ElementTokens(StrippedElements(OfTrack, elements[1..]), false, s');
      var track, ctx1 := NewTrack(ctx.nextNewId), ctx.(nextNewId := ctx.nextNewId + 1);
      TrackSame(elements[0], rest, rest', track, ctx1);
      var read := ReadTrack(ValueTokens(elements[0], rest), track, ctx1);
      if read.Success? {
        TracksSame(elements[1..], false, s, s', tracks + [read.value.0.0], read.value.0.1);
      }
    }
  }

  // ---------------------------------------------------------------- the table of files

  lemma FileFieldKind(name: string)
    ensures FieldKind(OfFile, name) == if name == "path" then Some(Single) else None
  {
  }

  lemma {:induction false} FileFieldsSame(members: seq<Member>, first: bool, first': bool, s: Stream, s': Stream, path: string)
    requires WholeMembers(OfFile, members)
    ensures Same(ReadFileFields(MemberTokens(members, first, s), path), s,
                 ReadFileFields(MemberTokens(StrippedMembers(OfFile, members), first', s'), path), s')
    decreases |members|
  {
    hide NextField, NextString, IgnoreValue, MemberTokens, ValueTokens, Stripped, StrippedMembers, Whole, WholeMembers, Proper,
         EmptyArrays, FieldKind, Ignorable, IsQuoted;
    FirstFound(OfFile, members, first, s);
    if members == [] {
      NoneStripped(OfFile, first', s');
    } else {
      StrippedFound(OfFile, members, first', s');
      var m := members[0];
      var rest, rest' := MemberTokens(members[1..], false, s), MemberTokens(StrippedMembers(OfFile, members[1..]), false, s');
      FileFieldKind(m.name);
      if m.name != "path" {
        ValueIgnored(m.value, rest);
        FileFieldsSame(members[1..], false, first', s, s', path);
      } else {
        SingleSame(m.value, rest, rest');
        SingleIsWhole(m.value);
        var read := NextString(ValueTokens(m.value, rest));
        if read.Success? {
          FileFieldsSame(members[1..], false, false, s, s', read.value.0);
        }
      }
    }
  }

  lemma FileSame(v: Value, s: Stream, s': Stream, id: int, files: seq<AudioFile>)
    requires Whole(OfFile, v)
    ensures Same(ReadFile(ValueTokens(v, s), id, files), s, ReadFile(ValueTokens(Stripped(OfFile, v), s'), id, files), s')
  {
    hide StartObject, ReadFileFields, MemberTokens, ValueTokens, StrippedMembers, Stripped, WholeMembers, Whole, PathOf, WithPath,
         FileForId;
    ObjectOpened(OfFile, v, s, s');
    if v.Object? {
      var known := FileForId(files, id);
      FileFieldsSame(v.members, true, true, s, s', match PathOf(known, id) case Some(path) => path case None => "");
    }
  }

  lemma {:induction false} FilesSame(members: seq<Member>, first: bool, s: Stream, s': Stream, files: seq<AudioFile>)
    requires WholeMembers(OfFiles, members)
    ensures Same(ReadFiles(MemberTokens(members, first, s), files), s,
                 ReadFiles(MemberTokens(StrippedMembers(OfFiles, members), first, s'), files), s')
    decreases |members|
  {
    hide NextField, ReadFile, StringToInt, MemberTokens, ValueTokens, Stripped, StrippedMembers, Whole, WholeMembers, Proper, EmptyArrays;
    FirstFound(OfFiles, members, first, s);
    if members == [] {
      NoneStripped(OfFiles, first, s');
    } else {
      StrippedFound(OfFiles, members, first, s');
      var m := members[0];
      var rest, rest' := MemberTokens(members[1..], false, s), MemberTokens(StrippedMembers(OfFiles, members[1..]), false, s');
      var id := StringToInt(m.name, InvalidProjectFile);
      if id.Success? {
        FileSame(m.value, rest, rest', id.value, files);
        var read := ReadFile(ValueTokens(m.value, rest), id.value, files);
        if read.Success? {
          FilesSame(members[1..], false, s, s', read.value.0);
        }
      }
    }
  }

  // ---------------------------------------------------------------- projects

  lemma {:induction false} ProjectFieldsSame(members: seq<Member>, first: bool, first': bool, s: Stream, s': Stream, master: Track, ctx: Context)
    requires WholeMembers(OfProject, members)
    ensures Same(ReadProjectFields(MemberTokens(members, first, s), master, ctx), s,
                 ReadProjectFields(MemberTokens(StrippedMembers(OfProject, members), first', s'), master, ctx), s')
    decreases |members|
  {
    hide NextField, StartObject, ReadTrack, ReadFiles, IgnoreValue, MemberTokens, ElementTokens, ValueTokens, Stripped, StrippedMembers,
         Whole, WholeMembers, Proper, EmptyArrays;
    FirstFound(OfProject, members, first, s);
    if members == [] {
      NoneStripped(OfProject, first', s');
    } else {
      StrippedFound(OfProject, members, first', s');
      var m := members[0];
      var rest, rest' := MemberTokens(members[1..], false, s), MemberTokens(StrippedMembers(OfProject, members[1..]), false, s');
      if m.name == "master" {
        TrackSame(m.value, rest, rest', master, ctx);
        var read := ReadTrack(ValueTokens(m.value, rest), master, ctx);
        if read.Success? {
          ProjectFieldsSame(members[1..], false, false, s, s', read.value.0.0, read.value.0.1);
        }
      } else if m.name == "files" {
        ObjectOpened(OfFiles, m.value, rest, rest');
        if m.value.Object? {
          FilesSame(m.value.members, true, rest, rest', ctx.files);
          var read := ReadFiles(MemberTokens(m.value.members, true, rest), ctx.files);
          if read.Success? {
            ProjectFieldsSame(members[1..], false, false, s, s', master, ctx.(files := read.value.0));
          }
        }
      } else {
        ValueIgnored(m.value, rest);
        ProjectFieldsSame(members[1..], false, first', s, s', master, ctx);
      }
    }
  }

  /**
    A project file of a later version.  Whatever its value, and whatever follows, reading it
    gives the project, or the error, that reading it without its unknown fields gives,
    provided that no array in those is empty.
   */
  lemma UnknownFieldsChangeNothing(v: Value, s: Stream)
    requires Proper(v) && Ignorable(OfProject, v)
    ensures ReadProject(ValueTokens(v, s)) == ReadProject(ValueTokens(Stripped(OfProject, v), s))
  {
    assert Whole(OfProject, v);
    hide *;
    ProjectSame(v, s, s);
    SameMeansEqual(ReadProject(ValueTokens(v, s)), ReadProject(ValueTokens(Stripped(OfProject, v), s)), s);
  }

  lemma SameMeansEqual<T(!new)>(r: Reading<T>, r': Reading<T>, s: Stream)
    requires Same(r, s, r', s)
    ensures r == r'
  {
  }

  lemma ProjectSame(v: Value, s: Stream, s': Stream)
    requires Whole(OfProject, v)
    ensures Same(ReadProject(ValueTokens(v, s)), s, ReadProject(ValueTokens(Stripped(OfProject, v), s')), s')
  {
    hide StartObject, ReadProjectFields, MemberTokens, ValueTokens, StrippedMembers, Stripped, WholeMembers, Whole, MaxUsedId;
    ObjectOpened(OfProject, v, s, s');
    if v.Object? {
      ProjectFieldsSame(v.members, true, true, s, s', NewMaster, Context([], 2));
    }
  }

  /**
    The text of a later version.  If, without its unknown fields, it has the tokens of a
    project as it is saved, it opens as that project.
   */
  lemma LaterProjectReopens(text: string, v: Value, p: Project)
    requires GoodProject(p) && AllHaveFiles(p.master)
    requires Lex(text) == ValueTokens(v, End) && Proper(v) && Ignorable(OfProject, v)
    requires ValueTokens(Stripped(OfProject, v), End) == ProjectTokens(p, End)
    ensures var reopened := ReadProject(Lex(text));
            && reopened.Success? && reopened.value.1 == End
            && reopened.value.0.master == p.master && multiset(reopened.value.0.files) == multiset(p.files)
  {
    GoodIsPlain(p.master);
    hide *;
    UnknownFieldsChangeNothing(v, End);
    SavedProjectReopens(p);
    SavedTokens(p);
  }

  lemma SavedTokens(p: Project)
    requires GoodProject(p) && AllHaveFiles(p.master)
    ensures Lex(WriteProject(Sink("", 0, true), p).out) == ProjectTokens(p, End)
  {
    hide Lex, WriteProject, ProjectTokens, GoodTrack, PlaysFrom, PlainTrack, AllHaveFiles;
    GoodIsPlain(p.master);
    ProjectTextTokens(p);
  }

  // ---------------------------------------------------------------- one field

  lemma {:induction false} InsertedIsStripped(kind: Kind, a: seq<Member>, m: Member, b: seq<Member>)
    requires FieldKind(kind, m.name).None?
    ensures StrippedMembers(kind, a + [m] + b) == StrippedMembers(kind, a + b)
    decreases |a|
  {
    hide Stripped, FieldKind;
    if a == [] {
      assert a + [m] + b == [m] + b && a + b == b && ([m] + b)[1..] == b;
    } else {
      InsertedIsStripped(kind, a[1..], m, b);
      assert (a + [m] + b)[0] == a[0] == (a + b)[0];
      assert (a + [m] + b)[1..] == a[1..] + [m] + b && (a + b)[1..] == a[1..] + b;
    }
  }

  lemma InsertedIsWhole(kind: Kind, a: seq<Member>, m: Member, b: seq<Member>)
    requires HasFields(kind) && WholeMembers(kind, a + b) && WholeMembers(kind, [m])
    ensures Whole(kind, Object(a + [m] + b)) && Whole(kind, Object(a + b))
  {
    hide Ignorable, Proper, FieldKind, IgnorableMember;
    var all := a + [m] + b;
    forall i | 0 <= i < |all| ensures all[i].name != "" && Proper(all[i].value) && IgnorableMember(kind, all[i]) {
      var other := if i < |a| then i else i - 1;
      assert i == |a| || all[i] == (a + b)[other];
      assert [m][0] == m;
    }
    WholeObject(kind, all);
    WholeObject(kind, a + b);
  }

  lemma WholeObject(kind: Kind, members: seq<Member>)
    requires WholeMembers(kind, members)
    ensures Whole(kind, Object(members))
  {
    hide FieldKind, IgnorableMember;
  }

  /** An unknown field, with a value in which no array is empty, and other fields before and after it. */
  ghost predicate Insertable(kind: Kind, a: seq<Member>, m: Member, b: seq<Member>) {
    HasFields(kind) && FieldKind(kind, m.name).None? && WholeMembers(kind, a + b) && WholeMembers(kind, [m])
  }

  lemma Inserted(kind: Kind, a: seq<Member>, m: Member, b: seq<Member>)
    requires Insertable(kind, a, m, b)
    ensures Whole(kind, Object(a + [m] + b)) && Whole(kind, Object(a + b))
    ensures Stripped(kind, Object(a + [m] + b)) == Stripped(kind, Object(a + b))
  {
    hide FieldKind, Whole, WholeMembers;
    InsertedIsStripped(kind, a, m, b);
    InsertedIsWhole(kind, a, m, b);
  }

  /** An unknown field, anywhere among the others of a clip, changes nothing of what is read. */
  lemma ClipIgnores(a: seq<Member>, m: Member, b: seq<Member>, s: Stream, files: seq<AudioFile>)
    requires Insertable(OfClip, a, m, b)
    ensures ReadClip(ValueTokens(Object(a + [m] + b), s), files) == ReadClip(ValueTokens(Object(a + b), s), files)
  {
    Inserted(OfClip, a, m, b);
    hide *;
    var v, v' := Object(a + [m] + b), Object(a + b);
    ClipSame(v, s, s, files);
    ClipSame(v', s, s, files);
    BothSame(ReadClip(ValueTokens(v, s), files), ReadClip(ValueTokens(v', s), files),
             ReadClip(ValueTokens(Stripped(OfClip, v), s), files), s);
  }

  /** So it is with a playlist. */
  lemma PlaylistIgnores(a: seq<Member>, m: Member, b: seq<Member>, s: Stream, clips: seq<Clip>, files: seq<AudioFile>)
    requires Insertable(OfPlaylist, a, m, b)
    ensures ReadPlaylist(ValueTokens(Object(a + [m] + b), s), clips, files) == ReadPlaylist(ValueTokens(Object(a + b), s), clips, files)
  {
    Inserted(OfPlaylist, a, m, b);
    hide *;
    var v, v' := Object(a + [m] + b), Object(a + b);
    PlaylistSame(v, s, s, clips, files);
    PlaylistSame(v', s, s, clips, files);
    BothSame(ReadPlaylist(ValueTokens(v, s), clips, files), ReadPlaylist(ValueTokens(v', s), clips, files),
             ReadPlaylist(ValueTokens(Stripped(OfPlaylist, v), s), clips, files), s);
  }

  /** So it is with a track. */
  lemma TrackIgnores(a: seq<Member>, m: Member, b: seq<Member>, s: Stream, track: Track, ctx: Context)
    requires Insertable(OfTrack, a, m, b)
    ensures ReadTrack(ValueTokens(Object(a + [m] + b), s), track, ctx) == ReadTrack(ValueTokens(Object(a + b), s), track, ctx)
  {
    Inserted(OfTrack, a, m, b);
    hide *;
    var v, v' := Object(a + [m] + b), Object(a + b);
    TrackSame(v, s, s, track, ctx);
    TrackSame(v', s, s, track, ctx);
    BothSame(ReadTrack(ValueTokens(v, s), track, ctx), ReadTrack(ValueTokens(v', s), track, ctx),
             ReadTrack(ValueTokens(Stripped(OfTrack, v), s), track, ctx), s);
  }

  /** So it is with a file. */
  lemma FileIgnores(a: seq<Member>, m: Member, b: seq<Member>, s: Stream, id: int, files: seq<AudioFile>)
    requires Insertable(OfFile, a, m, b)
    ensures ReadFile(ValueTokens(Object(a + [m] + b), s), id, files) == ReadFile(ValueTokens(Object(a + b), s), id, files)
  {
    Inserted(OfFile, a, m, b);
    hide *;
    var v, v' := Object(a + [m] + b), Object(a + b);
    FileSame(v, s, s, id, files);
    FileSame(v', s, s, id, files);
    BothSame(ReadFile(ValueTokens(v, s), id, files), ReadFile(ValueTokens(v', s), id, files),
             ReadFile(ValueTokens(Stripped(OfFile, v), s), id, files), s);
  }

  /** So it is with a project. */
  lemma ProjectIgnores(a: seq<Member>, m: Member, b: seq<Member>, s: Stream)
    requires Insertable(OfProject, a, m, b)
    ensures ReadProject(ValueTokens(Object(a + [m] + b), s)) == ReadProject(ValueTokens(Object(a + b), s))
  {
    Inserted(OfProject, a, m, b);
    hide *;
    var v, v' := Object(a + [m] + b), Object(a + b);
    ProjectSame(v, s, s);
    ProjectSame(v', s, s);
    BothSame(ReadProject(ValueTokens(v, s)), ReadProject(ValueTokens(v', s)),
             ReadProject(ValueTokens(Stripped(OfProject, v), s)), s);
  }

  lemma BothSame<T(!new)>(a: Reading<T>, b: Reading<T>, r: Reading<T>, s: Stream)
    requires Same(a, s, r, s) && Same(b, s, r, s)
    ensures a == b
  {
  }

  // ---------------------------------------------------------------- an empty array

  /** The tokens up to the end of the text are no brackets and begin no object. */
  predicate Flat(s: Stream) {
    if s.More? then s.token != "[" && s.token != "]" && s.token != "{" && Flat(s.rest) else s.End?
  }

  /** An array that nothing ends takes all of the text and then never stops. */
  lemma {:induction false} FlatIsEndless(s: Stream)
    requires Flat(s)
    ensures IgnoreElements(s) == Failure(EndlessArray)
    decreases Size(s)
  {
    if s.More? {
      var rest := s.rest;
      assert IgnoreValue(s) == Success(((), rest));
      FlatIsEndless(if rest.More? && rest.token == "," then rest.rest else rest);
    }
  }

  /** The tokens of `, "gain": 2 }`. */
  function GainTokens(): Stream {
    Comma(GainWithoutComma())
  }

  function GainWithoutComma(): Stream {
    More(Quoted("gain"), More(":", More("2", More("}", End))))
  }

  lemma GainRead(track: Track, ctx: Context)
    ensures ReadTrackFields(GainTokens(), track, ctx) == Success(((track.(gain := "2"), ctx), End))
  {
    hide Quoted;
    FieldReads("gain", More("2", More("}", End)));
    assert ReadTrackFields(More("}", End), track.(gain := "2"), ctx) == Success(((track.(gain := "2"), ctx), End));
  }

  lemma GainIsFlat()
    ensures Flat(GainWithoutComma()) && ArrayIsDone(GainTokens()) == Success((false, GainWithoutComma()))
  {
    assert Quoted("gain") == "\"gain\"";
  }

  /** An unknown field in front of the gain, with a value of two tokens. */
  function ExtraTokens(first: string, second: string): Stream {
    More("{", More(Quoted("extra"), More(":", More(first, More(second, GainTokens())))))
  }

  /** An object is skipped. */
  lemma ObjectThenGain(track: Track, ctx: Context)
    ensures ReadTrack(ExtraTokens("{", "}"), track, ctx) == Success(((track.(gain := "2"), ctx), End))
  {
    hide ReadTrackFields, IgnoreValue, NextField, GainTokens, Quoted;
    var value := More("{", More("}", GainTokens()));
    FieldReads("extra", value);
    ValueIgnored(Object([]), GainTokens());
    assert ValueTokens(Object([]), GainTokens()) == value;
    ExtraIgnored(value, track, ctx);
    GainRead(track, ctx);
  }

  /** Of an empty array the gain is taken for an element. */
  lemma EmptyArrayThenGain(track: Track, ctx: Context)
    ensures ReadTrack(ExtraTokens("[", "]"), track, ctx) == Failure(EndlessArray)
  {
    hide ReadTrackFields, IgnoreValue, IgnoreElements, ArrayIsDone, NextField, GainTokens, Quoted;
    var value := More("[", More("]", GainTokens()));
    FieldReads("extra", value);
    assert ValueTokens(Array([]), GainTokens()) == value;
    EmptyArrayGoesOn(GainTokens());
    GainIsFlat();
    FlatIsEndless(GainWithoutComma());
    ExtraIgnored(value, track, ctx);
  }

  lemma ExtraIgnored(value: Stream, track: Track, ctx: Context)
    ensures ReadTrackFields(More(Quoted("extra"), More(":", value)), track, ctx)
         == if IgnoreValue(value).Failure? then Failure(IgnoreValue(value).error)
            else ReadTrackFields(IgnoreValue(value).value.1, track, ctx)
  {
    hide IgnoreValue, NextField, Quoted;
    FieldReads("extra", value);
  }
}
