/**
  The children of a track are a list that is linked through the tracks themselves.
  Tracks are deleted from it and restored to it.
 */
module TrackLists {
  import opened Siblings

  class Track {
    const id: int
    var next: Track?

    constructor (idIn: int)
      ensures id == idIn && next == null
    {
      id, next := idIn, null;
    }
  }

  /** What is at `i`, or null past the end. */
  ghost function At(tracks: seq<Track>, i: nat): Track? {
    if i < |tracks| then tracks[i] else null
  }

  /** Each track leads to the one after it, and the last one nowhere. */
  ghost predicate Linked(tracks: seq<Track>)
    reads tracks
  {
    forall i {:trigger tracks[i]} :: 0 <= i < |tracks| ==> tracks[i].next == At(tracks, i + 1)
  }

  lemma OnlyAt(tracks: seq<Track>, i: nat)
    requires Distinct<Track?>(tracks) && i < |tracks|
    ensures forall k :: 0 <= k < |tracks| && k != i ==> tracks[k] != tracks[i]
  {
  }

  lemma FirstIsGone(tracks: seq<Track>, track: Track)
    ensures tracks != [] && tracks[0] == track ==> Without<Track?>(tracks, track) == tracks[1..]
    ensures tracks == [] ==> Without<Track?>(tracks, track) == []
  {
  }

  lemma LeadsTo(tracks: seq<Track>)
    requires Linked(tracks)
    ensures forall k {:trigger tracks[k]} :: 0 <= k < |tracks| ==> tracks[k].next == At(tracks, k + 1)
  {
  }

  /** A track put in after the one at `i` is linked to both sides. */
  lemma LinkedAround(was: seq<Track>, i: nat, newChild: Track)
    requires i < |was| && was[i].next == newChild && newChild.next == At(was, i + 1)
    requires forall k {:trigger was[k]} :: 0 <= k < |was| && k != i ==> was[k].next == At(was, k + 1)
    ensures Linked(was[..i + 1] + [newChild] + was[i + 1..])
  {
    var now := was[..i + 1] + [newChild] + was[i + 1..];
    assert forall k :: 0 <= k <= i ==> now[k] == was[k];
    assert forall k :: i + 2 <= k < |now| ==> now[k] == was[k - 1];
  }

  class TrackList {
    var head: Track?
    var last: Track?
    ghost var contents: seq<Track>

    ghost predicate Valid()
      reads this, contents
    {
      Ends() && Linked(contents)
    }

    ghost predicate Ends()
      reads this
    {
      && Distinct<Track?>(contents)
      && head == At(contents, 0)
      && last == (if contents == [] then null else contents[|contents| - 1])
    }

    constructor ()
      ensures Valid() && contents == []
    {
      head, last, contents := null, null, [];
    }

    /** Does not clear `next`: the list is sound only if the element leads nowhere. */
    method PushBack(element: Track)
      requires Valid() && element !in contents
      modifies this, contents
      ensures contents == old(contents) + [element] && element.next == old(element.next)
      ensures Ends() && (Linked(contents) <==> old(element.next) == null)
    {
      if last != null {
        last.next := element;
      } else {
        head := element;
      }
      last := element;
      contents := contents + [element];
      assert contents[|contents| - 1] == element;
    }

    method PushFront(element: Track)
      requires Valid() && element !in contents
      modifies this, element
      ensures Valid() && contents == [element] + old(contents)
    {
      element.next := head;
      head := element;
      if last == null {
        last := element;
      }
      contents := [element] + contents;
    }

    method PopFront() returns (element: Track?)
      requires Valid()
      modifies this
      ensures Valid()
      ensures old(contents) == [] ==> element == null && contents == []
      ensures old(contents) != [] ==> element == old(contents)[0] && contents == old(contents)[1..]
    {
      element := head;
      if head != null {
        head := head.next;
        if last == element {
          last := null;
        }
        contents := contents[1..];
      }
    }

    /** The element that leads to `target`, which is not the first, if there is one. */
    method FindBefore(target: Track) returns (element: Track?, ghost i: nat)
      requires Valid() && target != head
      ensures element != null ==> i + 1 < |contents| && contents[i] == element && contents[i + 1] == target
      ensures element == null <==> target !in contents
    {
      i := 0;
      element := head;
      while element != null && element.next != target
        invariant 0 <= i <= |contents| && element == At(contents, i)
        invariant forall j :: 0 <= j <= i && j < |contents| ==> contents[j] != target
        decreases |contents| - i
      {
        element := element.next;
        i := i + 1;
      }
    }

    /** Unlinks an element, whose own `next` stays as it was. */
    method Remove(removing: Track)
      requires Valid()
      modifies this, set t | t in contents && t != removing
      ensures Valid() && contents == Without<Track?>(old(contents), removing)
    {
      hide Linked, IndexOf, Distinct;
      IndexFinds<Track?>(contents, removing);
      if removing == head {
        FirstIsGone(contents, removing);
        var _ := PopFront();
        return;
      }
      var element, i := FindBefore(removing);
      if element != null {
        OnlyAt(contents, i + 1);
        Unlink(element, removing, i);
      }
    }

    method Unlink(element: Track, removing: Track, ghost i: nat)
      requires Valid() && i + 1 < |contents| && contents[i] == element && contents[i + 1] == removing
      modifies this, element
      ensures Valid() && contents == Without<Track?>(old(contents), removing)
    {
      hide IndexOf, Distinct;
      ghost var was := contents;
      IndexIs<Track?>(was, i + 1);
      TakenOut<Track?>(was, i + 1);
      OnlyAt(was, i);
      element.next := removing.next;
      if last == removing {
        last := element;
      }
      contents := was[..i + 1] + was[i + 2..];
    }

    method AddChild(newChild: Track, afterChild: Track?)
      requires Valid() && newChild !in contents && (afterChild != null ==> afterChild in contents)
      modifies this, newChild, contents
      ensures contents == InsertedAfter<Track?>(old(contents), newChild, afterChild) && Ends()
      ensures Linked(contents) <==> old(newChild.next) == null || (afterChild != null && afterChild != old(last))
    {
      ghost var i := IndexOf<Track?>(contents, afterChild);
      IndexFinds<Track?>(contents, afterChild);
      if afterChild == null || afterChild == last {
        PushBack(newChild);
      } else {
        LinkAfter(newChild, afterChild, i);
      }
    }

    method LinkAfter(newChild: Track, afterChild: Track, ghost i: nat)
      requires Valid() && newChild !in contents && i < |contents| && contents[i] == afterChild
      modifies this`contents, newChild, afterChild
      ensures contents == old(contents[..i + 1] + [newChild] + contents[i + 1..]) && Linked(contents)
      ensures i + 1 < |old(contents)| ==> Ends()
    {
      hide Distinct, Linked;
      ghost var was := contents;
      PutIn<Track?>(was, i + 1, newChild);
      OnlyAt(was, i);
      LeadsTo(was);
      newChild.next := afterChild.next;
      afterChild.next := newChild;
      contents := was[..i + 1] + [newChild] + was[i + 1..];
      assert forall k {:trigger was[k]} :: 0 <= k < |was| && k != i ==> was[k].next == At(was, k + 1);
      LinkedAround(was, i, newChild);
    }

    /** Goes to the back if there is nothing to be before, and then `next` has to lead nowhere. */
    method AddChildBefore(newChild: Track, beforeChild: Track?)
      requires Valid() && newChild !in contents
      modifies this, newChild, contents
      ensures contents == InsertedBefore<Track?>(old(contents), newChild, beforeChild) && Ends()
      ensures Linked(contents) <==> old(newChild.next) == null || (beforeChild != null && beforeChild in old(contents))
      ensures beforeChild == null || beforeChild !in old(contents) ==> newChild.next == old(newChild.next)
    {
      hide Linked, IndexOf, Distinct;
      if beforeChild == null {
        IndexFinds<Track?>(contents, null);
        PushBack(newChild);
        return;
      } else if beforeChild == head {
        IndexIs<Track?>(contents, 0);
        PushFront(newChild);
        return;
      }
      var afterChild, i := FindBefore(beforeChild);
      IndexFinds<Track?>(contents, beforeChild);
      if afterChild != null {
        LinkBetween(afterChild, newChild, beforeChild, i);
      } else {
        PushBack(newChild);
      }
    }

    method LinkBetween(afterChild: Track, newChild: Track, beforeChild: Track, ghost i: nat)
      requires Valid() && newChild !in contents
      requires i + 1 < |contents| && contents[i] == afterChild && contents[i + 1] == beforeChild
      modifies this`contents, newChild, afterChild
      ensures Valid() && contents == InsertedBefore<Track?>(old(contents), newChild, beforeChild)
    {
      IndexIs<Track?>(contents, i + 1);
      hide IndexOf;
      LinkAfter(newChild, afterChild, i);
    }

    /** The next sibling, if there is one. */
    method ChildAfter(track: Track) returns (after: Track?)
      requires Valid()
      ensures after == Following<Track?>(contents, track, null)
    {
      var foundIt := false;
      ghost var i: nat := 0;
      var child := head;
      while child != null
        invariant 0 <= i <= |contents| && child == At(contents, i)
        invariant foundIt == (0 < i && contents[i - 1] == track)
        invariant forall j :: 0 <= j < i - 1 ==> contents[j] != track
        decreases |contents| - i
      {
        if foundIt {
          IndexIs<Track?>(contents, i - 1);
          return child;
        }
        if child == track {
          foundIt := true;
        }
        child := child.next;
        i := i + 1;
      }
      IndexFinds<Track?>(contents, track);
      return null;
    }

    /**
      Deletes the tracks one after the other, remembering the sibling after each, and
      restores them in the opposite order, each before its sibling.  The list is sound
      all the way and in the end as it was.
     */
    method DeleteAndRestore(tracks: seq<Track>)
      requires Valid() && Distinct<Track?>(tracks) && AllIn<Track?>(tracks, contents)
      modifies this, contents
      ensures Valid() && contents == old(contents)
      decreases |tracks|
    {
      hide IndexOf, Distinct, Without, InsertedBefore, Following, AllIn, Linked;
      if tracks == [] {
        return;
      }
      var track := tracks[0];
      ghost var was := contents;
      DeleteFacts<Track?>(was, tracks);
      var before := ChildAfter(track);
      NextIsFollowing(was, track);
      RestoreUndoesDelete<Track?>(was, track, null);
      Remove(track);
      assert forall k :: 0 <= k < |contents| ==> contents[k] in was by { StillThere(was, contents); }
      DeleteAndRestore(tracks[1..]);
      AddChildBefore(track, before);
    }

    method RemoveAll(tracks: seq<Track>)
      requires Valid()
      modifies this, contents
      ensures Valid() && contents == WithoutAll<Track?>(old(contents), tracks)
      ensures forall t: Track :: t in contents <==> t in old(contents) && t !in tracks
    {
      hide IndexOf, Distinct, Without, Linked;
      ghost var was := contents;
      assert tracks[..0] == [];
      for i := 0 to |tracks|
        invariant Valid() && contents == WithoutAll<Track?>(was, tracks[..i])
        invariant forall t: Track :: t in contents <==> t in was && t !in tracks[..i]
      {
        assert tracks[..i + 1][..i] == tracks[..i] && tracks[..i + 1] == tracks[..i] + [tracks[i]];
        ghost var before := contents;
        Remove(tracks[i]);
        OneFewer(before, contents, tracks[i]);
      }
      assert tracks[..|tracks|] == tracks;
    }

    /**
      Deletes a track and then others, and restores the first one before the sibling
      that came after it.  The list is sound if and only if that one was not deleted.
     */
    method DeleteAndRestoreFirst(track: Track, others: seq<Track>) returns (before: Track?)
      requires Valid() && track in contents
      modifies this, contents
      ensures before == Following<Track?>(old(contents), track, null) && Ends()
      ensures contents == InsertedBefore<Track?>(WithoutAll<Track?>(Without<Track?>(old(contents), track), others), track, before)
      ensures Linked(contents) <==> before == null || before !in others
    {
      hide IndexOf, Distinct, Without, WithoutAll, InsertedBefore, Following, Linked;
      ghost var was := contents;
      before := ChildAfter(track);
      NextIsFollowing(was, track);
      WithoutMembers<Track?>(was, track);
      Remove(track);
      RemoveAll(others);
      AddChildBefore(track, before);
    }

    /**
      Deletes two siblings and restores the first one.  If the second one followed it, the
      list now leads from its last track to the deleted one, and from there, if the deleted
      one was not the last, back into the list and round for ever.
     */
    method DeleteNeighbours(track: Track, next: Track)
      requires Valid() && track in contents && next == Following<Track?>(contents, track, null)
      modifies this, contents
      ensures Ends() && last == track && next !in contents && track.next == next
      ensures var after := Following<Track?>(old(contents), next, null);
              next.next == after && (after != null ==> after in contents)
    {
      hide IndexOf, Distinct, Without, WithoutAll, InsertedBefore, Following, Linked;
      ghost var was := contents;
      NextIsFollowing(was, track);
      WithoutMembers<Track?>(was, track);
      FollowingWithout<Track?>(was, track, next, null);
      FollowsBack(was, track, next);
      Remove(track);
      NextIsFollowing(contents, next);
      WithoutMembers<Track?>(contents, next);
      Remove(next);
      Appended<Track?>(contents, track, next);
      AddChildBefore(track, next);
    }

    /**
      Deletes a track and restores it without a sibling, as a request that names only its
      parent does.  The list is sound if and only if the track was the last.
     */
    method DeleteAndRestoreAtEnd(track: Track)
      requires Valid() && track in contents
      modifies this, contents
      ensures contents == Without<Track?>(old(contents), track) + [track] && Ends()
      ensures Linked(contents) <==> track == old(last)
    {
      hide IndexOf, Distinct, Without, Linked;
      ghost var was := contents;
      LastLeadsNowhere(was, track);
      WithoutMembers<Track?>(was, track);
      Remove(track);
      Appended<Track?>(contents, track, null);
      AddChildBefore(track, null);
    }
  }

  lemma OneFewer(before: seq<Track>, now: seq<Track>, track: Track)
    requires Distinct<Track?>(before) && now == Without<Track?>(before, track)
    ensures forall t: Track :: t in now <==> t in before && t != track
  {
    WithoutMembers<Track?>(before, track);
    forall t: Track ensures t in now <==> t in before && t != track {
      assert t in now <==> t in Without<Track?>(before, track);
    }
  }

  lemma LastLeadsNowhere(tracks: seq<Track>, track: Track)
    requires Linked(tracks) && track in tracks && Distinct<Track?>(tracks)
    ensures track.next == null <==> track == tracks[|tracks| - 1]
  {
  }

  /** Of two tracks only one can follow the other. */
  lemma FollowsBack(tracks: seq<Track>, track: Track, next: Track)
    requires track in tracks && Distinct<Track?>(tracks) && next == Following<Track?>(tracks, track, null)
    ensures next in tracks && next != track && Following<Track?>(tracks, next, null) != track
  {
    IndexFinds<Track?>(tracks, track);
    IndexIs<Track?>(tracks, IndexOf<Track?>(tracks, track) + 1);
  }

  /** Which tracks can be found by their ids, and which were deleted and can be restored. */
  class Project {
    var tracksById: map<int, Track>
    var deletedTracks: map<int, Track>

    constructor ()
      ensures tracksById == map[] && deletedTracks == map[]
    {
      tracksById, deletedTracks := map[], map[];
    }

    /** `siblings` are the children of the track's parent, if it has one. */
    method RemoveTrack(track: Track, siblings: TrackList?)
      requires siblings != null ==> siblings.Valid()
      modifies this, siblings, if siblings == null then {} else set t | t in siblings.contents && t != track
      ensures tracksById == old(tracksById) - {track.id} && deletedTracks == old(deletedTracks)[track.id := track]
      ensures siblings != null ==> siblings.Valid() && siblings.contents == Without<Track?>(old(siblings.contents), track)
    {
      tracksById := tracksById - {track.id};
      deletedTracks := deletedTracks[track.id := track];
      if siblings == null {
        return;
      }
      siblings.Remove(track);
    }

    method RestoreTrackId(track: Track)
      modifies this
      ensures deletedTracks == old(deletedTracks) - {track.id} && tracksById == old(tracksById)[track.id := track]
    {
      deletedTracks := deletedTracks - {track.id};
      tracksById := tracksById[track.id := track];
    }
  }

  lemma StillThere(was: seq<Track>, now: seq<Track>)
    requires AllIn<Track?>(now, was)
    ensures forall k :: 0 <= k < |now| ==> now[k] in was
  {
  }

  /** A track leads to its sibling. */
  lemma NextIsFollowing(tracks: seq<Track>, track: Track)
    requires Linked(tracks) && track in tracks && Distinct<Track?>(tracks)
    ensures var next := Following<Track?>(tracks, track, null);
            track.next == next && (next != null ==> next in tracks && next != track && next in Without<Track?>(tracks, track))
  {
    IndexFinds<Track?>(tracks, track);
    var i := IndexOf<Track?>(tracks, track);
    TakenOut<Track?>(tracks, i);
    if i + 1 < |tracks| {
      assert Without<Track?>(tracks, track)[i] == tracks[i + 1];
    }
  }
}
