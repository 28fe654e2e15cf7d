/**
  Deleting tracks anywhere in a project and restoring them in the opposite order undoes
  everything: the order of all siblings, and what can be found or restored.  In another
  order that depends on which tracks were neighbours.
 */
module TrackDeletions {
  import opened Siblings

  /**
    Tracks by their numbers, none of which is 0: the children of each, those that can be
    found, and those deleted.  A deleted track still leads to the sibling that came after
    it, or to 0.
   */
  datatype Project = Project(children: map<nat, seq<nat>>, known: set<nat>, deleted: map<nat, nat>)

  /** A track and its parent, and the sibling that came after it, or 0. */
  datatype Deletion = Deletion(parent: nat, track: nat, before: nat)

  /** `Broken` is a list that leads on after its last child. */
  datatype Outcome = Fine(project: Project) | Broken

  ghost predicate Sound(p: Project) {
    forall parent :: parent in p.children ==> Distinct(p.children[parent]) && 0 !in p.children[parent]
  }

  predicate CanDelete(p: Project, parent: nat, track: nat) {
    parent in p.children && track in p.children[parent] && track in p.known && track !in p.deleted
  }

  function AfterDelete(p: Project, parent: nat, track: nat): Project
    requires parent in p.children
  {
    var s := p.children[parent];
    Project(p.children[parent := Without(s, track)], p.known - {track}, p.deleted[track := Following(s, track, 0)])
  }

  /** Goes to the back if the sibling is not there; then the track must not lead anywhere. */
  function AfterRestore(p: Project, d: Deletion): Outcome {
    var children := if d.parent in p.children then p.children[d.parent] else [];
    if d.track !in p.deleted then Fine(p)
    else if d.before !in children && p.deleted[d.track] != 0 then Broken
    else
      Fine(Project(p.children[d.parent := InsertedBefore(children, d.track, d.before)],
                   p.known + {d.track}, p.deleted - {d.track}))
  }

  /** What is remembered about a deletion. */
  function Remembered(p: Project, parent: nat, track: nat): Deletion
    requires parent in p.children
  {
    Deletion(parent, track, Following(p.children[parent], track, 0))
  }

  /** Each track can be deleted when its turn comes. */
  predicate CanDeleteAll(p: Project, victims: seq<(nat, nat)>)
    decreases |victims|
  {
    victims == []
    || (CanDelete(p, victims[0].0, victims[0].1)
        && CanDeleteAll(AfterDelete(p, victims[0].0, victims[0].1), victims[1..]))
  }

  function AfterDeletes(p: Project, victims: seq<(nat, nat)>): Project
    requires CanDeleteAll(p, victims)
    decreases |victims|
  {
    if victims == [] then p else AfterDeletes(AfterDelete(p, victims[0].0, victims[0].1), victims[1..])
  }

  function Log(p: Project, victims: seq<(nat, nat)>): (log: seq<Deletion>)
    requires CanDeleteAll(p, victims)
    ensures |log| == |victims|
    decreases |victims|
  {
    if victims == [] then []
    else
      var (parent, track) := victims[0];
      [Remembered(p, parent, track)] + Log(AfterDelete(p, parent, track), victims[1..])
  }

  /** Restores the last deletion of the log first. */
  function AfterRestores(p: Project, log: seq<Deletion>): Outcome
    decreases |log|
  {
    if log == [] then Fine(p)
    else
      match AfterRestore(p, log[|log| - 1])
      case Fine(q) => AfterRestores(q, log[..|log| - 1])
      case Broken => Broken
  }

  /** Restores the first deletion of the log first. */
  function AfterRestoresInOrder(p: Project, log: seq<Deletion>): Outcome
    decreases |log|
  {
    if log == [] then Fine(p)
    else
      match AfterRestore(p, log[0])
      case Fine(q) => AfterRestoresInOrder(q, log[1..])
      case Broken => Broken
  }

  // ---------------------------------------------------------------- the opposite order

  lemma {:induction false} FirstIsRestoredLast(p: Project, first: Deletion, log: seq<Deletion>)
    ensures AfterRestores(p, [first] + log)
         == match AfterRestores(p, log) case Fine(q) => AfterRestore(q, first) case Broken => Broken
    decreases |log|
  {
    hide AfterRestore;
    var all := [first] + log;
    if log == [] {
      assert all[..|all| - 1] == [];
    } else {
      assert all[..|all| - 1] == [first] + log[..|log| - 1];
      var outcome := AfterRestore(p, log[|log| - 1]);
      if outcome.Fine? {
        FirstIsRestoredLast(outcome.project, first, log[..|log| - 1]);
      }
    }
  }

  lemma DeleteKeepsSound(p: Project, parent: nat, track: nat)
    requires Sound(p) && CanDelete(p, parent, track)
    ensures Sound(AfterDelete(p, parent, track))
  {
    WithoutMembers(p.children[parent], track);
  }

  lemma RestoreUndoesOne(p: Project, parent: nat, track: nat)
    requires Sound(p) && CanDelete(p, parent, track)
    ensures AfterRestore(AfterDelete(p, parent, track), Remembered(p, parent, track)) == Fine(p)
  {
    hide Following, InsertedBefore, Without;
    var s := p.children[parent];
    RestoreUndoesDelete(s, track, 0);
    WithoutMembers(s, track);
    FollowingIs(s, track, 0);
    var q := AfterRestore(AfterDelete(p, parent, track), Remembered(p, parent, track)).project;
    assert q.children == p.children;
    assert q.known == p.known && q.deleted == p.deleted;
  }

  /** Any deletions, restored in the opposite order, are undone. */
  lemma {:induction false} RestoresUndoDeletes(p: Project, victims: seq<(nat, nat)>)
    requires Sound(p) && CanDeleteAll(p, victims)
    ensures AfterRestores(AfterDeletes(p, victims), Log(p, victims)) == Fine(p)
    decreases |victims|
  {
    hide Sound, AfterDelete, AfterRestore, Remembered;
    if victims != [] {
      var (parent, track) := victims[0];
      var q := AfterDelete(p, parent, track);
      DeleteKeepsSound(p, parent, track);
      RestoresUndoDeletes(q, victims[1..]);
      FirstIsRestoredLast(AfterDeletes(p, victims), Remembered(p, parent, track), Log(q, victims[1..]));
      RestoreUndoesOne(p, parent, track);
    }
  }

  // ---------------------------------------------------------------- the same order

  /** A project in which the deletions from `k` on are still to be restored. */
  ghost predicate StillWithout(p: Project, victims: seq<(nat, nat)>, log: seq<Deletion>, q: Project, k: nat)
    requires |log| == |victims| && k <= |victims|
  {
    && Sound(q) && q.children.Keys == p.children.Keys
    && (forall parent, t :: parent in p.children ==>
          (t in q.children[parent] <==> t in p.children[parent] && (parent, t) !in victims[k..]))
    && (forall j :: k <= j < |log| ==> log[j].track in q.deleted && q.deleted[log[j].track] == log[j].before)
  }

  /** What the log says about each deletion. */
  ghost predicate Recorded(p: Project, victims: seq<(nat, nat)>, log: seq<Deletion>) {
    && |log| == |victims|
    && (forall i :: 0 <= i < |log| ==>
          && (log[i].parent, log[i].track) == victims[i] && log[i].parent in p.children
          && log[i].track in p.children[log[i].parent]
          && (log[i].before == 0
              || (log[i].before in p.children[log[i].parent] && (log[i].parent, log[i].before) !in victims[..i + 1])))
    && (forall i, j :: 0 <= i < j < |log| ==> log[i].track != log[j].track)
  }

  lemma DeletedOnce(p: Project, parent: nat, track: nat)
    requires Sound(p) && CanDelete(p, parent, track)
    ensures var q, d := AfterDelete(p, parent, track), Remembered(p, parent, track);
            && Sound(q) && q.children.Keys == p.children.Keys
            && (forall other, t :: other in p.children ==>
                  (t in q.children[other] <==> t in p.children[other] && (other, t) != (parent, track)))
            && track in q.deleted && q.deleted[track] == d.before && track !in q.known
            && d == Deletion(parent, track, d.before)
            && (d.before == 0 || (d.before in p.children[parent] && d.before != track))
            && (forall t :: t in p.deleted ==> t in q.deleted && q.deleted[t] == p.deleted[t])
  {
    hide Following, Without;
    DeleteKeepsSound(p, parent, track);
    WithoutMembers(p.children[parent], track);
    FollowingIs(p.children[parent], track, 0);
  }

  /** What was deleted before stays deleted, and is not deleted again. */
  lemma {:induction false} DeletedBefore(p: Project, victims: seq<(nat, nat)>, t: nat)
    requires CanDeleteAll(p, victims) && t in p.deleted
    ensures t in AfterDeletes(p, victims).deleted && AfterDeletes(p, victims).deleted[t] == p.deleted[t]
    ensures forall i :: 0 <= i < |victims| ==> victims[i].1 != t
    decreases |victims|
  {
    if victims != [] {
      DeletedBefore(AfterDelete(p, victims[0].0, victims[0].1), victims[1..], t);
    }
  }

  lemma {:induction false} AllDeleted(p: Project, victims: seq<(nat, nat)>)
    requires Sound(p) && CanDeleteAll(p, victims)
    ensures Recorded(p, victims, Log(p, victims))
    ensures StillWithout(p, victims, Log(p, victims), AfterDeletes(p, victims), 0)
    decreases |victims|
  {
    if victims != [] {
      hide Sound, CanDelete, Remembered, AfterDelete;
      var (parent, track) := victims[0];
      DeletedOnce(p, parent, track);
      var q := AfterDelete(p, parent, track);
      AllDeleted(q, victims[1..]);
      DeletedBefore(q, victims[1..], track);
      FirstOfAll(p, victims, Remembered(p, parent, track), q, Log(q, victims[1..]), AfterDeletes(p, victims));
    }
  }

  lemma FirstOfAll(p: Project, victims: seq<(nat, nat)>, d: Deletion, q: Project, log: seq<Deletion>, end: Project)
    requires victims != [] && (d.parent, d.track) == victims[0] && d.parent in p.children && d.track in p.children[d.parent]
    requires q.children.Keys == p.children.Keys
    requires forall other, t :: other in p.children ==>
               (t in q.children[other] <==> t in p.children[other] && (other, t) != victims[0])
    requires d.before == 0 || (d.before in p.children[d.parent] && d.before != d.track)
    requires Recorded(q, victims[1..], log) && StillWithout(q, victims[1..], log, end, 0)
    requires d.track in end.deleted && end.deleted[d.track] == d.before
    requires forall i :: 1 <= i < |victims| ==> victims[i].1 != d.track
    ensures Recorded(p, victims, [d] + log) && StillWithout(p, victims, [d] + log, end, 0)
  {
    hide Sound;
    var all, rest := [d] + log, victims[1..];
    assert victims == [victims[0]] + rest && victims[0..] == victims && rest[0..] == rest;
    forall i | 1 <= i < |all|
      ensures all[i] == log[i - 1] && victims[i] == rest[i - 1] && victims[..i + 1] == [victims[0]] + rest[..i]
      ensures all[i].before == 0 || (all[i].parent, all[i].before) !in victims[..i + 1]
    {
      assert all[i].before != 0 ==> all[i].before in q.children[all[i].parent];
    }
  }

  /** One more is back, if it can be. */
  lemma NextIsBack(p: Project, victims: seq<(nat, nat)>, log: seq<Deletion>, q: Project, k: nat)
    requires Sound(p) && Recorded(p, victims, log) && k < |log| && StillWithout(p, victims, log, q, k)
    ensures AfterRestore(q, log[k]).Fine? <==> (log[k].parent, log[k].before) !in victims[k + 1..]
    ensures AfterRestore(q, log[k]).Fine? ==> StillWithout(p, victims, log, AfterRestore(q, log[k]).project, k + 1)
  {
    hide InsertedBefore;
    var d := log[k];
    var s := q.children[d.parent];
    assert victims[k..] == [victims[k]] + victims[k + 1..];
    assert victims[..k + 1][k] == victims[k];
    if d.before == 0 {
      forall j | k + 1 <= j < |victims| ensures victims[j] != (d.parent, 0) {
        assert log[j].track in p.children[log[j].parent];
      }
    }
    assert d.track !in s;
    InsertedMembers(s, d.track, d.before);
  }

  lemma {:induction false} RestFollows(p: Project, victims: seq<(nat, nat)>, log: seq<Deletion>, q: Project, k: nat)
    requires Sound(p) && Recorded(p, victims, log) && k <= |log| && StillWithout(p, victims, log, q, k)
    ensures AfterRestoresInOrder(q, log[k..]).Fine?
       <==> forall i, j :: k <= i < j < |log| ==> victims[j] != (log[i].parent, log[i].before)
    decreases |log| - k
  {
    hide Sound, Recorded, StillWithout, AfterRestore;
    if k < |log| {
      NextIsBack(p, victims, log, q, k);
      assert log[k..][1..] == log[k + 1..];
      assert |log| == |victims| by { SameLength(p, victims, log); }
      assert forall j :: k < j < |victims| ==> victims[k + 1..][j - k - 1] == victims[j];
      if AfterRestore(q, log[k]).Fine? {
        RestFollows(p, victims, log, AfterRestore(q, log[k]).project, k + 1);
      }
    }
  }

  lemma SameLength(p: Project, victims: seq<(nat, nat)>, log: seq<Deletion>)
    requires Recorded(p, victims, log)
    ensures |log| == |victims|
  {
  }

  /**
    Restoring in the order of deletion, each before the sibling that followed it then,
    keeps all lists sound if and only if none of these siblings was deleted later.
   */
  lemma SameOrderIsSound(p: Project, victims: seq<(nat, nat)>)
    requires Sound(p) && CanDeleteAll(p, victims)
    ensures var log := Log(p, victims);
            AfterRestoresInOrder(AfterDeletes(p, victims), log).Fine?
            <==> forall i, j :: 0 <= i < j < |log| ==> victims[j] != (log[i].parent, log[i].before)
  {
    hide Recorded, StillWithout;
    AllDeleted(p, victims);
    var log := Log(p, victims);
    assert log[0..] == log;
    RestFollows(p, victims, log, AfterDeletes(p, victims), 0);
  }

  /** Two siblings, restored in the order of deletion: sound unless the second followed the first, undone unless they were neighbours. */
  lemma SameOrderOfTwo(p: Project, parent: nat, x: nat, y: nat)
    requires Sound(p) && x != y && CanDeleteAll(p, [(parent, x), (parent, y)])
    ensures var victims: seq<(nat, nat)> := [(parent, x), (parent, y)];
            var outcome := AfterRestoresInOrder(AfterDeletes(p, victims), Log(p, victims));
            && (outcome == Broken <==> Following(p.children[parent], x, 0) == y)
            && (outcome == Fine(p) <==> Following(p.children[parent], x, 0) != y && Following(p.children[parent], y, 0) != x)
  {
    hide AfterDelete, Remembered, CanDelete, Following, AfterRestore;
    TwoDeleted(p, parent, x, y);
    var victims: seq<(nat, nat)> := [(parent, x), (parent, y)];
    SameOrderIsSound(p, victims);
    assert Log(p, victims)[0] == Remembered(p, parent, x) && victims[1] == (parent, y);
    RememberedIs(p, parent, x);
    if Following(p.children[parent], x, 0) != y {
      TwoAreBack(p, parent, x, y);
    }
  }

  lemma RememberedIs(p: Project, parent: nat, track: nat)
    requires parent in p.children
    ensures Remembered(p, parent, track) == Deletion(parent, track, Following(p.children[parent], track, 0))
  {
  }

  lemma TwoDeleted(p: Project, parent: nat, x: nat, y: nat)
    requires Sound(p) && CanDeleteAll(p, [(parent, x), (parent, y)])
    ensures parent in p.children && CanDelete(p, parent, x) && CanDelete(AfterDelete(p, parent, x), parent, y) && y in p.children[parent]
    ensures var victims: seq<(nat, nat)> := [(parent, x), (parent, y)];
            var p1 := AfterDelete(p, parent, x);
            && AfterDeletes(p, victims) == AfterDelete(p1, parent, y)
            && Log(p, victims) == [Remembered(p, parent, x), Remembered(p1, parent, y)]
  {
    hide Following, Without;
    var victims: seq<(nat, nat)> := [(parent, x), (parent, y)];
    assert victims[1..] == [(parent, y)] && |victims[1..][1..]| == 0;
    WithoutMembers(p.children[parent], x);
    hide AfterDelete, Remembered;
    assert AfterDeletes(AfterDelete(p, parent, x), victims[1..]) == AfterDelete(AfterDelete(p, parent, x), parent, y);
    assert Log(AfterDelete(p, parent, x), victims[1..]) == [Remembered(AfterDelete(p, parent, x), parent, y)];
  }

  lemma TwoAreBack(p: Project, parent: nat, x: nat, y: nat)
    requires Sound(p) && x != y && CanDelete(p, parent, x) && CanDelete(AfterDelete(p, parent, x), parent, y)
    requires y in p.children[parent] && Following(p.children[parent], x, 0) != y
    ensures var p1 := AfterDelete(p, parent, x);
            var log := [Remembered(p, parent, x), Remembered(p1, parent, y)];
            AfterRestoresInOrder(AfterDelete(p1, parent, y), log) == Fine(p) <==> Following(p.children[parent], y, 0) != x
  {
    hide Following, InsertedBefore, Without;
    var s := p.children[parent];
    var p1 := AfterDelete(p, parent, x);
    var p2 := AfterDelete(p1, parent, y);
    var d1, d2 := Remembered(p, parent, x), Remembered(p1, parent, y);
    SameOrder(s, x, y, 0);
    WithoutMembers(s, x);
    WithoutMembers(s, y);
    WithoutMembers(Without(s, x), y);
    FollowingIs(s, x, 0);
    FollowingIs(Without(s, x), y, 0);
    var q := AfterRestore(p2, d1);
    assert q.Fine? && q.project.children[parent] == Without(s, y);
    var r := AfterRestore(q.project, d2);
    assert d2.before in Without(s, y) || d2.before == 0;
    assert r.Fine? && r.project.known == p.known && r.project.deleted == p.deleted;
    assert r.project.children == p.children[parent := InsertedBefore(Without(s, y), y, d2.before)];
    assert p.children[parent := s] == p.children;
    assert r.project.children == p.children <==> r.project.children[parent] == s;
    assert [d1, d2][1..] == [d2] && [d2][1..] == [];
    assert AfterRestoresInOrder(p2, [d1, d2]) == AfterRestoresInOrder(q.project, [d2]) == r;
  }

  /** Restoring a track at the end, without a sibling, is sound if and only if it was the last, and then undoes its deletion. */
  lemma RestoredAtTheEnd(p: Project, parent: nat, track: nat)
    requires Sound(p) && CanDelete(p, parent, track)
    ensures var outcome := AfterRestore(AfterDelete(p, parent, track), Deletion(parent, track, 0));
            if Following(p.children[parent], track, 0) == 0 then outcome == Fine(p) else outcome == Broken
  {
    WithoutMembers(p.children[parent], track);
    if Following(p.children[parent], track, 0) == 0 {
      RestoreUndoesOne(p, parent, track);
    }
  }

  /** The second and the third of four tracks, restored in the order of deletion. */
  lemma NeighboursBreakTheList()
    ensures var p := Project(map[0 := [1, 2, 3, 4]], {1, 2, 3, 4}, map[]);
            var victims := [(0, 2), (0, 3)];
            CanDeleteAll(p, victims) && AfterRestoresInOrder(AfterDeletes(p, victims), Log(p, victims)) == Broken
  {
    var s := [1, 2, 3, 4];
    var p := Project(map[0 := s], {1, 2, 3, 4}, map[]);
    var victims: seq<(nat, nat)> := [(0, 2), (0, 3)];
    ByIndex(s, 1, 0);
    WithoutMembers(s, 2);
    assert s[1] == 2 && s[2] == 3;
    assert victims[1..] == [(0, 3)] && |victims[1..][1..]| == 0;
    SameOrderOfTwo(p, 0, 2, 3);
  }
}
