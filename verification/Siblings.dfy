/** The order of siblings, and what deleting and restoring does to it. */
module Siblings {

  ghost predicate Distinct<T>(s: seq<T>) {
    forall i, j :: 0 <= i < j < |s| ==> s[i] != s[j]
  }

  /** Where `x` is, or the length if it is nowhere. */
  function IndexOf<T(==)>(s: seq<T>, x: T): (i: nat)
    ensures i <= |s|
  {
    if s == [] || s[0] == x then 0 else 1 + IndexOf(s[1..], x)
  }

  function Without<T(==)>(s: seq<T>, x: T): seq<T> {
    var i := IndexOf(s, x);
    if i < |s| then s[..i] + s[i + 1..] else s
  }

  /** Taken out one after the other. */
  function WithoutAll<T(==)>(s: seq<T>, xs: seq<T>): seq<T> {
    if xs == [] then s else Without(WithoutAll(s, xs[..|xs| - 1]), xs[|xs| - 1])
  }

  /** At the end if `before` is nowhere. */
  function InsertedBefore<T(==)>(s: seq<T>, x: T, before: T): seq<T> {
    var i := IndexOf(s, before);
    s[..i] + [x] + s[i..]
  }

  function InsertedAfter<T(==)>(s: seq<T>, x: T, after: T): seq<T> {
    var i := IndexOf(s, after);
    if i < |s| then s[..i + 1] + [x] + s[i + 1..] else s + [x]
  }

  /** What comes after `x`, or `none`. */
  function Following<T(==)>(s: seq<T>, x: T, none: T): T {
    var i := IndexOf(s, x);
    if i + 1 < |s| then s[i + 1] else none
  }

  lemma {:induction false} IndexFinds<T>(s: seq<T>, x: T)
    ensures var i := IndexOf(s, x);
            && (i < |s| <==> x in s) && (i < |s| ==> s[i] == x)
            && forall j :: 0 <= j < i ==> s[j] != x
  {
    if s != [] && s[0] != x {
      IndexFinds(s[1..], x);
      assert s == [s[0]] + s[1..];
    }
  }

  lemma IndexIs<T>(s: seq<T>, i: nat)
    requires i < |s| && Distinct(s)
    ensures IndexOf(s, s[i]) == i
  {
    IndexFinds(s, s[i]);
  }

  /** Taking out one element moves those after it up. */
  lemma TakenOut<T>(s: seq<T>, i: nat)
    requires i < |s| && Distinct(s)
    ensures var r := s[..i] + s[i + 1..];
            && |r| == |s| - 1 && Distinct(r) && s[i] !in r
            && (forall k {:trigger r[k]} :: 0 <= k < |r| ==> r[k] == s[if k < i then k else k + 1])
  {
  }

  /** Putting in one element moves those after it down. */
  lemma PutIn<T>(s: seq<T>, i: nat, x: T)
    requires i <= |s| && Distinct(s) && x !in s
    ensures var r := s[..i] + [x] + s[i..];
            && |r| == |s| + 1 && Distinct(r) && r[i] == x
            && (forall k {:trigger r[k]} :: 0 <= k < |r| && k != i ==> r[k] == s[if k < i then k else k - 1])
  {
  }

  ghost predicate AllIn<T>(xs: seq<T>, s: seq<T>) {
    forall i :: 0 <= i < |xs| ==> xs[i] in s
  }

  /** The other elements are still there. */
  lemma DeleteFacts<T>(s: seq<T>, xs: seq<T>)
    requires xs != [] && Distinct(s) && Distinct(xs) && AllIn(xs, s)
    ensures Distinct(xs[1..]) && AllIn(xs[1..], Without(s, xs[0])) && xs[0] in s && xs[0] !in Without(s, xs[0])
    ensures Distinct(Without(s, xs[0])) && AllIn(Without(s, xs[0]), s)
  {
    IndexFinds(s, xs[0]);
    var i := IndexOf(s, xs[0]);
    TakenOut(s, i);
    hide IndexOf;
    forall k | 1 <= k < |xs| ensures xs[k] in Without(s, xs[0]) {
      var j :| 0 <= j < |s| && s[j] == xs[k];
      assert Without(s, xs[0])[if j < i then j else j - 1] == s[j];
    }
  }

  lemma Rejoin<T>(s: seq<T>, i: nat, before: T)
    requires Distinct(s) && i < |s| && (if i + 1 < |s| then before == s[i + 1] else before !in s)
    ensures InsertedBefore(s[..i] + s[i + 1..], s[i], before) == s
  {
    var rest := s[..i] + s[i + 1..];
    IndexFinds(rest, before);
    hide IndexOf;
    if i + 1 < |s| {
      assert rest[i] == before;
      assert forall j :: 0 <= j < i ==> rest[j] != before;
    } else {
      assert forall j :: 0 <= j < |rest| ==> rest[j] == s[j];
    }
    assert rest[..i] == s[..i] && rest[i..] == s[i + 1..];
  }

  /** Restoring before the sibling that came after puts everything back in its place. */
  lemma RestoreUndoesDelete<T>(s: seq<T>, x: T, none: T)
    requires Distinct(s) && x in s && none !in s
    ensures InsertedBefore(Without(s, x), x, Following(s, x, none)) == s
  {
    IndexFinds(s, x);
    hide IndexOf, Distinct;
    var i := IndexOf(s, x);
    var before := Following(s, x, none);
    Rejoin(s, i, before);
  }

  /** Who is left. */
  lemma WithoutMembers<T>(s: seq<T>, x: T)
    requires Distinct(s)
    ensures var r := Without(s, x);
            Distinct(r) && x !in r && forall t :: t in r <==> t in s && t != x
  {
    IndexFinds(s, x);
    var i := IndexOf(s, x);
    hide IndexOf;
    if i < |s| {
      TakenOut(s, i);
      forall t ensures t in Without(s, x) <==> t in s && t != x {
        if t in s && t != x {
          var j :| 0 <= j < |s| && s[j] == t;
          assert Without(s, x)[if j < i then j else j - 1] == t;
        }
      }
    }
  }

  /** Who is there then. */
  lemma InsertedMembers<T>(s: seq<T>, x: T, before: T)
    requires Distinct(s) && x !in s
    ensures var r := InsertedBefore(s, x, before);
            Distinct(r) && forall t :: t in r <==> t in s || t == x
  {
    PutIn(s, IndexOf(s, before), x);
    assert s == s[..IndexOf(s, before)] + s[IndexOf(s, before)..];
  }

  /** Taking out and following, by index. */
  lemma ByIndex<T>(s: seq<T>, i: nat, none: T)
    requires Distinct(s) && i < |s|
    ensures Without(s, s[i]) == s[..i] + s[i + 1..]
    ensures Following(s, s[i], none) == if i + 1 < |s| then s[i + 1] else none
  {
    IndexIs(s, i);
    hide IndexOf, Distinct;
  }

  lemma IndexOfMember<T>(s: seq<T>, x: T) returns (i: nat)
    requires x in s
    ensures i < |s| && s[i] == x
  {
    i :| 0 <= i < |s| && s[i] == x;
  }

  lemma Slices<T>(s: seq<T>, i: nat, j: nat)
    requires i < j < |s|
    ensures var r, q, both := s[..i] + s[i + 1..], s[..j] + s[j + 1..], s[..i] + s[i + 1..j] + s[j + 1..];
            r[..j - 1] + r[j..] == both && q[..i] + q[i + 1..] == both && r[j - 1] == s[j] && q[i] == s[i]
  {
    var r, q := s[..i] + s[i + 1..], s[..j] + s[j + 1..];
    assert r[..j - 1] == s[..i] + s[i + 1..j] && r[j..] == s[j + 1..];
    assert q[..i] == s[..i] && q[i + 1..] == s[i + 1..j] + s[j + 1..];
  }

  lemma WithoutBoth<T>(s: seq<T>, i: nat, j: nat)
    requires Distinct(s) && i < j < |s|
    ensures Without(Without(s, s[i]), s[j]) == Without(Without(s, s[j]), s[i])
  {
    hide Distinct, Without, Following;
    Slices(s, i, j);
    TakenOut(s, i);
    TakenOut(s, j);
    ByIndex(s, i, s[i]);
    ByIndex(s[..i] + s[i + 1..], j - 1, s[i]);
    ByIndex(s, j, s[i]);
    ByIndex(s[..j] + s[j + 1..], i, s[i]);
  }

  /** It does not matter which of two elements is taken out first. */
  lemma WithoutCommutes<T>(s: seq<T>, x: T, y: T)
    requires Distinct(s) && x in s && y in s && x != y
    ensures Without(Without(s, x), y) == Without(Without(s, y), x)
  {
    hide Distinct, Without;
    var i := IndexOfMember(s, x);
    var j := IndexOfMember(s, y);
    if i < j {
      WithoutBoth(s, i, j);
    } else {
      WithoutBoth(s, j, i);
    }
  }

  /** Another element is followed by what followed it, unless that was taken out. */
  lemma FollowingWithout<T>(s: seq<T>, x: T, y: T, none: T)
    requires Distinct(s) && x in s && y in s && x != y && none !in s
    ensures Following(Without(s, x), y, none) == if Following(s, y, none) == x then Following(s, x, none) else Following(s, y, none)
  {
    hide Without, Following;
    var i := IndexOfMember(s, x);
    var j := IndexOfMember(s, y);
    var r := s[..i] + s[i + 1..];
    TakenOut(s, i);
    var j' := if j < i then j else j - 1;
    assert r[j'] == y;
    ByIndex(s, i, none);
    ByIndex(s, j, none);
    ByIndex(r, j', none);
    assert j + 1 < |s| ==> (s[j + 1] == x <==> j + 1 == i);
    hide Distinct;
  }

  /** The elements that are not among `xs`, in their order. */
  function Others<T(==)>(s: seq<T>, xs: seq<T>): seq<T> {
    if s == [] then [] else (if s[0] in xs then [] else [s[0]]) + Others(s[1..], xs)
  }

  lemma {:induction false} OthersOfNone<T>(s: seq<T>)
    ensures Others(s, []) == s
  {
    if s != [] {
      OthersOfNone(s[1..]);
    }
  }

  lemma {:induction false} OthersMembers<T>(s: seq<T>, xs: seq<T>)
    ensures forall t :: t in Others(s, xs) <==> t in s && t !in xs
  {
    if s != [] {
      OthersMembers(s[1..], xs);
      assert s == [s[0]] + s[1..];
    }
  }

  lemma WithoutCons<T>(first: T, rest: seq<T>, x: T)
    ensures Without([first] + rest, x) == if first == x then rest else [first] + Without(rest, x)
  {
    var s, i := [first] + rest, IndexOf(rest, x);
    assert s[1..] == rest;
    assert IndexOf(s, x) == if first == x then 0 else 1 + i;
    hide IndexOf;
    if first != x && i < |rest| {
      assert s[..1 + i] + s[1 + i + 1..] == [first] + (rest[..i] + rest[i + 1..]);
    }
  }

  lemma WithoutNone<T>(s: seq<T>, x: T)
    requires x !in s
    ensures Without(s, x) == s
  {
    IndexFinds(s, x);
  }

  lemma {:induction false} OneOther<T>(s: seq<T>, xs: seq<T>, x: T)
    requires Distinct(s)
    ensures Others(s, xs + [x]) == Without(Others(s, xs), x)
  {
    hide Without;
    if s == [] {
      WithoutNone<T>([], x);
    } else {
      var rest := Others(s[1..], xs);
      OneOther(s[1..], xs, x);
      WithoutCons(s[0], rest, x);
      OthersMembers(s[1..], xs);
      assert s[0] in xs + [x] <==> s[0] in xs || s[0] == x;
      if s[0] == x {
        assert forall i :: 0 < i < |s| ==> s[i] != s[0];
        WithoutNone(rest, x);
        assert Others(s, xs + [x]) == rest;
      } else if s[0] !in xs {
        assert Others(s, xs + [x]) == [s[0]] + Without(rest, x);
        assert Others(s, xs) == [s[0]] + rest;
      } else {
        assert [] + rest == rest && [] + Without(rest, x) == Without(rest, x);
      }
    }
  }

  /** Taking out some elements, one after the other, leaves the others in their order. */
  lemma {:induction false} OthersAreLeft<T>(s: seq<T>, xs: seq<T>)
    requires Distinct(s)
    ensures WithoutAll(s, xs) == Others(s, xs)
    decreases |xs|
  {
    hide Without, Others;
    if xs == [] {
      OthersOfNone(s);
    } else {
      OthersAreLeft(s, xs[..|xs| - 1]);
      OneOther(s, xs[..|xs| - 1], xs[|xs| - 1]);
      assert xs == xs[..|xs| - 1] + [xs[|xs| - 1]];
    }
  }

  /** What is put in before something that is not there goes to the end. */
  lemma Appended<T>(s: seq<T>, x: T, before: T)
    requires before !in s
    ensures InsertedBefore(s, x, before) == s + [x]
  {
    IndexFinds(s, before);
  }

  /** What is put in before an element, or at the end, is followed by that element, or by none. */
  lemma FollowingInserted<T>(s: seq<T>, x: T, before: T, none: T)
    requires Distinct(s) && x !in s && (before in s || before == none)
    ensures Following(InsertedBefore(s, x, before), x, none) == if before in s then before else none
  {
    IndexFinds(s, before);
    var i := IndexOf(s, before);
    PutIn(s, i, x);
    IndexIs(InsertedBefore(s, x, before), i);
  }

  /**
    What is put in after an element follows it and is followed by what followed it, or is
    the last if that element is not there.  The others are as before once it is taken out.
   */
  lemma InsertedFollows<T>(s: seq<T>, x: T, after: T, none: T)
    requires Distinct(s) && x !in s && none !in s && x != none
    ensures var r := InsertedAfter(s, x, after);
            && Distinct(r) && Without(r, x) == s
            && (if after in s then Following(r, after, none) == x && Following(r, x, none) == Following(s, after, none)
                else r == s + [x])
  {
    IndexFinds(s, after);
    var r, i := InsertedAfter(s, x, after), if after in s then IndexOf(s, after) + 1 else |s|;
    assert s == s[..i] + s[i..] && r == s[..i] + [x] + s[i..];
    PutIn(s, i, x);
    hide Following, Without, IndexOf, InsertedAfter;
    ByIndex(r, i, none);
    assert r[..i] == s[..i] && r[i + 1..] == s[i..];
    if after in s {
      ByIndex(s, i - 1, none);
      ByIndex(r, i - 1, none);
    }
  }

  lemma FollowingIs<T>(s: seq<T>, x: T, none: T)
    requires Distinct(s) && x in s && none !in s
    ensures var next := Following(s, x, none); next != x && (next == none || next in s)
  {
    IndexFinds(s, x);
  }

  /**
    Two elements restored in the order in which they were taken out.  The first one goes
    back to its place if what followed it is not the other one; then both are in their
    places if and only if they were not neighbours.
   */
  lemma SameOrder<T>(s: seq<T>, x: T, y: T, none: T)
    requires Distinct(s) && x in s && y in s && x != y && none !in s
    requires Following(s, x, none) != y
    ensures var once := Without(s, x);
            var first := InsertedBefore(Without(once, y), x, Following(s, x, none));
            && first == Without(s, y)
            && (InsertedBefore(first, y, Following(once, y, none)) == s <==> Following(s, y, none) != x)
  {
    hide Following, InsertedBefore, Without, Distinct;
    WithoutMembers(s, x);
    WithoutMembers(s, y);
    WithoutCommutes(s, x, y);
    FollowingWithout(s, y, x, none);
    RestoreUndoesDelete(Without(s, y), x, none);
    FollowingWithout(s, x, y, none);
    FollowingIs(s, x, none);
    if Following(s, y, none) == x {
      FollowingInserted(Without(s, y), y, Following(s, x, none), none);
    } else {
      RestoreUndoesDelete(s, y, none);
    }
  }
}
