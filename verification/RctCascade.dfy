/**
 The downward cascade: closing a resource keeps the invariant, closes nothing outside the
 part of the graph below it, and the successor saved by a list walk is still there when the
 walk comes to it.
 */
module RctCascade {
  import opened RctState
  import opened RctRefs
  import opened RctInvariant
  import opened RctRelease
  import opened RctClose

  // ---------------------------------------------------------------- definitions

  /** `x` is `b` or depends on it through a chain of parents. */
  predicate Below(nodes: seq<Node>, b: Id, x: Id)
    decreases x
  {
    || x == b
    || (x < |nodes| && |nodes[x].up| > 0 && nodes[x].up[0] < x && Below(nodes, b, nodes[x].up[0]))
    || (x < |nodes| && |nodes[x].up| > 1 && nodes[x].up[1] < x && Below(nodes, b, nodes[x].up[1]))
  }

  /** Everything that depends on a closed resource is closed, unless its close is in progress. */
  ghost predicate Settled(s: State, P: multiset<Id>) {
    forall c, p ::
      (0 <= c < |s.nodes| && !s.nodes[c].disposed && p in s.nodes[c].up && p < |s.nodes|
       && s.nodes[p].closed && p !in P) ==> s.nodes[c].closed
  }

  ghost predicate InFlight(s: State, P: multiset<Id>) {
    forall x :: x in P ==> x < |s.nodes| && s.nodes[x].closed
  }

  ghost predicate NoFailedBelow(s: State, b: Id) {
    forall x :: 0 <= x < |s.nodes| && !s.nodes[x].disposed && Below(s.nodes, b, x) ==> s.nodes[x].phase != Failed
  }

  /** The room slot of a router that is about to be closed names an undisposed room. */
  ghost predicate SlotAlive(s: State, b: Id) {
    forall x :: x in ListOf(s, b, Room) ==> x < |s.nodes| && !s.nodes[x].disposed
  }

  ghost predicate OnlyBelow(s: State, t: State, b: Id) {
    |t.nodes| == |s.nodes| &&
    forall x :: 0 <= x < |s.nodes| && t.nodes[x].closed && !s.nodes[x].closed ==> Below(s.nodes, b, x)
  }

  ghost predicate Steady(s: State, P: multiset<Id>) {
    GoodBut(s, P, {}, {}) && Settled(s, P) && InFlight(s, P)
  }

  ghost predicate Closes(s: State, t: State, P: multiset<Id>, b: Id) {
    Steady(t, P) && Evolves(s, t) && OnlyBelow(s, t, b)
  }

  ghost predicate MembersKept(s: State, t: State) {
    Untouched(s, t, Rank(Member))
  }

  ghost predicate ChildrenClosed(s: State, b: Id, k: Kind) {
    forall x :: 0 <= x < |s.nodes| && !s.nodes[x].disposed && s.nodes[x].kind == k && b in s.nodes[x].up ==>
      s.nodes[x].closed
  }

  // ---------------------------------------------------------------- facts about `Below`

  lemma {:induction false} BelowRank(s: State, b: Id, x: Id)
    requires Shape(s) && b < |s.nodes| && x < |s.nodes| && Below(s.nodes, b, x)
    ensures x == b || Rank(s.nodes[x].kind) > Rank(s.nodes[b].kind)
    decreases x
  {
    if x != b {
      assert ShapeAt(s.nodes, x);
      var j := if Below(s.nodes, b, s.nodes[x].up[0]) then 0 else 1;
      BelowRank(s, b, s.nodes[x].up[j]);
    }
  }

  lemma {:induction false} BelowTrans(nodes: seq<Node>, a: Id, b: Id, x: Id)
    requires Below(nodes, a, b) && Below(nodes, b, x)
    ensures Below(nodes, a, x)
    decreases x
  {
    if x != b {
      var j := if nodes[x].up[0] < x && Below(nodes, b, nodes[x].up[0]) then 0 else 1;
      BelowTrans(nodes, a, b, nodes[x].up[j]);
    }
  }

  lemma {:induction false} BelowSame(a: seq<Node>, c: seq<Node>, b: Id, x: Id)
    requires |a| == |c| && forall i :: 0 <= i < |a| ==> a[i].up == c[i].up
    ensures Below(a, b, x) <==> Below(c, b, x)
    decreases x
  {
    if x < |a| {
      if |a[x].up| > 0 && a[x].up[0] < x { BelowSame(a, c, b, a[x].up[0]); }
      if |a[x].up| > 1 && a[x].up[1] < x { BelowSame(a, c, b, a[x].up[1]); }
    }
  }

  lemma ChildBelow(s: State, b: Id, x: Id)
    requires Shape(s) && x < |s.nodes| && b in s.nodes[x].up
    ensures Below(s.nodes, b, x)
  {
    assert ShapeAt(s.nodes, x);
  }

  lemma EvolvesBelow(s: State, t: State, b: Id)
    requires Evolves(s, t)
    ensures forall x :: Below(s.nodes, b, x) <==> Below(t.nodes, b, x)
  {
    assert forall i :: 0 <= i < |s.nodes| ==> EvolvesTo(s.nodes[i], t.nodes[i]);
    forall x ensures Below(s.nodes, b, x) <==> Below(t.nodes, b, x) {
      BelowSame(s.nodes, t.nodes, b, x);
    }
  }

  lemma OnlyBelowTrans(s: State, t: State, u: State, a: Id, b: Id)
    requires Evolves(s, t) && OnlyBelow(s, t, a) && Evolves(t, u) && OnlyBelow(t, u, b) && Below(s.nodes, a, b)
    ensures Evolves(s, u) && OnlyBelow(s, u, a)
  {
    EvolvesTrans(s, t, u);
    EvolvesBelow(s, t, b);
    forall x | 0 <= x < |s.nodes| && u.nodes[x].closed && !s.nodes[x].closed ensures Below(s.nodes, a, x) {
      if !t.nodes[x].closed { BelowTrans(s.nodes, a, b, x); }
    }
  }

  lemma NoFailedEvolves(s: State, t: State, b: Id)
    requires NoFailedBelow(s, b) && Evolves(s, t)
    ensures NoFailedBelow(t, b)
  {
    EvolvesBelow(s, t, b);
    assert forall i :: 0 <= i < |s.nodes| ==> EvolvesTo(s.nodes[i], t.nodes[i]);
  }

  lemma NoFailedChild(s: State, t: Id, x: Id)
    requires NoFailedBelow(s, t) && Below(s.nodes, t, x)
    ensures NoFailedBelow(s, x)
  {
    forall y | 0 <= y < |s.nodes| && !s.nodes[y].disposed && Below(s.nodes, x, y) ensures s.nodes[y].phase != Failed {
      BelowTrans(s.nodes, t, x, y);
    }
  }

  // ---------------------------------------------------------------- survivors

  /** What is still open and wanted by its creator has not been disposed. */
  lemma OpenSurvives(t: State, P: multiset<Id>, y: Id)
    requires Balanced(t, P) && y < |t.nodes| && !t.nodes[y].closed && t.nodes[y].phase != Failed
    ensures !t.nodes[y].disposed
  {
    assert BalancedAt(t, P, y);
  }

  /** While no member is touched, nothing that was closed before can be disposed: it is held
      by somebody the cascade does not reach. */
  lemma {:induction false} ClosedSurvives(s: State, t: State, P: multiset<Id>, y: Id)
    requires Steady(s, P) && GoodBut(t, P, {}, {}) && Evolves(s, t) && MembersKept(s, t)
    requires y < |s.nodes| && !s.nodes[y].disposed && s.nodes[y].closed
    ensures !t.nodes[y].disposed
    decreases |s.nodes| - y
  {
    assert EvolvesTo(s.nodes[y], t.nodes[y]);
    assert BalancedAt(s, P, y) && BalancedAt(t, P, y);
    if s.nodes[y].phase == Live && s.borrows[y] == 0 && P[y] == 0 {
      var h := InWitness(s.nodes, y);
      assert ShapeAt(s.nodes, h);
      assert EvolvesTo(s.nodes[h], t.nodes[h]);
      if y in s.nodes[h].up {
        ClosedSurvives(s, t, P, h);
      } else {
        assert y in s.nodes[h].owned;
      }
      InAtLeast(t.nodes, h, y);
    }
  }

  // ---------------------------------------------------------------- walking

  lemma NextIs(k: Kind, l: seq<Id>, x: Id)
    requires Ordered(k, l) && x in l
    ensures Next(l, x).None? ==> forall z :: z in l ==> z == x || Before(k, z, x)
    ensures Next(l, x).Some? ==>
      var y := Next(l, x).value;
      && y in l && y != x
      && forall z :: z in l ==> z == x || Before(k, z, x) || z == y || Before(k, y, z)
  {
    var i := IndexOf(l, x);
    forall z | z in l ensures (exists j :: 0 <= j < |l| && l[j] == z) {
    }
    if i + 1 < |l| {
      var y := l[i + 1];
      assert forall j :: 0 <= j < i + 1 ==> Before(k, l[j], y);
      assert forall j :: 0 <= j < i + 1 ==> l[j] != y;
      assert y !in l[..i + 1];
    }
  }

  /** Elements of the list that come before `p` have been dealt with. */
  ghost predicate Visited(s: State, t: Id, k: Kind, p: Option<Id>) {
    forall z :: z in ListOf(s, t, k) ==>
      z < |s.nodes| && (s.nodes[z].closed || (p.Some? && (z == p.value || Before(k, p.value, z))))
  }

  // ---------------------------------------------------------------- marking

  lemma MarkBalanced(s: State, P: multiset<Id>, b: Id)
    requires Balanced(s, P) && b < |s.nodes| && !s.nodes[b].disposed && !s.nodes[b].closed && s.nodes[b].phase != Failed
    ensures Balanced(MarkClosed(s, b), P + multiset{b})
  {
    var t := MarkClosed(s, b);
    forall i | 0 <= i < |t.nodes| ensures BalancedAt(t, P + multiset{b}, i) {
      assert BalancedAt(s, P, i);
      InUpdate(s.nodes, b, t.nodes[b], i);
    }
  }

  lemma MarkRest(s: State, b: Id)
    requires Shape(s) && Owners(s) && Registry(s, {}) && b < |s.nodes|
    ensures var t := MarkClosed(s, b); Shape(t) && Owners(t) && Registry(t, {})
  {
    var t := MarkClosed(s, b);
    assert forall i :: 0 <= i < |s.nodes| ==> EvolvesTo(s.nodes[i], t.nodes[i]);
    assert Evolves(s, t);
    EvolvesShape(s, t);
    RegistryFrame(s, t, {}, {});
  }

  /** A member leaves its room's list in the same step in which it is marked. */
  function MarkAndLeave(s: State, b: Id): State
    requires b < |s.nodes|
  {
    var t := MarkClosed(s, b);
    if s.nodes[b].kind == Member then t.(lists := Unlink(t.lists, s.nodes[b].up, Member, b)) else t
  }

  lemma {:induction false} MarkChild(s: State, b: Id, p: Id, k: Kind, x: Id)
    requires b < |s.nodes| && !s.nodes[b].disposed && !s.nodes[b].closed
    ensures Child(MarkAndLeave(s, b).nodes, p, k, x) <==>
      Child(s.nodes, p, k, x) && !(x == b && k == Member)
  {
    hide Unlink;
    assert MarkAndLeave(s, b).nodes == s.nodes[b := s.nodes[b].(closed := true)];
  }

  lemma MarkList(s: State, b: Id, p: Id, k: Kind)
    requires b < |s.nodes| && p < |s.lists|
    ensures var l := s.lists[p].Get(k);
      |MarkAndLeave(s, b).lists| == |s.lists| &&
      MarkAndLeave(s, b).lists[p].Get(k) ==
        if s.nodes[b].kind == Member && k == Member && p in s.nodes[b].up then Remove(l, b) else l
  {
  }

  lemma ChildUp(s: State, p: Id, k: Kind, b: Id)
    requires Child(s.nodes, p, k, b)
    ensures b < |s.nodes| && s.nodes[b].kind == k && p in s.nodes[b].up
  {
  }

  lemma {:induction false} MarkListAt(s: State, b: Id, p: Id, k: Kind)
    requires Shape(s) && p < |s.lists| && ListAt(s, p, k) && IsListKind(k)
    requires b < |s.nodes| && !s.nodes[b].disposed && !s.nodes[b].closed
    ensures ListAt(MarkAndLeave(s, b), p, k)
  {
    hide MarkAndLeave, Child, Ordered, Shape, Remove;
    var t := MarkAndLeave(s, b);
    var l := s.lists[p].Get(k);
    MarkList(s, b, p, k);
    RemoveOrdered(k, l, b);
    if Child(s.nodes, p, k, b) { ChildUp(s, p, k, b); }
    forall x: Id ensures x in t.lists[p].Get(k) <==> Child(t.nodes, p, k, x) {
      MarkChild(s, b, p, k, x);
    }
  }

  lemma MarkLinks(s: State, b: Id)
    requires Shape(s) && Links(s) && b < |s.nodes| && !s.nodes[b].disposed && !s.nodes[b].closed
    ensures Links(MarkAndLeave(s, b))
  {
    var t := MarkAndLeave(s, b);
    forall p, k | 0 <= p < |t.lists| && IsListKind(k) ensures ListAt(t, p, k) {
      assert ListAt(s, p, k);
      MarkListAt(s, b, p, k);
    }
    MarkRooms(s, b);
  }

  lemma MarkRooms(s: State, b: Id)
    requires |s.lists| == |s.nodes| && Links(s) && b < |s.nodes|
    ensures var t := MarkAndLeave(s, b);
      && (forall r :: 0 <= r < |t.lists| ==> RoomAt(t, r))
      && (forall x :: 0 <= x < |t.nodes| ==> OpenRoomAt(t, x))
  {
    hide ListAt, Remove;
    var t := MarkAndLeave(s, b);
    forall r | 0 <= r < |t.lists| ensures t.lists[r].room == s.lists[r].room && RoomAt(t, r) {
      assert RoomAt(s, r);
    }
    forall x | 0 <= x < |t.nodes| ensures OpenRoomAt(t, x) {
      assert OpenRoomAt(s, x);
    }
  }

  lemma MarkGood(s: State, P: multiset<Id>, b: Id)
    requires GoodBut(s, P, {}, {}) && b < |s.nodes|
    requires !s.nodes[b].disposed && !s.nodes[b].closed && s.nodes[b].phase != Failed
    ensures GoodBut(MarkAndLeave(s, b), P + multiset{b}, {}, {})
  {
    var m := MarkClosed(s, b);
    var t := MarkAndLeave(s, b);
    MarkBalanced(s, P, b);
    MarkRest(s, b);
    MarkLinks(s, b);
    NodesFrame(m, t, P + multiset{b});
    assert NoHazard(t);
    assert PositiveBut(t, {});
  }

  /** Shape, ledger, owners and registry do not look at the lists. */
  lemma NodesFrame(m: State, t: State, P: multiset<Id>)
    requires Shape(m) && Balanced(m, P) && Owners(m) && Registry(m, {})
    requires t == m.(lists := t.lists) && |t.lists| == |m.lists|
    ensures Shape(t) && Balanced(t, P) && Owners(t) && Registry(t, {})
  {
    forall i | 0 <= i < |t.nodes| ensures BalancedAt(t, P, i) {
      assert BalancedAt(m, P, i);
    }
    RegistryFrame(m, t, {}, {});
  }

  lemma MarkSettled(s: State, P: multiset<Id>, b: Id)
    requires Settled(s, P) && InFlight(s, P) && b < |s.nodes|
    ensures var t := MarkAndLeave(s, b); Settled(t, P + multiset{b}) && InFlight(t, P + multiset{b})
    ensures var t := MarkAndLeave(s, b); Evolves(s, t) && OnlyBelow(s, t, b)
  {
    hide Unlink;
    assert MarkAndLeave(s, b).nodes == s.nodes[b := s.nodes[b].(closed := true)];
  }

  lemma {:induction false} MarkSteady(s: State, P: multiset<Id>, b: Id)
    requires Steady(s, P) && b < |s.nodes| && !s.nodes[b].disposed && !s.nodes[b].closed && s.nodes[b].phase != Failed
    ensures Closes(s, MarkAndLeave(s, b), P + multiset{b}, b) && MarkAndLeave(s, b).nodes[b].closed
    ensures s.nodes[b].kind != Member ==> MembersKept(s, MarkAndLeave(s, b))
  {
    MarkGood(s, P, b);
    MarkSettled(s, P, b);
  }

  // ---------------------------------------------------------------- releasing the main reference

  lemma SettledEvolves(s: State, t: State, P: multiset<Id>, b: Id)
    requires Settled(s, P + multiset{b}) && InFlight(s, P) && Evolves(s, t) && SameClosed(s, t)
    requires forall k :: ChildrenClosed(s, b, k)
    ensures Settled(t, P) && InFlight(t, P) && OnlyBelow(s, t, b)
  {
    assert forall i :: 0 <= i < |s.nodes| ==> EvolvesTo(s.nodes[i], t.nodes[i]);
    forall c, p | 0 <= c < |t.nodes| && !t.nodes[c].disposed && p in t.nodes[c].up && p < |t.nodes|
                  && t.nodes[p].closed && p !in P
      ensures t.nodes[c].closed
    {
      if p == b { assert ChildrenClosed(s, b, s.nodes[c].kind); }
    }
  }

  lemma {:induction false} ReleaseMain(s: State, P: multiset<Id>, b: Id)
    requires Steady(s, P + multiset{b}) && b < |s.nodes| && InFlight(s, P)
    requires forall k :: ChildrenClosed(s, b, k)
    ensures Closes(s, RefLk(s, b, -1), P, b)
    ensures s.nodes[b].kind != Member ==> MembersKept(s, RefLk(s, b, -1))
  {
    AddRefsGood(s, P, {}, b);
    RefLkGood(s, P, {}, b, -1);
    RefLkFrame(s, b, -1);
    assert FrameAt(s, RefLk(s, b, -1), b);
    SettledEvolves(s, RefLk(s, b, -1), P, b);
  }

  // ---------------------------------------------------------------- the cascade

  lemma NoChildren(s: State, b: Id, k: Kind)
    requires Shape(s) && b < |s.nodes| && s.nodes[b].kind !in ParentKinds(k)
    ensures ChildrenClosed(s, b, k)
  {
    forall x | 0 <= x < |s.nodes| && s.nodes[x].kind == k ensures b !in s.nodes[x].up {
      assert ShapeAt(s.nodes, x);
    }
  }

  lemma ListedClosed(s: State, b: Id, k: Kind)
    requires Links(s) && b < |s.lists| && IsListKind(k)
    requires forall x :: x in ListOf(s, b, k) ==> x < |s.nodes| && s.nodes[x].closed
    ensures ChildrenClosed(s, b, k)
  {
    assert ListAt(s, b, k);
    forall x | 0 <= x < |s.nodes| && !s.nodes[x].disposed && s.nodes[x].kind == k && b in s.nodes[x].up
      ensures s.nodes[x].closed
    {
      assert Child(s.nodes, b, k, x) <==> x in ListOf(s, b, k);
    }
  }

  lemma ChildrenStayClosed(s: State, t: State, b: Id, k: Kind)
    requires ChildrenClosed(s, b, k) && Evolves(s, t)
    ensures ChildrenClosed(t, b, k)
  {
    assert forall i :: 0 <= i < |s.nodes| ==> EvolvesTo(s.nodes[i], t.nodes[i]);
  }

  /** Closing one element of a list leaves every other listed sibling where it was. */
  lemma SiblingSurvives(s: State, s1: State, P: multiset<Id>, t: Id, k: Kind, x: Id, y: Id)
    requires Steady(s, P) && t < |s.lists| && IsListKind(k) && NoFailedBelow(s, t)
    requires x in ListOf(s, t, k) && y in ListOf(s, t, k) && x != y
    requires x < |s.nodes| && Closes(s, s1, P, x) && (k != Member ==> MembersKept(s, s1))
    ensures y in ListOf(s1, t, k)
  {
    assert ListAt(s, t, k) && ListAt(s1, t, k);
    assert Child(s.nodes, t, k, x) && Child(s.nodes, t, k, y);
    assert EvolvesTo(s.nodes[y], s1.nodes[y]);
    ChildBelow(s, t, y);
    assert s1.nodes[y].closed == s.nodes[y].closed by {
      if s1.nodes[y].closed && !s.nodes[y].closed { BelowRank(s, x, y); }
    }
    if s.nodes[y].closed {
      ClosedSurvives(s, s1, P, y);
    } else {
      OpenSurvives(s1, P, y);
    }
    assert Child(s1.nodes, t, k, y);
  }

  /** The saved successor is valid, and whatever precedes it has been closed. */
  lemma WalkStep(s: State, s1: State, P: multiset<Id>, t: Id, k: Kind, x: Id)
    requires Steady(s, P) && t < |s.lists| && IsListKind(k) && NoFailedBelow(s, t)
    requires x in ListOf(s, t, k) && Visited(s, t, k, Some(x))
    requires x < |s.nodes| && Closes(s, s1, P, x) && s1.nodes[x].closed && (k != Member ==> MembersKept(s, s1))
    ensures
      var n := Next(ListOf(s, t, k), x);
      Visited(s1, t, k, n) && (n.Some? ==> n.value in ListOf(s1, t, k))
  {
    hide Settled, InFlight, OnlyBelow, NoFailedBelow, Shape, Balanced, Registry, Owners, Evolves, Untouched;
    var n := Next(ListOf(s, t, k), x);
    SizesAgree(s, s1, P, x);
    assert ListAt(s, t, k);
    NextIs(k, ListOf(s, t, k), x);
    if n.Some? { SiblingSurvives(s, s1, P, t, k, x, n.value); }
    forall z | z in ListOf(s1, t, k)
      ensures z < |s1.nodes| && (s1.nodes[z].closed || (n.Some? && (z == n.value || Before(k, n.value, z))))
    {
      ListedBefore(s, s1, t, k, z);
    }
  }

  lemma SizesAgree(s: State, s1: State, P: multiset<Id>, x: Id)
    requires Steady(s, P) && Closes(s, s1, P, x)
    ensures |s.lists| == |s.nodes| && |s1.lists| == |s1.nodes| && |s1.nodes| == |s.nodes|
  {
  }

  /** What is in a list after a close was there before; what was closed stays closed. */
  lemma ListedBefore(s: State, s1: State, t: Id, k: Kind, z: Id)
    requires Links(s) && Links(s1) && t < |s.lists| && |s.lists| == |s.nodes| && IsListKind(k) && Evolves(s, s1)
    requires z in ListOf(s1, t, k)
    ensures z in ListOf(s, t, k) && z < |s1.nodes| && z < |s.nodes| && (s.nodes[z].closed ==> s1.nodes[z].closed)
  {
    assert ListAt(s, t, k) && ListAt(s1, t, k);
    assert Child(s1.nodes, t, k, z);
    assert EvolvesTo(s.nodes[z], s1.nodes[z]);
    assert Child(s.nodes, t, k, z);
  }

  lemma SteadyParts(s: State, P: multiset<Id>)
    requires Steady(s, P)
    ensures Shape(s) && Links(s) && |s.lists| == |s.nodes|
  {
  }

  lemma NotFailed(s: State, b: Id)
    requires NoFailedBelow(s, b) && b < |s.nodes| && !s.nodes[b].disposed
    ensures s.nodes[b].phase != Failed
  {
    assert Below(s.nodes, b, b);
  }

  lemma EvolvesAt(s: State, t: State, b: Id)
    requires Evolves(s, t) && b < |s.nodes|
    ensures |t.nodes| == |s.nodes| && |t.lists| == |s.lists| && EvolvesTo(s.nodes[b], t.nodes[b])
  {
  }

  lemma InFlightMinus(s: State, P: multiset<Id>, b: Id)
    requires InFlight(s, P + multiset{b})
    ensures InFlight(s, P)
  {
    assert forall x :: x in P ==> x in P + multiset{b};
  }

  lemma SlotAliveSame(s: State, b: Id)
    requires b < |s.nodes| && SlotAlive(s, b) && s.nodes[b].kind != Member
    ensures SlotAlive(MarkAndLeave(s, b), b)
  {
    var t := MarkAndLeave(s, b);
    assert ListOf(t, b, Room) == ListOf(s, b, Room);
    forall x | x in ListOf(t, b, Room) ensures x < |t.nodes| && !t.nodes[x].disposed {
      assert x in ListOf(s, b, Room);
    }
  }

  lemma {:induction false} CloseLkSteady(s: State, P: multiset<Id>, b: Id)
    requires Steady(s, P) && b < |s.nodes| && !s.nodes[b].disposed && NoFailedBelow(s, b)
    requires s.nodes[b].kind == Router ==> SlotAlive(s, b)
    ensures Closes(s, CloseLk(s, b), P, b) && CloseLk(s, b).nodes[b].closed
    ensures s.nodes[b].kind !in {Router, Room, Member} ==> MembersKept(s, CloseLk(s, b))
    decreases OpenSet(s.nodes), 0, 0
  {
    if s.nodes[b].closed {
      assert CloseLk(s, b) == s;
    } else {
      CloseOpen(s, P, b);
    }
  }

  lemma CloseLkOpen(s: State, b: Id)
    requires b < |s.nodes| && !s.nodes[b].disposed && !s.nodes[b].closed
    ensures CloseLk(s, b) == RefLk(CloseBody(MarkClosed(s, b), b), b, -1)
  {
  }

  lemma MarkOpens(s: State, b: Id)
    requires b < |s.nodes|
    ensures OpenSet(MarkAndLeave(s, b).nodes) == OpenSet(s.nodes) - {b}
    ensures s.nodes[b].kind == Member ==> CloseBody(MarkClosed(s, b), b) == MarkAndLeave(s, b)
    ensures s.nodes[b].kind != Member ==> MarkClosed(s, b) == MarkAndLeave(s, b)
  {
  }

  lemma CloseBodyRouter(s: State, b: Id)
    requires b < |s.nodes| && s.nodes[b].kind == Router
    ensures
      var s1 := CloseRoomSlot(s, b);
      var s2 := WalkLk(s1, b, Transport, First(ListOf(s1, b, Transport)));
      CloseBody(s, b) == WalkLk(s2, b, Observer, First(ListOf(s2, b, Observer)))
  {
  }

  lemma CloseBodyTransport(s: State, b: Id)
    requires b < |s.nodes| && s.nodes[b].kind == Transport
    ensures
      var s1 := WalkLk(s, b, Producer, First(ListOf(s, b, Producer)));
      CloseBody(s, b) == WalkLk(s1, b, Consumer, First(ListOf(s1, b, Consumer)))
  {
  }

  lemma CloseBodyParent(s: State, b: Id, k: Kind)
    requires b < |s.nodes|
    requires (s.nodes[b].kind == Producer && k == Consumer) || (s.nodes[b].kind == Room && k == Member)
    ensures CloseBody(s, b) == WalkLk(s, b, k, First(ListOf(s, b, k)))
  {
  }

  lemma {:induction false} CloseOpen(s: State, P: multiset<Id>, b: Id)
    requires Steady(s, P) && b < |s.nodes| && !s.nodes[b].disposed && !s.nodes[b].closed && NoFailedBelow(s, b)
    requires s.nodes[b].kind == Router ==> SlotAlive(s, b)
    ensures Closes(s, CloseLk(s, b), P, b) && CloseLk(s, b).nodes[b].closed
    ensures s.nodes[b].kind !in {Router, Room, Member} ==> MembersKept(s, CloseLk(s, b))
    decreases OpenSet(s.nodes) - {b}, 4, 0
  {
    hide GoodBut, Settled, InFlight, Evolves, NoFailedBelow, SlotAlive, OnlyBelow, Untouched, ChildrenClosed, CloseBody, WalkLk, CloseLk, CloseRoomSlot, RefLk, MarkAndLeave, MarkClosed, ListOf, First;
    CloseLkOpen(s, b);
    MarkOpens(s, b);
    var Q := P + multiset{b};
    var s1 := MarkAndLeave(s, b);
    var s2 := CloseBody(MarkClosed(s, b), b);
    var t := RefLk(s2, b, -1);
    NotFailed(s, b);
    MarkSteady(s, P, b);
    EvolvesAt(s, s1, b);
    SteadyParts(s1, Q);
    if s.nodes[b].kind == Member {
      forall k ensures ChildrenClosed(s2, b, k) { NoChildren(s2, b, k); }
    } else {
      NoFailedEvolves(s, s1, b);
      if s.nodes[b].kind == Router { SlotAliveSame(s, b); }
      CloseBodySteady(s1, Q, b);
      OnlyBelowTrans(s, s1, s2, b, b);
    }
    EvolvesAt(s, s2, b);
    InFlightMinus(s2, P, b);
    ReleaseMain(s2, P, b);
    OnlyBelowTrans(s, s2, t, b, b);
    EvolvesAt(s2, t, b);
    if s.nodes[b].kind !in {Router, Room, Member} { KeptTrans(s, s1, s2); KeptTrans(s, s2, t); }
  }

  lemma KeptTrans(s: State, t: State, u: State)
    requires Evolves(s, t) && MembersKept(s, t) && MembersKept(t, u)
    ensures MembersKept(s, u)
  {
    assert forall i :: 0 <= i < |s.nodes| ==> EvolvesTo(s.nodes[i], t.nodes[i]);
  }

  lemma AllChildrenClosed(t: State, P: multiset<Id>, b: Id)
    requires Steady(t, P) && b < |t.nodes|
    requires forall k :: t.nodes[b].kind in ParentKinds(k) ==> ChildrenClosed(t, b, k)
    ensures forall k :: ChildrenClosed(t, b, k)
  {
    hide GoodBut, Settled, InFlight, ChildrenClosed;
    SteadyParts(t, P);
    forall k ensures ChildrenClosed(t, b, k) {
      if t.nodes[b].kind !in ParentKinds(k) { NoChildren(t, b, k); }
    }
  }

  ghost predicate BodyDone(s: State, t: State, P: multiset<Id>, b: Id)
    requires b < |s.nodes|
  {
    && Closes(s, t, P, b) && (forall k :: ChildrenClosed(t, b, k))
    && (s.nodes[b].kind !in {Router, Room} ==> MembersKept(s, t))
  }

  lemma {:induction false} CloseBodySteady(s: State, P: multiset<Id>, b: Id)
    requires Steady(s, P) && b < |s.nodes| && s.nodes[b].kind != Member && b in P && NoFailedBelow(s, b)
    requires s.nodes[b].kind == Router ==> SlotAlive(s, b)
    ensures BodyDone(s, CloseBody(s, b), P, b)
    decreases OpenSet(s.nodes), 3, 0
  {
    hide *;
    match s.nodes[b].kind {
      case Router => CloseRouterSteady(s, P, b);
      case Transport => CloseTransportSteady(s, P, b);
      case Producer => CloseParentSteady(s, P, b, Consumer);
      case Room => CloseParentSteady(s, P, b, Member);
      case _ => CloseLeafSteady(s, P, b);
    }
  }

  lemma CloseLeafSteady(s: State, P: multiset<Id>, b: Id)
    requires Steady(s, P) && b < |s.nodes| && s.nodes[b].kind in {Consumer, Observer}
    ensures BodyDone(s, CloseBody(s, b), P, b)
  {
    hide GoodBut, Settled, InFlight, Evolves, OnlyBelow, Untouched, ChildrenClosed;
    Unchanged(s, P, b);
    AllChildrenClosed(s, P, b);
  }

  lemma {:induction false} CloseParentSteady(s: State, P: multiset<Id>, b: Id, k: Kind)
    requires Steady(s, P) && b < |s.nodes| && b in P && NoFailedBelow(s, b)
    requires (s.nodes[b].kind == Producer && k == Consumer) || (s.nodes[b].kind == Room && k == Member)
    ensures BodyDone(s, CloseBody(s, b), P, b)
    decreases OpenSet(s.nodes), 2, 0
  {
    hide GoodBut, Settled, InFlight, Evolves, NoFailedBelow, SlotAlive, OnlyBelow, Untouched, ChildrenClosed, CloseBody, WalkLk, CloseLk, CloseRoomSlot, RefLk, MarkAndLeave, MarkClosed, ListOf, First;
    CloseBodyParent(s, b, k);
    var t := WalkLk(s, b, k, First(ListOf(s, b, k)));
    WalkAll(s, P, b, k);
    EvolvesAt(s, t, b);
    AllChildrenClosed(t, P, b);
  }

  lemma {:induction false} CloseRouterSteady(s: State, P: multiset<Id>, b: Id)
    requires Steady(s, P) && b < |s.nodes| && s.nodes[b].kind == Router && b in P && NoFailedBelow(s, b) && SlotAlive(s, b)
    ensures BodyDone(s, CloseBody(s, b), P, b)
    decreases OpenSet(s.nodes), 2, 0
  {
    hide GoodBut, Settled, InFlight, Evolves, NoFailedBelow, SlotAlive, OnlyBelow, Untouched, ChildrenClosed, CloseBody, WalkLk, CloseLk, CloseRoomSlot, RefLk, MarkAndLeave, MarkClosed, ListOf, First;
    CloseBodyRouter(s, b);
    var s1 := CloseRoomSlot(s, b);
    var s2 := WalkLk(s1, b, Transport, First(ListOf(s1, b, Transport)));
    var t := WalkLk(s2, b, Observer, First(ListOf(s2, b, Observer)));
    RoomSlotSteady(s, P, b);
    EvolvesAt(s, s1, b);
    NoFailedEvolves(s, s1, b);
    WalkAll(s1, P, b, Transport);
    EvolvesAt(s1, s2, b);
    NoFailedEvolves(s1, s2, b);
    WalkAll(s2, P, b, Observer);
    OnlyBelowTrans(s, s1, s2, b, b);
    OnlyBelowTrans(s, s2, t, b, b);
    ChildrenStayClosed(s1, s2, b, Room);
    ChildrenStayClosed(s2, t, b, Room);
    ChildrenStayClosed(s2, t, b, Transport);
    EvolvesAt(s, t, b);
    AllChildrenClosed(t, P, b);
  }

  lemma {:induction false} CloseTransportSteady(s: State, P: multiset<Id>, b: Id)
    requires Steady(s, P) && b < |s.nodes| && s.nodes[b].kind == Transport && b in P && NoFailedBelow(s, b)
    ensures BodyDone(s, CloseBody(s, b), P, b)
    decreases OpenSet(s.nodes), 2, 0
  {
    hide GoodBut, Settled, InFlight, Evolves, NoFailedBelow, SlotAlive, OnlyBelow, Untouched, ChildrenClosed, CloseBody, WalkLk, CloseLk, CloseRoomSlot, RefLk, MarkAndLeave, MarkClosed, ListOf, First;
    CloseBodyTransport(s, b);
    var s1 := WalkLk(s, b, Producer, First(ListOf(s, b, Producer)));
    var t := WalkLk(s1, b, Consumer, First(ListOf(s1, b, Consumer)));
    WalkAll(s, P, b, Producer);
    EvolvesAt(s, s1, b);
    NoFailedEvolves(s, s1, b);
    WalkAll(s1, P, b, Consumer);
    OnlyBelowTrans(s, s1, t, b, b);
    ChildrenStayClosed(s1, t, b, Producer);
    KeptTrans(s, s1, t);
    EvolvesAt(s, t, b);
    AllChildrenClosed(t, P, b);
  }

  lemma Unchanged(s: State, P: multiset<Id>, b: Id)
    requires Steady(s, P)
    ensures Closes(s, s, P, b) && MembersKept(s, s)
  {
  }

  lemma {:induction false} RoomSlotSteady(s: State, P: multiset<Id>, b: Id)
    requires Steady(s, P) && b < |s.nodes| && s.nodes[b].kind == Router && b in P && NoFailedBelow(s, b) && SlotAlive(s, b)
    ensures Closes(s, CloseRoomSlot(s, b), P, b) && ChildrenClosed(CloseRoomSlot(s, b), b, Room)
    decreases OpenSet(s.nodes), 1, 0
  {
    hide GoodBut, Settled, InFlight, Evolves, NoFailedBelow, OnlyBelow, Untouched, ChildrenClosed;
    var slot := ListOf(s, b, Room);
    SteadyParts(s, P);
    SlotShape(s, b);
    if slot == [] {
      Unchanged(s, P, b);
    } else {
      var x := slot[0];
      var s1 := CloseLk(s, x);
      assert x in slot;
      ChildBelow(s, b, x);
      NoFailedChild(s, b, x);
      CloseLkSteady(s, P, x);
      Unchanged(s, P, b);
      OnlyBelowTrans(s, s, s1, b, x);
      ForgetRoom(s, s1, P, b, x);
      SameNodesCloses(s, s1, PutList(s1, b, Room, []), P, b);
    }
  }

  lemma SameNodesCloses(s: State, s1: State, t: State, P: multiset<Id>, b: Id)
    requires Evolves(s, s1) && OnlyBelow(s, s1, b) && Steady(t, P)
    requires t.nodes == s1.nodes && |t.lists| == |s1.lists| && t.borrows == s1.borrows
    ensures Closes(s, t, P, b)
  {
  }

  lemma SlotShape(s: State, b: Id)
    requires Shape(s) && Links(s) && b < |s.lists|
    ensures ListOf(s, b, Room) == [] ==> ChildrenClosed(s, b, Room)
    ensures ListOf(s, b, Room) != [] ==>
      var x := ListOf(s, b, Room)[0];
      ListOf(s, b, Room) == [x] && x < |s.nodes| && s.nodes[x].kind == Room && s.nodes[x].up == [b]
  {
    assert RoomAt(s, b);
    if ListOf(s, b, Room) == [] {
      forall x | 0 <= x < |s.nodes| && !s.nodes[x].disposed && s.nodes[x].kind == Room && b in s.nodes[x].up
        ensures s.nodes[x].closed
      {
        assert OpenRoomAt(s, x);
        assert ShapeAt(s.nodes, x);
      }
    } else {
      assert ListOf(s, b, Room)[0] in ListOf(s, b, Room);
    }
  }

  lemma ForgetChildren(s: State, s1: State, b: Id, x: Id)
    requires Shape(s) && Links(s) && Evolves(s, s1) && b < |s.nodes| && x < |s.nodes|
    requires ListOf(s, b, Room) == [x] && s1.nodes[x].closed
    ensures ChildrenClosed(s1, b, Room)
  {
    assert forall i :: 0 <= i < |s.nodes| ==> EvolvesTo(s.nodes[i], s1.nodes[i]);
    forall y | 0 <= y < |s1.nodes| && !s1.nodes[y].disposed && s1.nodes[y].kind == Room && b in s1.nodes[y].up
      ensures s1.nodes[y].closed
    {
      assert OpenRoomAt(s, y);
      assert ShapeAt(s.nodes, y);
    }
  }

  lemma ForgetLinks(s: State, b: Id)
    requires Links(s) && b < |s.lists| && ChildrenClosed(s, b, Room)
    ensures Links(PutList(s, b, Room, []))
  {
    var t := PutList(s, b, Room, []);
    forall p, k | 0 <= p < |t.lists| && IsListKind(k) ensures ListAt(t, p, k) {
      assert ListAt(s, p, k);
      assert t.lists[p].Get(k) == s.lists[p].Get(k);
    }
    forall r | 0 <= r < |t.lists| ensures RoomAt(t, r) { assert RoomAt(s, r); }
    forall y | 0 <= y < |t.nodes| ensures OpenRoomAt(t, y) {
      assert OpenRoomAt(s, y);
      var n := t.nodes[y];
      if n.kind == Room && !n.disposed && !n.closed { assert n.up[0] in n.up; }
    }
  }

  lemma ForgetRoom(s: State, s1: State, P: multiset<Id>, b: Id, x: Id)
    requires Steady(s, P) && Steady(s1, P) && Evolves(s, s1) && b < |s.nodes| && x < |s.nodes|
    requires ListOf(s, b, Room) == [x] && s1.nodes[x].closed
    ensures var t := PutList(s1, b, Room, []);
      Steady(t, P) && t.nodes == s1.nodes && |t.lists| == |s1.lists| && t.borrows == s1.borrows
      && ChildrenClosed(t, b, Room)
  {
    SteadyParts(s, P);
    SteadyParts(s1, P);
    ForgetChildren(s, s1, b, x);
    ForgetLinks(s1, b);
    ForgetSteady(s1, P, b);
  }

  lemma ForgetSteady(s: State, P: multiset<Id>, b: Id)
    requires Steady(s, P) && Links(PutList(s, b, Room, [])) && b < |s.lists|
    ensures Steady(PutList(s, b, Room, []), P)
  {
    hide Links;
    NodesFrame(s, PutList(s, b, Room, []), P);
  }

  lemma {:induction false} WalkAll(s: State, P: multiset<Id>, t: Id, k: Kind)
    requires Steady(s, P) && t < |s.nodes| && t in P && IsListKind(k) && NoFailedBelow(s, t)
    ensures var r := WalkLk(s, t, k, First(ListOf(s, t, k)));
      Closes(s, r, P, t) && ChildrenClosed(r, t, k) && (k != Member ==> MembersKept(s, r))
    decreases OpenSet(s.nodes), 1, |ListOf(s, t, k)| + 2
  {
    hide GoodBut, Settled, InFlight, Evolves, NoFailedBelow, OnlyBelow, Untouched, ChildrenClosed;
    var l := ListOf(s, t, k);
    SteadyParts(s, P);
    StartVisited(s, t, k);
    WalkSteady(s, P, t, k, First(l));
    var r := WalkLk(s, t, k, First(l));
    SteadyParts(r, P);
    EvolvesAt(s, r, t);
    ListedClosed(r, t, k);
  }

  lemma StartVisited(s: State, t: Id, k: Kind)
    requires Links(s) && t < |s.lists| && IsListKind(k)
    ensures Visited(s, t, k, First(ListOf(s, t, k)))
  {
    assert ListAt(s, t, k);
    forall z | z in ListOf(s, t, k) ensures z < |s.nodes| && (z == ListOf(s, t, k)[0] || Before(k, ListOf(s, t, k)[0], z)) {
      assert Child(s.nodes, t, k, z);
    }
  }

  lemma ListedChild(s: State, t: Id, k: Kind, x: Id)
    requires Shape(s) && Links(s) && t < |s.lists| && IsListKind(k) && x in ListOf(s, t, k)
    ensures Child(s.nodes, t, k, x) && Below(s.nodes, t, x)
  {
    assert ListAt(s, t, k);
    ChildBelow(s, t, x);
  }

  lemma {:induction false} WalkSteady(s: State, P: multiset<Id>, t: Id, k: Kind, p: Option<Id>)
    requires Steady(s, P) && t < |s.nodes| && t in P && IsListKind(k) && NoFailedBelow(s, t)
    requires p.Some? ==> p.value in ListOf(s, t, k)
    requires Visited(s, t, k, p)
    ensures var r := WalkLk(s, t, k, p);
      Closes(s, r, P, t) && Visited(r, t, k, None) && (k != Member ==> MembersKept(s, r))
    decreases OpenSet(s.nodes), 1, Remaining(s, t, k, p)
  {
    hide GoodBut, Settled, InFlight, Evolves, NoFailedBelow, OnlyBelow, Untouched, Visited, Shape, Links;
    Unchanged(s, P, t);
    if p.Some? {
      var x := p.value;
      var n := Next(ListOf(s, t, k), x);
      var s1 := CloseLk(s, x);
      var r := WalkLk(s1, t, k, n);
      SteadyParts(s, P);
      ListedChild(s, t, k, x);
      NoFailedChild(s, t, x);
      CloseLkSteady(s, P, x);
      WalkStep(s, s1, P, t, k, x);
      NoFailedEvolves(s, s1, t);
      EvolvesAt(s, s1, t);
      WalkSteady(s1, P, t, k, n);
      OnlyBelowTrans(s, s, s1, t, x);
      OnlyBelowTrans(s, s1, r, t, t);
      if k != Member { KeptTrans(s, s1, r); }
    }
  }
}
