/**
 Closing a router above resources that their creators have given up. The router walks its
 transports from the newest to the oldest; what was given up on an older one may be gone before
 its turn comes, when only resources held it that went away earlier. So such a close keeps things
 in order exactly if whatever was given up is gone in time, and what "in time" means can be read
 off the state before the close.
 */
module RctRouterClose {
  import opened RctState
  import opened RctRefs
  import opened RctInvariant
  import opened RctRelease
  import opened RctClose
  import opened RctCascade
  import opened RctCreation
  import opened RctProtocol
  import opened RctRooms
  import opened RctHistory
  import opened RctSurvival
  import opened RctGivenUp
  import opened RctGivenUpBelow

  // ---------------------------------------------------------------- the walk meets nothing given up

  /** At each turn of the walk the child is there and nothing at or below it was given up. */
  ghost predicate Smooth(s: State, t: Id, k: Kind, q: Option<Id>)
    decreases OpenSet(s.nodes), 1, Remaining(s, t, k, q)
  {
    match q
    case None => true
    case Some(x) =>
      && Alive(s, x) && NoFailedBelow(s, x)
      && Smooth(CloseLk(s, x), t, k, Next(ListOf(s, t, k), x))
  }

  predicate RouterList(k: Kind) {
    k in {Transport, Observer}
  }

  /** One turn; the saved successor, if it is still there, is still listed. */
  lemma SmoothTurn(s: State, P: multiset<Id>, t: Id, k: Kind, x: Id)
    requires Steady(s, P) && t < |s.nodes| && RouterList(k) && x in ListOf(s, t, k) && Visited(s, t, k, Some(x))
    requires Alive(s, x) && NoFailedBelow(s, x)
    requires var n := Next(ListOf(s, t, k), x); n.Some? ==> Alive(CloseLk(s, x), n.value)
    ensures var s1 := CloseLk(s, x); var n := Next(ListOf(s, t, k), x);
      && Closes(s, s1, P, t) && MembersKept(s, s1) && s1.nodes[x].closed
      && Visited(s1, t, k, n) && (n.Some? ==> n.value in ListOf(s1, t, k))
  {
    hide GoodBut, Settled, InFlight, Evolves, NoFailedBelow, OnlyBelow, Untouched, Visited, Shape, Links, CloseLk;
    var s1 := CloseLk(s, x);
    var n := Next(ListOf(s, t, k), x);
    SteadyParts(s, P);
    ListedChild(s, t, k, x);
    CloseLkSteady(s, P, x);
    SteadyParts(s1, P);
    SmoothStep(s, s1, P, t, k, x);
    Unchanged(s, P, t);
    OnlyBelowTrans(s, s, s1, t, x);
  }

  lemma SmoothStep(s: State, s1: State, P: multiset<Id>, t: Id, k: Kind, x: Id)
    requires Steady(s, P) && t < |s.lists| && RouterList(k) && x in ListOf(s, t, k) && Visited(s, t, k, Some(x))
    requires x < |s.nodes| && Closes(s, s1, P, x) && s1.nodes[x].closed
    requires var n := Next(ListOf(s, t, k), x); n.Some? ==> Alive(s1, n.value)
    ensures var n := Next(ListOf(s, t, k), x); Visited(s1, t, k, n) && (n.Some? ==> n.value in ListOf(s1, t, k))
  {
    hide Settled, InFlight, OnlyBelow, Shape, Balanced, Registry, Owners, Evolves;
    var n := Next(ListOf(s, t, k), x);
    SizesAgree(s, s1, P, x);
    assert ListAt(s, t, k) && ListAt(s1, t, k);
    NextIs(k, ListOf(s, t, k), x);
    if n.Some? {
      EvolvesAt(s, s1, n.value);
      assert Child(s.nodes, t, k, n.value) && Child(s1.nodes, t, k, n.value);
    }
    forall z | z in ListOf(s1, t, k)
      ensures z < |s1.nodes| && (s1.nodes[z].closed || (n.Some? && (z == n.value || Before(k, n.value, z))))
    {
      ListedBefore(s, s1, t, k, z);
    }
  }

  lemma {:induction false} SmoothWalk(s: State, P: multiset<Id>, t: Id, k: Kind, q: Option<Id>)
    requires Steady(s, P) && t < |s.nodes| && RouterList(k) && Smooth(s, t, k, q) && Visited(s, t, k, q)
    requires q.Some? ==> q.value in ListOf(s, t, k)
    ensures var r := WalkLk(s, t, k, q); Closes(s, r, P, t) && MembersKept(s, r) && Visited(r, t, k, None)
    decreases OpenSet(s.nodes), Remaining(s, t, k, q)
  {
    hide GoodBut, Settled, InFlight, Evolves, NoFailedBelow, OnlyBelow, Untouched, Visited, Shape, Links, CloseLk;
    Unchanged(s, P, t);
    if q.Some? {
      var x := q.value;
      var n := Next(ListOf(s, t, k), x);
      var s1 := CloseLk(s, x);
      var r := WalkLk(s1, t, k, n);
      assert Smooth(s1, t, k, n);
      assert n.Some? ==> Alive(s1, n.value);
      SmoothTurn(s, P, t, k, x);
      EvolvesAt(s, s1, t);
      SmoothWalk(s1, P, t, k, n);
      SteadyParts(s, P);
      ChildSelf(s, t);
      OnlyBelowTrans(s, s1, r, t, t);
      KeptTrans(s, s1, r);
    }
  }

  lemma ChildSelf(s: State, t: Id)
    ensures Below(s.nodes, t, t)
  {
  }

  // ---------------------------------------------------------------- or it leaves something wrong

  /** A member or a thread holds `y`; closing what routers list does not change that. */
  ghost predicate Pinned(s: State, y: Id) {
    y in s.borrows || exists m :: 0 <= m < |s.nodes| && s.nodes[m].kind == Member && !s.nodes[m].disposed && y in s.nodes[m].owned
  }

  /** Whatever follows, `y` will not be in order when everything above it is closed. */
  ghost predicate Doomed(s: State, y: Id) {
    Under(s, y, 0) && (s.fault || s.nodes[y].closed || Pinned(s, y))
  }

  lemma PinnedStays(s: State, t: State, y: Id)
    requires Pinned(s, y) && MembersKept(s, t) && t.borrows == s.borrows && |t.nodes| == |s.nodes|
    ensures Pinned(t, y)
  {
    if y !in s.borrows {
      var m :| 0 <= m < |s.nodes| && s.nodes[m].kind == Member && !s.nodes[m].disposed && y in s.nodes[m].owned;
      assert t.nodes[m] == s.nodes[m];
    }
  }

  lemma DoomedStays(s: State, t: State, y: Id)
    requires Doomed(s, y) && Under(t, y, 0) && Later(s, t) && Tracks(s, t) && MembersKept(s, t)
    ensures Doomed(t, y)
  {
    hide Under, Pinned, Untouched, Later;
    FateIn(s, y);
    TracksParts(s, t);
    if s.nodes[y].closed { LaterClosed(s, t, y); }
    if Pinned(s, y) { PinnedStays(s, t, y); }
  }

  lemma FateIn(s: State, y: Id)
    requires Under(s, y, 0)
    ensures y < |s.nodes|
  {
  }

  lemma DoomedEnds(r: State, b: Id, y: Id)
    requires Doomed(r, y) && b < |r.nodes| && r.nodes[b].closed && Below(r.nodes, b, y)
    ensures !Sound(r)
  {
    hide GoodBut, Settled, In;
    UnderFate(r, y);
    if r.nodes[y].closed {
      DebtShows(r, y);
    } else if r.fault {
      FaultShows(r);
    } else if Sound(r) {
      GoodParts(r, multiset{});
      PinnedHeld(r, y);
      HeldIsThere(r, y);
      ClosedBelow(r, b, y);
    }
  }

  lemma FaultShows(r: State)
    requires r.fault
    ensures !Sound(r)
  {
  }

  lemma PinnedHeld(s: State, y: Id)
    requires Pinned(s, y)
    ensures y < |s.nodes| ==> OthersOn(s, y) >= 1
  {
    if y !in s.borrows {
      var m :| 0 <= m < |s.nodes| && s.nodes[m].kind == Member && !s.nodes[m].disposed && y in s.nodes[m].owned;
      InAtLeast(s.nodes, m, y);
    }
  }

  /** What hangs below a closed resource is closed, the router that is being closed aside. */
  lemma {:induction false} ClosedUnder(s: State, t: Id, x: Id, y: Id)
    requires Steady(s, multiset{t}) && t < |s.nodes| && s.nodes[t].kind == Router && x < |s.nodes| && x != t
    requires Alive(s, y) && Below(s.nodes, x, y) && s.nodes[x].closed
    ensures s.nodes[y].closed
    decreases y
  {
    if x != y {
      var j := if s.nodes[y].up[0] < y && Below(s.nodes, x, s.nodes[y].up[0]) then 0 else 1;
      var z := s.nodes[y].up[j];
      assert ShapeAt(s.nodes, y);
      HeldIsAlive(s, multiset{t}, y, z);
      BelowRank(s, x, z);
      ClosedUnder(s, t, x, z);
    }
  }

  lemma SteadyUnder(s: State, t: Id, y: Id)
    requires Steady(s, multiset{t}) && GivenUp(s, y)
    ensures Links(s) && Shape(s) && Under(s, y, 0) && y != t && !s.nodes[y].closed && OthersOn(s, y) >= 1
  {
    hide Links, Shape, KindLists, Registry, Owners, In;
    assert BalancedAt(s, multiset{t}, y);
    assert t in multiset{t};
    KindListsStart(s);
  }

  /** A turn that meets something given up. */
  lemma BadTurn(s: State, t: Id, k: Kind, x: Id, y: Id)
    requires Steady(s, multiset{t}) && t < |s.nodes| && s.nodes[t].kind == Router && RouterList(k)
    requires Alive(s, x) && s.nodes[x].kind == k && GivenUp(s, y) && Below(s.nodes, x, y)
    ensures Doomed(CloseLk(s, x), y)
  {
    hide GoodBut, Settled, InFlight, Under, CloseLk, Links, Shape, Later, Untouched, In, Fate;
    SteadyUnder(s, t, y);
    CloseUnder(s, x, y, 0);
    FateIn(CloseLk(s, x), y);
    if x == y {
      CloseMarks(s, x);
    } else {
      GivenUpPlace(s, x, y);
      if s.nodes[y].kind == Consumer {
        ConsumerPinned(s, y);
        CloseMembers(s, x, y, 0);
        TracksParts(s, CloseLk(s, x));
        PinnedStays(s, CloseLk(s, x), y);
      } else {
        if s.nodes[x].closed { ClosedUnder(s, t, x, y); }
        ReachedProducer(s, x, y);
      }
    }
  }

  lemma ConsumerPinned(s: State, y: Id)
    requires Shape(s) && y < |s.nodes| && s.nodes[y].kind == Consumer && OthersOn(s, y) >= 1
    ensures Pinned(s, y)
  {
    hide Shape;
    if y !in s.borrows {
      var h := InWitness(s.nodes, y);
      HolderRank(s, h, y);
      UpKindOf(s, h, y);
    }
  }

  lemma UpKindOf(s: State, h: Id, y: Id)
    requires Shape(s) && h < |s.nodes| && s.nodes[h].kind == Member && y < |s.nodes| && s.nodes[y].kind == Consumer
    ensures y !in s.nodes[h].up
  {
    assert ShapeAt(s.nodes, h);
  }

  /** The rest of the walk does not put it right. */
  lemma {:induction false} DoomedWalk(s: State, t: Id, k: Kind, q: Option<Id>, y: Id)
    requires Doomed(s, y) && RouterList(k) && (q.Some? ==> ChildOf(s, t, k, q.value))
    ensures Doomed(WalkLk(s, t, k, q), y)
  {
    hide Under, WalkLk, Later, Untouched, Doomed;
    DoomedUnder(s, y);
    WalkMembers(s, t, k, q, y, 0);
    WalkUnder(s, t, k, q, y, 0);
    DoomedStays(s, WalkLk(s, t, k, q), y);
  }

  lemma DoomedUnder(s: State, y: Id)
    requires Doomed(s, y)
    ensures Under(s, y, 0)
  {
  }

  lemma NextListed(s: State, t: Id, k: Kind, x: Id, y: Id)
    requires Under(s, y, 0)
    ensures var n := Next(ListOf(s, t, k), x); n.Some? ==> ChildOf(s, t, k, n.value) && n.value in ListOf(s, t, k)
  {
    NextKind(s, t, k, x, y, 0);
  }

  /** A saved successor that is gone when its turn comes was given up. */
  lemma LostSuccessor(s: State, t: Id, k: Kind, x: Id)
    requires Steady(s, multiset{t}) && t < |s.nodes| && s.nodes[t].kind == Router && RouterList(k)
    requires x in ListOf(s, t, k) && Alive(s, x) && NoFailedBelow(s, x)
    requires var n := Next(ListOf(s, t, k), x); n.Some? && !Alive(CloseLk(s, x), n.value)
    ensures var n := Next(ListOf(s, t, k), x).value;
      GivenUp(s, n) && ChildOf(s, t, k, n) && Below(s.nodes, t, n) && n < |CloseLk(s, x).nodes| && CloseLk(s, x).nodes[n].disposed
  {
    hide GoodBut, Settled, InFlight, NoFailedBelow, OnlyBelow, Shape, Links, CloseLk;
    var P := multiset{t};
    var s1 := CloseLk(s, x);
    var n := Next(ListOf(s, t, k), x).value;
    SteadyParts(s, P);
    ListedChild(s, t, k, x);
    ListedChild(s, t, k, n);
    CloseLkSteady(s, P, x);
    LostWasGivenUp(s, s1, P, t, k, x, n);
  }

  lemma LostWasGivenUp(s: State, s1: State, P: multiset<Id>, t: Id, k: Kind, x: Id, n: Id)
    requires Steady(s, P) && x < |s.nodes| && Closes(s, s1, P, x) && MembersKept(s, s1) && t < |s.lists| && RouterList(k)
    requires Child(s.nodes, t, k, x) && Child(s.nodes, t, k, n) && n in ListOf(s, t, k) && x in ListOf(s, t, k)
    requires Next(ListOf(s, t, k), x) == Some(n) && !Alive(s1, n)
    ensures GivenUp(s, n) && n < |s1.nodes| && s1.nodes[n].disposed
  {
    hide Registry, Owners, Links;
    assert EvolvesTo(s.nodes[n], s1.nodes[n]);
    if s.nodes[n].closed { ClosedSurvives(s, s1, P, n); }
    if s1.nodes[n].closed { BelowRank(s, x, n); }
    if s.nodes[n].phase != Failed { OpenSurvives(s1, P, n); }
  }

  lemma {:induction false} WalkDoomed(s: State, t: Id, k: Kind, q: Option<Id>)
    requires Steady(s, multiset{t}) && t < |s.nodes| && s.nodes[t].kind == Router && RouterList(k) && Visited(s, t, k, q)
    requires q.Some? ==> q.value in ListOf(s, t, k)
    requires !Smooth(s, t, k, q)
    ensures exists y :: 0 <= y < |s.nodes| && y != t && Below(s.nodes, t, y) && Doomed(WalkLk(s, t, k, q), y)
    decreases OpenSet(s.nodes), Remaining(s, t, k, q)
  {
    hide GoodBut, Settled, InFlight, Evolves, NoFailedBelow, OnlyBelow, Untouched, Visited, Shape, Links, CloseLk, Under, Doomed, Later, KindLists, Fate;
    var P := multiset{t};
    var x := q.value;
    var n := Next(ListOf(s, t, k), x);
    var s1 := CloseLk(s, x);
    SteadyParts(s, P);
    ListedChild(s, t, k, x);
    assert WalkLk(s, t, k, q) == WalkLk(s1, t, k, n);
    if !NoFailedBelow(s, x) {
      var y := FailedBelow(s, x);
      BadTurn(s, t, k, x, y);
      SteadyUnder(s, t, y);
      NextListed(s, t, k, x, y);
      CloseUnder(s, x, y, 0);
      if n.Some? { KindAfter(s, s1, n.value); }
      DoomedWalk(s1, t, k, n, y);
      BelowTrans(s.nodes, t, x, y);
    } else if n.Some? && !Alive(s1, n.value) {
      var y := n.value;
      LostSuccessor(s, t, k, x);
      SteadyUnder(s, t, y);
      CloseUnder(s, x, y, 0);
      KindAfter(s, s1, y);
      LostTurn(s1, t, k, y);
      assert Doomed(WalkLk(s, t, k, q), y);
    } else {
      SmoothTurn(s, P, t, k, x);
      EvolvesAt(s, s1, t);
      EvolvesBelow(s, s1, t);
      WalkDoomed(s1, t, k, n);
    }
  }

  lemma FailedBelow(s: State, x: Id) returns (y: Id)
    requires !NoFailedBelow(s, x)
    ensures GivenUp(s, y) && Below(s.nodes, x, y)
  {
    y :| 0 <= y < |s.nodes| && !s.nodes[y].disposed && Below(s.nodes, x, y) && s.nodes[y].phase == Failed;
  }

  /** Its turn touches a resource that is gone. */
  lemma LostTurn(s: State, t: Id, k: Kind, x: Id)
    requires Under(s, x, 0) && x < |s.nodes| && s.nodes[x].disposed && RouterList(k) && s.nodes[x].kind == k
    ensures Doomed(WalkLk(s, t, k, Some(x)), x)
  {
    hide Under, Later, Tracks, WalkLk;
    var n := Next(ListOf(s, t, k), x);
    var s1 := CloseLk(s, x);
    CloseUnder(s, x, x, 0);
    NextListed(s, t, k, x, x);
    assert s1 == s.(fault := true);
    DoomedWalk(s1, t, k, n, x);
    WalkOne(s, t, k, x);
  }

  lemma WalkOne(s: State, t: Id, k: Kind, x: Id)
    ensures WalkLk(s, t, k, Some(x)) == WalkLk(CloseLk(s, x), t, k, Next(ListOf(s, t, k), x))
  {
  }

  // ---------------------------------------------------------------- the whole close

  /** The router is marked closed and has closed and forgotten its room. */
  function Vacated(s: State, r: Id): State
    requires r < |s.nodes|
  {
    CloseRoomSlot(MarkClosed(s, r), r)
  }

  lemma VacatedIs(s: State, r: Id)
    requires Inv(s) && Alive(s, r) && s.nodes[r].kind == Router && !s.nodes[r].closed && s.nodes[r].phase != Failed
    ensures var t := Vacated(s, r);
      && Closes(s, t, multiset{r}, r) && ChildrenClosed(t, r, Room) && |t.nodes| == |s.nodes| && t.nodes[r].kind == Router
      && t.nodes[r].closed
  {
    hide GoodBut, Settled, InFlight, Evolves, OnlyBelow, Untouched, ChildrenClosed, CloseLk, MarkAndLeave, CloseRoomSlot, SlotAlive;
    var P := multiset{r};
    InvSteady(s);
    MarkSteady(s, multiset{}, r);
    MarkOpens(s, r);
    assert multiset{} + multiset{r} == P;
    var m := MarkClosed(s, r);
    SlotsAlive(s, r);
    SlotAliveSame(s, r);
    EvolvesAt(s, m, r);
    RoomForgotten(m, P, r);
    EvolvesAt(m, Vacated(s, r), r);
    OnlyBelowTrans(s, m, Vacated(s, r), r, r);
  }

  lemma InvSteady(s: State)
    requires Inv(s)
    ensures Steady(s, multiset{}) && Slots(s) && |s.lists| == |s.nodes|
  {
  }

  /** Members and rooms are never given up, so the room may be closed in any case. */
  lemma RoomForgotten(s: State, P: multiset<Id>, b: Id)
    requires Steady(s, P) && b < |s.nodes| && s.nodes[b].kind == Router && SlotAlive(s, b)
    ensures Closes(s, CloseRoomSlot(s, b), P, b) && ChildrenClosed(CloseRoomSlot(s, b), b, Room)
  {
    hide GoodBut, Settled, InFlight, Evolves, NoFailedBelow, OnlyBelow, Untouched, ChildrenClosed, CloseLk;
    var slot := ListOf(s, b, Room);
    SteadyParts(s, P);
    SlotShape(s, b);
    Unchanged(s, P, b);
    if slot != [] {
      var x := slot[0];
      var s1 := CloseLk(s, x);
      assert x in slot;
      ChildBelow(s, b, x);
      BelowRoomKinds(s, x);
      CloseLkSteady(s, P, x);
      OnlyBelowTrans(s, s, s1, b, x);
      ForgetRoom(s, s1, P, b, x);
      SameNodesCloses(s, s1, PutList(s1, b, Room, []), P, b);
    }
  }

  /** Nothing that was given up is met, neither among the transports nor among the observers. */
  ghost predicate SmoothClose(s: State, r: Id)
    requires r < |s.nodes|
  {
    var s2 := Vacated(s, r);
    var s3 := WalkLk(s2, r, Transport, First(ListOf(s2, r, Transport)));
    && s.nodes[r].phase != Failed
    && Smooth(s2, r, Transport, First(ListOf(s2, r, Transport)))
    && Smooth(s3, r, Observer, First(ListOf(s3, r, Observer)))
  }

  lemma FirstListed(s: State, t: Id, k: Kind)
    requires Steady(s, multiset{t}) && t < |s.nodes| && RouterList(k)
    ensures var q := First(ListOf(s, t, k)); Visited(s, t, k, q) && (q.Some? ==> q.value in ListOf(s, t, k))
  {
    hide Settled, InFlight, Registry, Owners;
    StartVisited(s, t, k);
  }

  /** A whole list of children. */
  lemma SmoothList(s: State, t: Id, k: Kind)
    requires Steady(s, multiset{t}) && t < |s.nodes| && s.nodes[t].kind == Router && RouterList(k)
    requires Smooth(s, t, k, First(ListOf(s, t, k)))
    ensures var r := WalkLk(s, t, k, First(ListOf(s, t, k)));
      Closes(s, r, multiset{t}, t) && ChildrenClosed(r, t, k) && MembersKept(s, r) && |r.nodes| == |s.nodes| && r.nodes[t].kind == Router
  {
    hide GoodBut, Settled, InFlight, Evolves, NoFailedBelow, OnlyBelow, Untouched, ChildrenClosed, Smooth;
    var r := WalkLk(s, t, k, First(ListOf(s, t, k)));
    FirstListed(s, t, k);
    SmoothWalk(s, multiset{t}, t, k, First(ListOf(s, t, k)));
    SteadyParts(r, multiset{t});
    EvolvesAt(s, r, t);
    ListedClosed(r, t, k);
  }

  lemma SmoothIsSound(s: State, r: Id)
    requires Inv(s) && Alive(s, r) && s.nodes[r].kind == Router && !s.nodes[r].closed && SmoothClose(s, r)
    ensures Sound(CloseLk(s, r)) && Closes(s, CloseLk(s, r), multiset{}, r)
  {
    hide GoodBut, Settled, InFlight, Evolves, OnlyBelow, Untouched, ChildrenClosed, CloseLk, CloseBody, WalkLk, Vacated, Smooth, RefLk, MarkClosed;
    var s2 := Vacated(s, r);
    var s3 := WalkLk(s2, r, Transport, First(ListOf(s2, r, Transport)));
    var s4 := WalkLk(s3, r, Observer, First(ListOf(s3, r, Observer)));
    VacatedIs(s, r);
    SmoothList(s2, r, Transport);
    SmoothList(s3, r, Observer);
    RouterUnfold(s, r);
    ClosesTwice(s, s2, s3, r);
    ClosesTwice(s, s3, s4, r);
    ClosesEvolves(s2, s3, r);
    ClosesEvolves(s3, s4, r);
    ChildrenStayClosed(s2, s3, r, Room);
    ChildrenStayClosed(s3, s4, r, Room);
    ChildrenStayClosed(s3, s4, r, Transport);
    AllChildrenClosed(s4, multiset{r}, r);
    assert multiset{} + multiset{r} == multiset{r};
    NothingInFlight(s4);
    ReleaseMain(s4, multiset{}, r);
    ClosesEvolves(s4, CloseLk(s, r), r);
    OnlyBelowTrans(s, s4, CloseLk(s, r), r, r);
  }

  lemma NothingInFlight(s: State)
    ensures InFlight(s, multiset{})
  {
  }

  lemma ClosesEvolves(s: State, t: State, r: Id)
    requires (Closes(s, t, multiset{r}, r) || Closes(s, t, multiset{}, r)) && r < |s.nodes|
    ensures Evolves(s, t) && OnlyBelow(s, t, r) && r < |t.nodes| && t.nodes[r].kind == s.nodes[r].kind && |t.nodes| == |s.nodes|
  {
    EvolvesAt(s, t, r);
  }

  lemma ClosesTwice(s: State, t: State, u: State, r: Id)
    requires Closes(s, t, multiset{r}, r) && Closes(t, u, multiset{r}, r) && r < |s.nodes|
    ensures Closes(s, u, multiset{r}, r)
  {
    hide Steady;
    ChildSelf(s, r);
    OnlyBelowTrans(s, t, u, r, r);
  }

  lemma RouterUnfold(s: State, r: Id)
    requires Alive(s, r) && s.nodes[r].kind == Router && !s.nodes[r].closed
    ensures var s2 := Vacated(s, r);
      var s3 := WalkLk(s2, r, Transport, First(ListOf(s2, r, Transport)));
      var s4 := WalkLk(s3, r, Observer, First(ListOf(s3, r, Observer)));
      CloseLk(s, r) == RefLk(s4, r, -1)
  {
    hide CloseLk, CloseBody, WalkLk, RefLk, CloseRoomSlot;
    CloseLkOpen(s, r);
    CloseBodyRouter(MarkClosed(s, r), r);
  }

  lemma DoomedFirst(s: State, t: Id, k: Kind, y: Id)
    requires Doomed(s, y) && RouterList(k)
    ensures Doomed(WalkLk(s, t, k, First(ListOf(s, t, k))), y)
  {
    hide Under, WalkLk;
    FirstKind(s, t, k, y, 0);
    DoomedWalk(s, t, k, First(ListOf(s, t, k)), y);
  }

  /** Releasing the router itself puts nothing right either. */
  lemma DoomedRelease(s: State, r: Id, y: Id)
    requires Doomed(s, y) && r < |s.nodes| && s.nodes[r].kind == Router && y != r
    ensures Doomed(RefLk(s, r, -1), y) && Later(s, RefLk(s, r, -1)) && |RefLk(s, r, -1).nodes| == |s.nodes|
  {
    hide RefLk, KindLists, Fate, Shape, Later, Shrinks, Doomed;
    var t := RefLk(s, r, -1);
    DoomedUnder(s, y);
    ReleaseFate(s, r, y, 0);
    RefLkLater(s, r, -1);
    RefLkShrinks(s, r, -1);
    TracksShape(s, t);
    KindListsStay(s, t);
    RouterReleaseMembers(s, r);
    DoomedStays(s, t, y);
  }

  lemma RouterReleaseMembers(s: State, r: Id)
    requires Shape(s) && r < |s.nodes| && s.nodes[r].kind == Router
    ensures MembersKept(s, RefLk(s, r, -1))
  {
    hide RefLk;
    RefLkFrame(s, r, -1);
    assert FrameAt(s, RefLk(s, r, -1), r);
  }

  /** The close of `s` leaves a resource behind that is not in order. */
  ghost predicate LeavesDoomed(t: State, r: Id, y: Id) {
    Doomed(t, y) && y != r && r < |t.nodes| && t.nodes[r].closed && Below(t.nodes, r, y) && t.nodes[r].kind == Router
  }

  lemma DoomedAfterAll(s: State, s4: State, r: Id, y: Id)
    requires Later(s, s4) && |s4.nodes| == |s.nodes| && r < |s.nodes| && s.nodes[r].kind == Router && s.nodes[r].closed
    requires Doomed(s4, y) && Below(s.nodes, r, y) && y != r
    ensures LeavesDoomed(RefLk(s4, r, -1), r, y)
  {
    hide RefLk, Doomed, Later;
    var t := RefLk(s4, r, -1);
    KindAfter(s, s4, r);
    DoomedRelease(s4, r, y);
    LaterTrans(s, s4, t);
    LaterClosed(s, t, r);
    KindAfter(s, t, r);
    LaterBelow(s, t, r, y);
  }

  lemma NotSmooth(s: State, r: Id) returns (y: Id)
    requires Inv(s) && Alive(s, r) && s.nodes[r].kind == Router && !s.nodes[r].closed && s.nodes[r].phase != Failed
    requires !SmoothClose(s, r)
    ensures LeavesDoomed(CloseLk(s, r), r, y)
  {
    hide GoodBut, Settled, InFlight, Evolves, OnlyBelow, Untouched, ChildrenClosed, CloseLk, WalkLk, Vacated, Smooth, RefLk, Later, Doomed, LeavesDoomed;
    var s2 := Vacated(s, r);
    var q2 := First(ListOf(s2, r, Transport));
    var s3 := WalkLk(s2, r, Transport, q2);
    var q3 := First(ListOf(s3, r, Observer));
    var s4 := WalkLk(s3, r, Observer, q3);
    VacatedIs(s, r);
    RouterUnfold(s, r);
    WalkLater(s2, r, Transport, q2);
    WalkLater(s3, r, Observer, q3);
    LaterTrans(s2, s3, s4);
    if !Smooth(s2, r, Transport, q2) {
      FirstListed(s2, r, Transport);
      WalkDoomed(s2, r, Transport, q2);
      y :| 0 <= y < |s2.nodes| && y != r && Below(s2.nodes, r, y) && Doomed(s3, y);
      DoomedFirst(s3, r, Observer, y);
      DoomedAfterAll(s2, s4, r, y);
    } else {
      SmoothList(s2, r, Transport);
      FirstListed(s3, r, Observer);
      WalkDoomed(s3, r, Observer, q3);
      y :| 0 <= y < |s3.nodes| && y != r && Below(s3.nodes, r, y) && Doomed(s4, y);
      KindAfter(s2, s3, r);
      LaterClosed(s2, s3, r);
      DoomedAfterAll(s3, s4, r, y);
    }
  }
}
