/**
 Closing any resource by its id (`_resource_close`): exactly when that keeps the invariant.
 */
module RctCloseById {
  import opened RctState
  import opened RctRefs
  import opened RctInvariant
  import opened RctRelease
  import opened RctClose
  import opened RctCascade
  import opened RctSteps
  import opened RctCreation
  import opened RctProtocol
  import opened RctRooms
  import opened RctHistory
  import opened RctSurvival
  import opened RctGivenUp
  import opened RctGivenUpBelow
  import opened RctRouterClose
  import opened RctInTime

  // ---------------------------------------------------------------- who looks the router up does not matter

  /** The states differ in counters, and for the router `r` in phase and borrowed references. */
  ghost predicate Aside(s: State, v: State, r: Id) {
    && |v.nodes| == |s.nodes| && r < |s.nodes| && s.nodes[r].kind == Router
    && (forall i :: 0 <= i < |s.nodes| && i != r ==> v.nodes[i] == s.nodes[i].(refs := v.nodes[i].refs))
    && v.nodes[r] == s.nodes[r].(refs := v.nodes[r].refs, phase := v.nodes[r].phase)
    && (forall i :: i != r ==> v.borrows[i] == s.borrows[i])
  }

  lemma {:induction false} LastsAside(s: State, v: State, r: Id, C: set<Id>, x: Id)
    requires Aside(s, v, r) && x != r
    ensures Lasts(s, C, x) <==> Lasts(v, C, x)
    decreases if x < |s.nodes| then 5 - Rank(s.nodes[x].kind) else 0
  {
    if x < |s.nodes| {
      forall h | 0 <= h < |s.nodes| && Rank(s.nodes[h].kind) > Rank(s.nodes[x].kind)
        ensures (Lasts(s, C, h) <==> Lasts(v, C, h)) && s.nodes[h].Holds(x) == v.nodes[h].Holds(x)
      {
        LastsAside(s, v, r, C, h);
      }
    }
  }

  lemma BelowAside(s: State, v: State, r: Id, b: Id, x: Id)
    requires Aside(s, v, r)
    ensures Below(s.nodes, b, x) <==> Below(v.nodes, b, x)
  {
    BelowSame(s.nodes, v.nodes, b, x);
  }

  lemma RoomAside(s: State, v: State, r: Id)
    requires Aside(s, v, r)
    ensures WithRoom(s, r) == WithRoom(v, r)
  {
    hide Below;
    forall z, i | 0 <= z < |s.nodes| && 0 <= i < |s.nodes| ensures BelowRoomOf(s, r, z, i) <==> BelowRoomOf(v, r, z, i) {
      BelowAside(s, v, r, z, i);
    }
  }

  lemma TurnAside(s: State, v: State, r: Id, z: Id)
    requires Aside(s, v, r)
    ensures Turn(s, r, z) <==> Turn(v, r, z)
  {
    hide Lasts, WithRoom;
    RoomAside(s, v, r);
    if z != r { LastsAside(s, v, r, WithRoom(s, r), z); }
  }

  lemma DoneAside(s: State, v: State, r: Id, k: nat)
    requires Aside(s, v, r)
    ensures Done(s, r, k) == Done(v, r, k)
  {
    hide Below, Turn, WithRoom;
    RoomAside(s, v, r);
    forall z, i | 0 <= z < |s.nodes| && 0 <= i < |s.nodes| ensures BelowTurn(s, r, k, z, i) <==> BelowTurn(v, r, k, z, i) {
      BelowAside(s, v, r, z, i);
      TurnAside(s, v, r, z);
    }
  }

  lemma ClearAside(s: State, v: State, r: Id, x: Id)
    requires Aside(s, v, r) && Shape(s) && x < |s.nodes|
    ensures ClearTurn(s, r, x) ==> ClearTurn(v, r, x)
    ensures ClearOf(s, r, x) ==> ClearOf(v, r, x)
  {
    hide Lasts, Done, Turn, Shape, Below;
    TurnAside(s, v, r, x);
    if ClearTurn(s, r, x) && Turn(v, r, x) {
      TurnIn(s, r, x);
      DoneAside(s, v, r, x + 1);
      forall y | GivenUp(v, y) && Below(v.nodes, x, y) ensures !Lasts(v, Done(v, r, x + 1), y) {
        BelowAside(s, v, r, x, y);
        BelowRank(s, x, y);
        LastsAside(s, v, r, Done(s, r, x + 1), y);
      }
    }
    if ClearOf(s, r, x) && GivenUp(v, x) && v.nodes[x].kind == Transport && r in v.nodes[x].up {
      forall p: nat | TurnBefore(v, r, x, p) ensures !Lasts(v, Done(v, r, p + 1), x) {
        forall z | 0 <= z ensures Turn(s, r, z) <==> Turn(v, r, z) { TurnAside(s, v, r, z); }
        assert TurnBefore(s, r, x, p);
        DoneAside(s, v, r, p + 1);
        LastsAside(s, v, r, Done(s, r, p + 1), x);
      }
    }
  }

  lemma InTimeAside(s: State, v: State, r: Id)
    requires Aside(s, v, r) && Shape(s) && InTime(s, r)
    ensures InTime(v, r)
  {
    hide ClearTurn, ClearOf, Shape;
    forall x | 0 <= x < |v.nodes| ensures ClearTurn(v, r, x) && ClearOf(v, r, x) { ClearAside(s, v, r, x); }
    forall o: Id | GivenUp(v, o) && r in v.nodes[o].up ensures v.nodes[o].kind != Observer {
      if o == r { NoParents(s, r); }
      assert o != r ==> GivenUp(s, o);
    }
  }

  lemma NoParents(s: State, r: Id)
    requires Shape(s) && r < |s.nodes| && s.nodes[r].kind == Router
    ensures s.nodes[r].up == []
  {
    assert ShapeAt(s.nodes, r);
  }

  lemma AsideBack(s: State, v: State, r: Id)
    requires Aside(s, v, r)
    ensures Aside(v, s, r)
  {
  }

  lemma InTimeSame(s: State, v: State, r: Id)
    requires Aside(s, v, r) && Shape(s) && Shape(v)
    ensures InTime(s, r) <==> InTime(v, r)
  {
    hide InTime, Aside;
    AsideBack(s, v, r);
    if InTime(s, r) { InTimeAside(s, v, r); }
    if InTime(v, r) { InTimeAside(v, s, r); }
  }

  lemma BorrowAside(s: State, r: Id)
    requires Inv(s) && Alive(s, r) && s.nodes[r].kind == Router
    ensures Aside(s, Borrow(s, r), r) && Inv(Borrow(s, r)) && r in s.byId && Alive(Borrow(s, r), r)
    ensures Borrow(s, r).borrows == s.borrows + multiset{r} && Borrow(s, r).nodes[r].phase == s.nodes[r].phase
    ensures InTime(s, r) <==> InTime(Borrow(s, r), r)
  {
    hide GoodBut, Settled, Slots, Borrow, InTime;
    InvIsGood(s);
    ById(s);
    BorrowInv(s, r);
    BorrowGood(s, multiset{}, r);
    InvShape(s);
    InvShape(Borrow(s, r));
    InTimeSame(s, Borrow(s, r), r);
  }

  // ---------------------------------------------------------------- in time

  /** A close of a router that comes upon nothing given up. */
  lemma InTimeInv(v: State, r: Id)
    requires Inv(v) && Alive(v, r) && v.nodes[r].kind == Router && v.nodes[r].phase != Failed && InTime(v, r)
    ensures var t := CloseLk(v, r);
      && Inv(t) && |t.nodes| == |v.nodes| && t.borrows == v.borrows && t.nodes[r].closed
      && t.nodes[r].phase == v.nodes[r].phase && t.nodes[r].kind == Router && ClosesDown(v, t, r)
  {
    hide GoodBut, Settled, Slots, CloseLk, InTime, SmoothClose, OnlyBelow, Evolves, BelowOf, SlotAt;
    var t := CloseLk(v, r);
    if v.nodes[r].closed {
      ClosedSound(v, r);
      AlreadyClosed(v, r);
    } else {
      RouterInTime(v, r);
      SmoothIsSound(v, r);
      ClosesRouter(v, r);
      EvolvesSize(v, t);
      EvolvesAt(v, t, r);
      ClosesInward(v, t, r);
    }
  }

  lemma ClosesRouter(v: State, r: Id)
    requires Inv(v) && Alive(v, r) && v.nodes[r].kind == Router && !v.nodes[r].closed && Closes(v, CloseLk(v, r), multiset{}, r)
    ensures Inv(CloseLk(v, r)) && CloseLk(v, r).nodes[r].closed
  {
    hide GoodBut, Settled, Slots, CloseLk, OnlyBelow, Evolves, SlotAt;
    InvSteady(v);
    CloseLkRooms(v, r);
    CloseMarks(v, r);
    ClosesInv(v, CloseLk(v, r), r);
  }

  lemma AlreadyClosed(v: State, r: Id)
    requires Inv(v) && Alive(v, r) && v.nodes[r].closed
    ensures ClosedIn(v, v, BelowOf(v, r))
  {
    hide GoodBut, Settled, Slots, Below;
    InvIsGood(v);
    forall i | 0 <= i < |v.nodes| ensures ClosedIf(v.nodes[i], v.nodes[i], i in BelowOf(v, r)) {
      if Alive(v, i) && Below(v.nodes, r, i) { ClosedBelow(v, r, i); }
    }
  }

  lemma ClosesInward(v: State, t: State, r: Id)
    requires Closes(v, t, multiset{}, r) && r < |v.nodes| == |t.nodes| && t.nodes[r].closed
    ensures ClosedIn(v, t, BelowOf(v, r))
  {
    hide GoodBut, Settled, Below;
    EvolvesSize(v, t);
    forall i | 0 <= i < |v.nodes| ensures ClosedIf(v.nodes[i], t.nodes[i], i in BelowOf(v, r)) {
      EvolvesAt(v, t, i);
      EvolvesBelow(v, t, r);
      if Alive(t, i) && Below(v.nodes, r, i) { ClosedBelow(t, r, i); }
    }
  }

  // ---------------------------------------------------------------- not in time

  /** The look-up's reference on the router pays for nobody else. */
  lemma LastDoomed(t: State, r: Id, y: Id)
    requires LeavesDoomed(t, r, y) && r in t.borrows
    ensures LeavesDoomed(Last(t, r), r, y)
  {
    hide RefLk, Doomed, Later;
    var v := t.(borrows := t.borrows - multiset{r});
    LendDoomed(t, v, r, y);
    if !t.nodes[r].disposed {
      var u := Release(t, r);
      DoomedRelease(v, r, y);
      KindAfter(v, u, r);
      LaterClosed(v, u, r);
      LaterBelow(v, u, r, y);
    }
  }

  lemma LendDoomed(t: State, v: State, r: Id, y: Id)
    requires LeavesDoomed(t, r, y) && r in t.borrows && v == t.(borrows := t.borrows - multiset{r})
    ensures LeavesDoomed(v, r, y)
  {
    hide Shape, KindLists, Below;
    BorrowsShape(t, v) by { DoomedShape(t, y); }
    SameListKinds(t, v) by { DoomedShape(t, y); }
    BorrowFate(t, r, y);
  }

  lemma DoomedShape(t: State, y: Id)
    requires Doomed(t, y)
    ensures Shape(t) && KindLists(t)
  {
  }

  lemma RouterBreaks(s: State, r: Id)
    requires Inv(s) && Alive(s, r) && s.nodes[r].kind == Router && s.nodes[r].phase != Failed && !InTime(s, r)
    ensures !Inv(Close(s, r))
  {
    hide Inv, CloseLk, Borrow, InTime, SmoothClose, LeavesDoomed, Last, Close, Aside;
    var u := Borrow(s, r);
    BorrowAside(s, r);
    AsideAt(s, u, r);
    if u.nodes[r].closed { ClosedInTime(u, r); }
    RouterInTime(u, r);
    var y := NotSmooth(u, r);
    CloseKeepsLoans(u, r);
    CloseIsLast(s, r);
    LastDoomed(CloseLk(u, r), r, y);
    LeftNotSound(Close(s, r), r, y);
    InvIsSound(Close(s, r));
  }

  lemma AsideAt(s: State, v: State, r: Id)
    requires Aside(s, v, r)
    ensures |v.nodes| == |s.nodes| && r < |s.nodes| && v.nodes[r].kind == Router && v.nodes[r].closed == s.nodes[r].closed
  {
  }

  /** A close borrows nothing and gives nothing back. */
  lemma CloseKeepsLoans(u: State, r: Id)
    requires r < |u.nodes|
    ensures CloseLk(u, r).borrows == u.borrows
  {
    hide CloseLk;
    var p := u.nodes[r].phase;
    assert Relabel(u, r, p, u.borrows).nodes == u.nodes;
    assert Relabel(u, r, p, u.borrows) == u;
    RelabelClose(u, r, r, p, u.borrows);
  }

  // ---------------------------------------------------------------- a router that was given up itself

  lemma LentAside(s: State, r: Id)
    requires Inv(s) && GivenUp(s, r) && s.nodes[r].kind == Router
    ensures |Borrow(s, r).nodes| == |s.nodes|
    ensures var v := Lent(s, r);
      && Inv(v) && Aside(s, v, r) && v.borrows == s.borrows && Alive(v, r) && v.nodes[r].phase == Live && !v.nodes[r].closed
      && (InTime(s, r) <==> InTime(v, r)) && (Remains(v, r, r) <==> Remains(s, r, r))
      && Relabel(v, r, Failed, s.borrows + multiset{r}) == Borrow(s, r)
  {
    hide GoodBut, Settled, Slots, Borrow, InTime, Remains;
    var u := Borrow(s, r);
    GivenUpKind(s, r);
    BorrowAside(s, r);
    InvIsGood(s);
    BorrowGood(s, multiset{}, r);
    assert GivenUp(u, r);
    LentInv(u, r, s.borrows);
    var v := Lent(s, r);
    assert Relabel(v, r, Failed, s.borrows + multiset{r}).nodes == u.nodes;
    InvShape(s);
    InvShape(v);
    InTimeSame(s, v, r);
    LentRemains(s, u, r);
  }

  lemma PaidRouter(s: State, r: Id)
    requires Inv(s) && GivenUp(s, r) && s.nodes[r].kind == Router && InTime(s, r)
    ensures Paid(s, r)
  {
    hide Inv, CloseLk, Borrow, Lent, InTime, Relabel, Lasts, BelowOf, Aside, ClosesDown;
    LentAside(s, r);
    var v := Lent(s, r);
    AsideAt(s, v, r);
    InTimeInv(v, r);
    RelabelClose(v, r, r, Failed, s.borrows + multiset{r});
    RouterLasts(v, CloseLk(v, r), r);
  }

  lemma RouterLasts(v: State, t: State, r: Id)
    requires Inv(v) && Inv(t) && ClosesDown(v, t, r) && r < |v.nodes|
    ensures Alive(t, r) <==> Remains(v, r, r)
  {
    hide GoodBut, Settled, Slots, Lasts, BelowOf, ClosedIn;
    InvIsGood(v);
    InvIsGood(t);
    GoodParts(v, multiset{});
    GoodParts(t, multiset{});
    LastsAt(v, t, multiset{}, BelowOf(v, r), r);
  }

  /** Another phase and one more loan on the router put nothing right below it. */
  lemma RelabelDoomed(t: State, r: Id, y: Id)
    requires LeavesDoomed(t, r, y)
    ensures LeavesDoomed(Relabel(t, r, Failed, t.borrows + multiset{r}), r, y)
  {
    hide Shape, KindLists, Below, In;
    var v := Relabel(t, r, Failed, t.borrows + multiset{r});
    DoomedShape(t, y);
    forall i | 0 <= i < |v.nodes| ensures ShapeAt(v.nodes, i) { RelabelShape(t, r, i); }
    ShapeFrom(t, v);
    forall p: Id, k: Kind, x: Id | p < |v.lists| && x in v.lists[p].Get(k) ensures ChildOf(v, p, k, x) { RelabelChild(t, r, p, k, x); }
    KindListsFrom(v);
    InSame(t.nodes, v.nodes, y);
    BelowSame(t.nodes, v.nodes, r, y);
    if Pinned(t, y) { RelabelPinned(t, v, r, y); }
  }

  lemma RelabelShape(t: State, r: Id, i: Id)
    requires Shape(t) && r < |t.nodes| && t.nodes[r].kind == Router && i < |t.nodes|
    ensures ShapeAt(Relabel(t, r, Failed, t.borrows + multiset{r}).nodes, i)
  {
    assert ShapeAt(t.nodes, i);
  }

  lemma ShapeFrom(t: State, v: State)
    requires Shape(t) && |v.nodes| == |t.nodes| && v.lists == t.lists && forall i :: 0 <= i < |v.nodes| ==> ShapeAt(v.nodes, i)
    ensures Shape(v)
  {
  }

  lemma RelabelChild(t: State, r: Id, p: Id, k: Kind, x: Id)
    requires KindLists(t) && r < |t.nodes| && p < |t.lists| && x in t.lists[p].Get(k)
    ensures ChildOf(Relabel(t, r, Failed, t.borrows + multiset{r}), p, k, x)
  {
    assert ChildOf(t, p, k, x);
  }

  lemma KindListsFrom(v: State)
    requires forall p: Id, k: Kind, x: Id :: p < |v.lists| && x in v.lists[p].Get(k) ==> ChildOf(v, p, k, x)
    ensures KindLists(v)
  {
  }

  lemma RelabelPinned(t: State, v: State, r: Id, y: Id)
    requires r < |t.nodes| && t.nodes[r].kind == Router && v == Relabel(t, r, Failed, t.borrows + multiset{r}) && Pinned(t, y)
    ensures Pinned(v, y)
  {
    if y !in t.borrows {
      var m :| 0 <= m < |t.nodes| && t.nodes[m].kind == Member && !t.nodes[m].disposed && y in t.nodes[m].owned;
      assert v.nodes[m] == t.nodes[m];
    }
  }

  lemma GivenUpBreaks(s: State, r: Id)
    requires Inv(s) && GivenUp(s, r) && s.nodes[r].kind == Router && !InTime(s, r)
    ensures !Inv(Close(s, r))
  {
    hide Inv, CloseLk, Borrow, Lent, InTime, Relabel, SmoothClose, LeavesDoomed, Last, Close, Remains, Aside;
    LentAside(s, r);
    GivenUpKind(s, r);
    var v := Lent(s, r);
    AsideAt(s, v, r);
    RouterInTime(v, r);
    var y := NotSmooth(v, r);
    CloseKeepsLoans(v, r);
    var t := CloseLk(v, r);
    RelabelClose(v, r, r, Failed, s.borrows + multiset{r});
    RelabelDoomed(t, r, y);
    var w := Relabel(t, r, Failed, s.borrows + multiset{r});
    assert w == CloseLk(Borrow(s, r), r);
    RelabelLoans(t, r, s.borrows + multiset{r});
    CloseIsLast(s, r);
    LastDoomed(w, r, y);
    LeftNotSound(Close(s, r), r, y);
    InvIsSound(Close(s, r));
  }

  lemma RelabelLoans(t: State, r: Id, m: multiset<Id>)
    requires r < |t.nodes|
    ensures Relabel(t, r, Failed, m).borrows == m
  {
  }

  lemma InvIsSound(t: State)
    ensures Inv(t) ==> Sound(t)
  {
  }

  // ---------------------------------------------------------------- exactly

  /** What a thread that looks `i` up may close. */
  ghost predicate MayClose(s: State, i: Id) {
    i in s.byId && i < |s.nodes| ==> ClearBelow(s, i) && (GivenUp(s, i) ==> !Remains(s, i, i))
  }

  /** Closing what was not given up, up to the last release. */
  ghost predicate Plain(s: State, i: Id) {
    var u := Borrow(s, i); var t := CloseLk(u, i);
    && Inv(u) && Inv(t) && ClosesDown(u, t, i) && t.borrows == s.borrows + multiset{i} && |u.nodes| == |s.nodes|
    && Close(s, i) == Release(t, i)
  }

  lemma PlainRouter(s: State, r: Id)
    requires Inv(s) && Alive(s, r) && s.nodes[r].kind == Router && s.nodes[r].phase != Failed && InTime(s, r)
    ensures Plain(s, r)
  {
    hide GoodBut, Settled, Slots, CloseLk, Borrow, InTime, Release, Aside, ClosesDown;
    var u := Borrow(s, r);
    BorrowAside(s, r);
    AsideAt(s, u, r);
    InTimeInv(u, r);
    var t := CloseLk(u, r);
    InvIsGood(t);
    GoodParts(t, multiset{});
    BorrowedIsAlive(t, r);
  }

  lemma PlainOther(s: State, i: Id)
    requires Inv(s) && Alive(s, i) && s.nodes[i].kind != Room && NoFailedBelow(s, i) && i in s.byId
    ensures Plain(s, i)
  {
    hide GoodBut, Settled, Slots, CloseLk, Borrow, Release, OnlyRefs, Closes, Evolves, ClosesDown;
    var u := Borrow(s, i);
    var t := CloseLk(u, i);
    InvIsGood(s);
    BorrowInv(s, i);
    BorrowGood(s, multiset{}, i);
    NoFailedOnlyRefs(s, u, i);
    OnlyRefsNode(s, u, i);
    CloseLkInv(u, i);
    ClosesDownIs(u, i);
    DownAt(u, t, i, i);
    InvIsGood(t);
    GoodParts(t, multiset{});
    BorrowedIsAlive(t, i);
  }

  lemma PlainAny(s: State, i: Id)
    requires Inv(s) && i in s.byId && i < |s.nodes| && s.nodes[i].kind != Room && MayClose(s, i) && !GivenUp(s, i)
    ensures Plain(s, i)
  {
    hide Inv, Plain, InTime, Below, NoFailedBelow;
    ById(s);
    if s.nodes[i].kind == Router {
      PlainRouter(s, i);
    } else {
      NoneBelow(s, i);
      PlainOther(s, i);
    }
  }

  lemma PaidAny(s: State, i: Id)
    requires Inv(s) && GivenUp(s, i) && MayClose(s, i)
    ensures Paid(s, i) && !Remains(s, i, i)
  {
    hide Inv, Paid, InTime, Remains, Below;
    GivenUpKind(s, i);
    if s.nodes[i].kind == Router { PaidRouter(s, i); } else { PaidParts(s, i); }
  }

  lemma PlainInv(s: State, i: Id)
    requires Plain(s, i)
    ensures Inv(Close(s, i))
  {
    hide Inv, CloseLk, Borrow, Release, ClosesDown, Close;
    ReleaseInv(CloseLk(Borrow(s, i), i), i);
  }

  /** Closing by id keeps the invariant exactly if nothing that the close comes upon below the
      resource was given up, and if the resource itself was given up then nobody goes on holding
      it: the close then gives back the reference that the look-up took. */
  lemma CloseByIdExactly(s: State, i: Id)
    requires Inv(s) && i in s.byId && i < |s.nodes| && s.nodes[i].kind != Room
    ensures Inv(Close(s, i)) <==> (ClearBelow(s, i) && (GivenUp(s, i) ==> !Remains(s, i, i)))
  {
    hide GoodBut, Settled, Slots, Close, Remains, InTime, Paid, Plain;
    InvIsGood(s);
    ById(s);
    if MayClose(s, i) {
      if GivenUp(s, i) {
        PaidAny(s, i);
        PaidInv(s, i);
      } else {
        PlainAny(s, i);
        PlainInv(s, i);
      }
    } else {
      CloseByIdBreaks(s, i);
    }
  }

  lemma CloseByIdBreaks(s: State, i: Id)
    requires Inv(s) && i in s.byId && i < |s.nodes| && s.nodes[i].kind != Room && !MayClose(s, i)
    ensures !Inv(Close(s, i))
  {
    hide GoodBut, Settled, Slots, Close, Remains, InTime, Paid;
    InvIsGood(s);
    ById(s);
    if !ClearBelow(s, i) {
      if s.nodes[i].kind == Router {
        if GivenUp(s, i) { GivenUpBreaks(s, i); } else { RouterBreaks(s, i); }
      } else {
        var x :| GivenUp(s, x) && Below(s.nodes, i, x) && x != i;
        ByIdReached(s, i, x);
      }
    } else {
      if s.nodes[i].kind == Router { PaidRouter(s, i); } else { PaidParts(s, i); }
      ByIdHeld(s, i);
    }
  }

  lemma NoFailedMayClose(s: State, i: Id)
    requires Inv(s) && NoFailedBelow(s, i)
    ensures MayClose(s, i)
  {
    hide Inv, InTime, Below, Remains;
    if i in s.byId && i < |s.nodes| {
      ById(s);
      assert !GivenUp(s, i) by { BelowSelf(s, i); }
      if s.nodes[i].kind == Router { NoneInTime(s, i); }
    }
  }
}
