/**
 Joining closed rooms and creating rooms on closed routers: both are looked up by id without
 asking whether they were closed. The steps keep the invariant exactly if they were not.
 */
module RctClosedParents {
  import opened RctState
  import opened RctRefs
  import opened RctInvariant
  import opened RctRelease
  import opened RctClose
  import opened RctCascade
  import opened RctSteps
  import opened RctCreation
  import opened RctProtocol
  import opened RctRooms
  import opened RctRollback
  import opened RctHistory
  import opened RctRuns
  import opened RctSurvival
  import opened RctCloseById
  import opened RctTheorems

  /** An open resource below a closed one breaks the invariant, whether or not it is still there. */
  lemma OpenBelowClosed(t: State, c: Id, p: Id)
    requires c < |t.nodes| && p < |t.nodes| && p in t.nodes[c].up && t.nodes[p].closed
    requires !t.nodes[c].closed && t.nodes[c].phase == Live
    ensures !Inv(t)
  {
    if Good(t) {
      GoodParts(t, multiset{});
      OpenSurvives(t, multiset{}, c);
      assert !Settled(t, multiset{});
    }
  }

  lemma OpenAt(s: State, t: State, i: Id)
    requires OpenSet(t.nodes) == OpenSet(s.nodes) && i < |s.nodes| && |t.nodes| == |s.nodes|
    ensures t.nodes[i].closed == s.nodes[i].closed
  {
    assert i in OpenSet(s.nodes) <==> i in OpenSet(t.nodes);
  }

  lemma LaterNodeAt(s: State, t: State, i: Id)
    requires Later(s, t) && i < |s.nodes|
    ensures i < |t.nodes| && LaterNode(s.nodes[i], t.nodes[i])
  {
  }

  // ---------------------------------------------------------------- joining

  /** Leaving another room does not take a closed room away. */
  lemma {:induction false} ClosedRoomStays(s: State, m: Id, room: Id)
    requires Inv(s) && Found(s, m, Member) && Found(s, room, Room) && s.nodes[room].closed
    ensures var t := CloseLk(s, m); Found(t, room, Room) && t.nodes[room].closed
  {
    hide GoodBut, Settled, Slots, CloseLk, Evolves, Closes;
    var t := CloseLk(s, m);
    InvIsGood(s);
    GoodParts(s, multiset{});
    assert Registered(s, {}, m) && Registered(s, {}, room);
    CloseMember(s, m);
    EvolvesSize(s, t);
    ClosedRoomHeld(s, m, room);
    assert EvolvesTo(s.nodes[room], t.nodes[room]) by { EvolvesAt(s, t, room); }
    FoundIfAlive(t, room);
  }

  /** Whoever holds a closed room is not the member that leaves. */
  lemma {:induction false} ClosedRoomHeld(s: State, m: Id, room: Id)
    requires Inv(s) && Alive(s, m) && s.nodes[m].kind == Member
    requires Alive(s, room) && s.nodes[room].kind == Room && s.nodes[room].closed
    ensures room < |CloseLk(s, m).nodes| && Alive(CloseLk(s, m), room)
  {
    hide GoodBut, Slots, CloseLk, Settled, In, Evolves;
    var t := CloseLk(s, m);
    CloseMember(s, m);
    EvolvesAt(s, t, room);
    EvolvesBorrows(s, t);
    InvIsGood(t);
    AliveIffHeld(t, room);
    SomeoneHolds(s, room);
    if s.borrows[room] == 0 {
      var h := InWitness(s.nodes, room);
      RoomHolder(s, h, room);
      if h == m {
        CloseLkClosed(s, m);
      } else {
        OtherMemberStays(s, m, h);
        InAtLeast(t.nodes, h, room);
      }
    }
    MainIsPositive(t, room);
  }

  lemma EvolvesBorrows(s: State, t: State)
    requires Evolves(s, t)
    ensures t.borrows == s.borrows
  {
  }

  lemma MainIsPositive(t: State, i: Id)
    requires i < |t.nodes|
    ensures t.nodes[i].Main() >= 0
  {
  }

  lemma SomeoneHolds(s: State, room: Id)
    requires Inv(s) && Alive(s, room) && s.nodes[room].kind == Room && s.nodes[room].closed
    ensures In(s.nodes, room) >= 1 || s.borrows[room] >= 1
  {
    hide GoodBut, Slots, Settled, In;
    InvIsGood(s);
    GoodParts(s, multiset{});
    assert ShapeAt(s.nodes, room);
    AliveIffHeld(s, room);
    AliveIffPositive(s, room);
  }

  lemma RoomHolder(s: State, h: Id, room: Id)
    requires Inv(s) && h < |s.nodes| && room < |s.nodes| && s.nodes[room].kind == Room && s.nodes[room].closed
    requires s.nodes[h].Holds(room) >= 1
    ensures Alive(s, h) && s.nodes[h].kind == Member && room in s.nodes[h].up && s.nodes[h].closed
  {
    hide GoodBut, Slots;
    InvIsGood(s);
    GoodParts(s, multiset{});
    assert ShapeAt(s.nodes, h);
    assert room !in s.nodes[h].owned;
    assert room in s.nodes[h].up;
  }

  /** A leaving member takes no other member with it. */
  lemma OtherMemberStays(s: State, m: Id, h: Id)
    requires Inv(s) && Alive(s, m) && s.nodes[m].kind == Member && h < |s.nodes| && h != m && s.nodes[h].kind == Member
    ensures CloseLk(s, m).nodes[h] == s.nodes[h]
  {
    hide GoodBut, Slots, Settled, RefLk, Unlink, CloseLk;
    InvIsGood(s);
    GoodParts(s, multiset{});
    if s.nodes[m].closed {
      CloseLkClosed(s, m);
    } else {
      CloseLkOpen(s, m);
      MarkOpens(s, m);
      var u := MarkAndLeave(s, m);
      assert u.nodes == s.nodes[m := s.nodes[m].(closed := true)] && |u.lists| == |s.lists|;
      SameUpShape(s, u);
      RefLkFrame(u, m, -1);
      assert FrameAt(u, RefLk(u, m, -1), m);
    }
  }

  lemma CloseLkClosed(s: State, b: Id)
    requires b < |s.nodes| && !s.nodes[b].disposed && s.nodes[b].closed
    ensures CloseLk(s, b) == s
  {
  }

  lemma SameUpShape(s: State, u: State)
    requires Shape(s) && |u.nodes| == |s.nodes| && |u.lists| == |s.lists|
    requires forall i :: 0 <= i < |s.nodes| ==> u.nodes[i] == s.nodes[i].(closed := u.nodes[i].closed)
    ensures Shape(u)
  {
    forall i | 0 <= i < |u.nodes| ensures ShapeAt(u.nodes, i) { assert ShapeAt(s.nodes, i); }
  }

  /** The new member stays open below the closed room. */
  lemma JoinClosed(s: State, room: Id, prev: Option<Id>, uuid: Uuid, user: int)
    requires Inv(s) && Found(s, room, Room) && s.nodes[room].closed
    ensures !Inv(Join(s, room, prev, uuid, user))
  {
    hide Inv, CloseLk, Borrow, Release, CloseIfSome, Grab, Append, Register, Later;
    var s1 := if prev.Some? && Found(s, prev.value, Member) then CloseLk(s, prev.value) else s;
    if prev.Some? && Found(s, prev.value, Member) { ClosedRoomStays(s, prev.value, room); }
    var s2 := Borrow(s1, room);
    var s3 := CloseIfSome(s2, MemberOf(s2.nodes, ListOf(s2, room, Member), user));
    var s4 := Grab(s3, [room]);
    var n := Node(Member, uuid, 0, user, 1, false, false, Live, [room], []);
    var c := |s4.nodes|;
    AppendSize(s4, n);
    var s5 := Register(Append(s4, n), c);
    var t := Release(s5, room);
    BorrowLater(s1, room);
    CloseIfLater(s2, MemberOf(s2.nodes, ListOf(s2, room, Member), user));
    GrabLater(s3, [room]);
    AddLater(s4, n);
    ReleaseLater(s5, room);
    LaterTrans(s1, s2, s3);
    LaterTrans(s1, s3, s4);
    LaterTrans(s1, s4, s5);
    LaterTrans(s1, s5, t);
    LaterNodeAt(s1, t, room);
    LaterNodeAt(s5, t, c);
    ReleaseOpens(s5, room);
    OpenAt(s5, t, c);
    OpenBelowClosed(t, c, room);
  }

  lemma ReleaseOpens(s: State, i: Id)
    ensures |Release(s, i).nodes| == |s.nodes| && OpenSet(Release(s, i).nodes) == OpenSet(s.nodes)
  {
  }

  /** Joining keeps the invariant exactly if the room is not closed: the code looks the room up
      without asking. */
  lemma JoinExact(s: State, room: Id, prev: Option<Id>, uuid: Uuid, user: int)
    requires Inv(s) && DistinctUsers(s) && uuid !in s.byUuid
    ensures Inv(Join(s, room, prev, uuid, user)) <==> (Found(s, room, Room) ==> !s.nodes[room].closed)
  {
    hide Inv, DistinctUsers, Join;
    if Found(s, room, Room) && s.nodes[room].closed {
      JoinClosed(s, room, prev, uuid, user);
    } else {
      JoinInv(s, room, prev, uuid, user);
    }
  }

  // ---------------------------------------------------------------- creating rooms

  lemma {:induction false} GrabOpens(s: State, ids: seq<Id>)
    ensures |Grab(s, ids).nodes| == |s.nodes| && OpenSet(Grab(s, ids).nodes) == OpenSet(s.nodes)
    decreases |ids|
  {
    if ids != [] { GrabOpens(RefLk(s, ids[0], 1), ids[1..]); }
  }

  lemma BorrowOpens(s: State, i: Id)
    ensures |Borrow(s, i).nodes| == |s.nodes| && OpenSet(Borrow(s, i).nodes) == OpenSet(s.nodes)
    ensures Shrinks(s, Borrow(s, i))
  {
    hide RefLk;
    GrabOpens(s, [i]);
    RefLkShrinks(s, i, 1);
    if i in s.byId {
      assert Grab(RefLk(s, i, 1), []) == RefLk(s, i, 1);
    }
  }

  /** Closing a member closes nobody else, in any state. */
  lemma MemberOpens(s: State, m: Id, i: Id)
    requires m < |s.nodes| && s.nodes[m].kind == Member && i < |s.nodes| && i != m
    ensures var t := CloseLk(s, m); |t.nodes| == |s.nodes| && t.nodes[i].closed == s.nodes[i].closed
  {
    hide RefLk;
    if !s.nodes[m].disposed && !s.nodes[m].closed {
      MarkOpens(s, m);
      assert i in OpenSet(s.nodes) <==> i in OpenSet(CloseLk(s, m).nodes);
    }
  }

  lemma NoMembers(s: State, t: State, room: Id)
    requires Shrinks(s, t) && ListOf(s, room, Member) == [] && room < |s.lists|
    ensures ListOf(t, room, Member) == []
  {
    assert Subset(t.lists[room].Get(Member), s.lists[room].Get(Member));
    var l := t.lists[room].Get(Member);
    HeadIn(l);
  }

  lemma HeadIn(l: seq<Id>)
    ensures l != [] ==> l[0] in l
  {
  }

  /** Joining a room without members closes at most the member that leaves for it. */
  lemma JoinOpens(s: State, room: Id, prev: Option<Id>, uuid: Uuid, user: int, i: Id)
    requires i < |s.nodes| && s.nodes[i].kind != Member && room < |s.lists| && ListOf(s, room, Member) == []
    ensures var t := Join(s, room, prev, uuid, user); i < |t.nodes| && t.nodes[i].closed == s.nodes[i].closed
  {
    hide CloseLk, Borrow, Release, Grab, Append, Register, Shrinks;
    var s1 := if prev.Some? && Found(s, prev.value, Member) then CloseLk(s, prev.value) else s;
    SameListsShrink(s, s);
    if prev.Some? && Found(s, prev.value, Member) {
      MemberOpens(s, prev.value, i);
      CloseLkShrinks(s, prev.value);
    }
    NoMembers(s, s1, room);
    if Found(s1, room, Room) {
      var s2 := Borrow(s1, room);
      BorrowOpens(s1, room);
      ShrinksSize(s, s1);
      NoMembers(s1, s2, room);
      var s4 := Grab(s2, [room]);
      GrabOpens(s2, [room]);
      var n := Node(Member, uuid, 0, user, 1, false, false, Live, [room], []);
      AppendSize(s4, n);
      AddLater(s4, n);
      var s5 := Register(Append(s4, n), |s4.nodes|);
      ReleaseOpens(s5, room);
      OpenAt(s1, s2, i);
      OpenAt(s2, s4, i);
      OpenAt(s5, Release(s5, room), i);
    }
  }

  lemma ShrinksSize(s: State, t: State)
    requires Shrinks(s, t)
    ensures |t.lists| == |s.lists|
  {
  }

  lemma NewRoomFrame(s: State, n: Node)
    requires |s.lists| == |s.nodes| && n.kind == Room
    ensures var t := Register(Append(s, n), |s.nodes|);
      t.nodes == s.nodes + [n] && |t.lists| == |t.nodes| && (|s.nodes| !in n.up ==> ListOf(t, |s.nodes|, Member) == [])
  {
    RegisterRest(Append(s, n), |s.nodes|);
  }

  /** The new room stays open below the closed router. */
  lemma CreateRoomClosed(s: State, router: Id, prev: Option<Id>, roomUuid: Uuid, uuid: Uuid, user: int)
    requires Inv(s) && Found(s, router, Router) && s.nodes[router].closed
    ensures !Inv(CreateRoom(s, router, prev, roomUuid, uuid, user))
  {
    hide Inv, CloseLk, Borrow, Release, CloseIfSome, Grab, Append, Register, Later, Join;
    var s1 := Borrow(s, router);
    var s2 := CloseIfSome(s1, First(ListOf(s1, router, Room)));
    var s3 := Grab(s2, [router]);
    var n := Node(Room, roomUuid, 0, 0, 1, false, false, Live, [router], []);
    var c := |s3.nodes|;
    AppendSize(s3, n);
    var s4 := Register(Append(s3, n), c);
    var s5 := Join(s4, c, prev, uuid, user);
    var t := Release(s5, router);
    BorrowLater(s, router);
    CloseIfLater(s1, First(ListOf(s1, router, Room)));
    GrabLater(s2, [router]);
    AddLater(s3, n);
    JoinLater(s4, c, prev, uuid, user);
    ReleaseLater(s5, router);
    LaterTrans(s, s1, s2);
    LaterTrans(s, s2, s3);
    LaterTrans(s, s3, s4);
    LaterTrans(s, s4, s5);
    LaterTrans(s, s5, t);
    LaterTrans(s4, s5, t);
    LaterNodeAt(s, t, router);
    LaterNodeAt(s, s3, router);
    LaterNodeAt(s4, t, c);
    SizesStay(s, router);
    NewRoomFrame(s3, n);
    JoinOpens(s4, c, prev, uuid, user, c);
    ReleaseOpens(s5, router);
    OpenAt(s5, t, c);
    OpenBelowClosed(t, c, router);
  }

  lemma SizesStay(s: State, router: Id)
    requires Inv(s)
    ensures var s1 := Borrow(s, router);
      var s3 := Grab(CloseIfSome(s1, First(ListOf(s1, router, Room))), [router]);
      |s3.lists| == |s3.nodes|
  {
    hide CloseLk, RefLk, Shrinks, GoodBut, Settled, Slots;
    InvIsGood(s);
    GoodParts(s, multiset{});
    var s1 := Borrow(s, router);
    var m := First(ListOf(s1, router, Room));
    var s2 := CloseIfSome(s1, m);
    BorrowOpens(s, router);
    ShrinksSize(s, s1);
    if m.Some? {
      CloseLkShrinks(s1, m.value);
      ShrinksSize(s1, s2);
    }
    GrabOpens(s2, [router]);
    RefLkShrinks(s2, router, 1);
    ShrinksSize(s2, RefLk(s2, router, 1));
    assert Grab(RefLk(s2, router, 1), []) == RefLk(s2, router, 1);
  }

  /** Creating a room keeps the invariant exactly if the router is not closed. */
  lemma CreateRoomExact(s: State, router: Id, prev: Option<Id>, roomUuid: Uuid, uuid: Uuid, user: int)
    requires Inv(s) && DistinctUsers(s) && uuid !in s.byUuid && roomUuid !in s.byUuid && uuid != roomUuid
    ensures Inv(CreateRoom(s, router, prev, roomUuid, uuid, user)) <==>
      (Found(s, router, Router) ==> !s.nodes[router].closed)
  {
    hide Inv, DistinctUsers, CreateRoom;
    if Found(s, router, Router) && s.nodes[router].closed {
      CreateRoomClosed(s, router, prev, roomUuid, uuid, user);
    } else {
      CreateRoomInv(s, router, prev, roomUuid, uuid, user);
    }
  }

  // ---------------------------------------------------------------- a run

  /** A join that finds its room adds one resource. */
  lemma JoinAdds(s: State, room: Id, uuid: Uuid, user: int)
    requires Found(s, room, Room)
    ensures var t := Join(s, room, None, uuid, user);
      && |t.nodes| == |s.nodes| + 1 && t.nodes[|s.nodes|].phase == Live
      && t.nodes[|s.nodes|].uuid == uuid
  {
    hide CloseLk, Borrow, Release, Grab, Append, Register, Later;
    var s2 := Borrow(s, room);
    var s3 := CloseIfSome(s2, MemberOf(s2.nodes, ListOf(s2, room, Member), user));
    var s4 := Grab(s3, [room]);
    var n := Node(Member, uuid, 0, user, 1, false, false, Live, [room], []);
    AppendSize(s4, n);
    var s5 := Register(Append(s4, n), |s4.nodes|);
    BorrowOpens(s, room);
    GrabOpens(s3, [room]);
    AddLater(s4, n);
    ReleaseOpens(s5, room);
    ReleaseLater(s5, room);
    LaterNodeAt(s5, Release(s5, room), |s.nodes|);
  }

  /** Creating a room adds the open room and its first member. */
  lemma CreateAdds(s: State, router: Id, roomUuid: Uuid, uuid: Uuid, user: int)
    requires Inv(s) && Found(s, router, Router)
    ensures var t := CreateRoom(s, router, None, roomUuid, uuid, user); var r := |s.nodes|;
      && |t.nodes| == r + 2 && t.nodes[r + 1].phase == Live && t.nodes[r + 1].uuid == uuid && t.nodes[r].uuid == roomUuid
      && t.nodes[r].kind == Room && t.nodes[r].up == [router] && !t.nodes[r].closed && t.nodes[r].phase == Live
  {
    hide Inv, CloseLk, Borrow, Release, Grab, Append, Register, Later, Join;
    var s1 := Borrow(s, router);
    var s2 := CloseIfSome(s1, First(ListOf(s1, router, Room)));
    var s3 := Grab(s2, [router]);
    var n := Node(Room, roomUuid, 0, 0, 1, false, false, Live, [router], []);
    var c := |s3.nodes|;
    AppendSize(s3, n);
    var s4 := Register(Append(s3, n), c);
    var s5 := Join(s4, c, None, uuid, user);
    var t := Release(s5, router);
    BorrowOpens(s, router);
    GrabOpens(s2, [router]);
    SizesStay(s, router);
    NewRoomFrame(s3, n);
    RegisterIs(s3, n);
    BorrowLater(s, router);
    RouterInRange(s, s3, router);
    JoinAdds(s4, c, uuid, user);
    JoinOpens(s4, c, None, uuid, user, c);
    JoinLater(s4, c, None, uuid, user);
    ReleaseOpens(s5, router);
    ReleaseLater(s5, router);
    OpenAt(s5, t, c);
    LaterTrans(s4, s5, t);
    LaterNodeAt(s4, t, c);
    LaterNodeAt(s5, t, c + 1);
  }

  lemma RouterInRange(s: State, t: State, router: Id)
    requires Found(s, router, Router) && |t.nodes| == |s.nodes|
    ensures router < |t.nodes|
  {
  }

  /** A router whose creator is done. */
  function RouterReady(): State {
    var s := RouterBegun();
    if UnderConstruction(s, 0) then FinishOk(s, 0) else s
  }

  /** A room on it with one member. */
  function RoomOpened(): State {
    CreateRoom(RouterReady(), 0, None, 2, 3, 5)
  }

  /** A thread that looked the room up still holds it when the router closes. */
  function RoomClosedHeld(): State {
    Close(Borrow(RoomOpened(), 1), 0)
  }

  lemma RouterReadyIs()
    ensures var s := RouterReady();
      Inv(s) && DistinctUsers(s) && |s.nodes| == 1 && Alive(s, 0) && s.nodes[0].kind == Router && s.nodes[0].phase == Live
      && !s.nodes[0].closed && s.nodes[0].uuid == 1
  {
    hide Inv, RefLk, RouterBegun, Later;
    var s := RouterBegun();
    RouterBegunIs();
    var u := SetPhase(s, 0, Live);
    InvIsGood(s);
    FinishOkInv(s, 0);
    FinishDisposes(s, 0);
    RefLkLater(u, 0, -INIT_REFS + 1);
    LaterNodeAt(u, FinishOk(s, 0), 0);
    OpenAt(u, RefLk(u, 0, -INIT_REFS + 1), 0);
  }

  lemma RoomOpenedIs()
    ensures var s := RoomOpened();
      && Inv(s) && DistinctUsers(s) && |s.nodes| == 3 && s.nodes[1].kind == Room && s.nodes[1].up == [0]
      && s.nodes[0].kind == Router && Alive(s, 0) && Alive(s, 1)
      && (forall i :: 0 <= i < 3 ==> s.nodes[i].phase == Live && s.nodes[i].uuid != 4)
  {
    hide Inv, CreateRoom, RouterReady, Later, DistinctUsers;
    var s := RouterReady();
    var t := RoomOpened();
    RouterReadyIs();
    FoundIfAlive(s, 0);
    OtherUuid(s, 2);
    OtherUuid(s, 3);
    CreateRoomInv(s, 0, None, 2, 3, 5);
    CreateAdds(s, 0, 2, 3, 5);
    CreateRoomLater(s, 0, None, 2, 3, 5);
    LaterNodeAt(s, t, 0);
    LiveOpen(t, 1);
    UpAlive(t, 1, 0);
  }

  lemma LiveOpen(t: State, i: Id)
    requires Inv(t) && i < |t.nodes| && t.nodes[i].phase == Live && !t.nodes[i].closed
    ensures Alive(t, i)
  {
    hide GoodBut, Settled, Slots;
    InvIsGood(t);
    GoodParts(t, multiset{});
    OpenSurvives(t, multiset{}, i);
  }

  lemma BorrowedIs(s: State, i: Id)
    requires Inv(s) && Alive(s, i) && i in s.byId
    ensures var t := Borrow(s, i);
      && Inv(t) && |t.nodes| == |s.nodes| && i in t.borrows
      && forall x :: 0 <= x < |s.nodes| ==> t.nodes[x] == s.nodes[x].(refs := t.nodes[x].refs)
  {
    hide GoodBut, Settled, Slots, Borrow;
    BorrowInv(s, i);
    BorrowGood(s, multiset{}, i);
  }

  lemma NoneFailed(s: State, b: Id)
    requires forall x :: 0 <= x < |s.nodes| ==> s.nodes[x].phase == Live
    ensures NoFailedBelow(s, b)
  {
  }

  /** A close gives back what it borrowed. */
  lemma CloseKeepsBorrows(s: State, i: Id)
    requires Inv(s) && i in s.byId && i < |s.nodes| && s.nodes[i].kind != Room && NoFailedBelow(s, i)
    ensures Close(s, i).borrows == s.borrows
  {
    hide GoodBut, Settled, Slots, Closes, Borrow, CloseLk, Release, Evolves;
    var u := Borrow(s, i);
    var t := CloseLk(u, i);
    BorrowInv(s, i);
    BorrowGood(s, multiset{}, i);
    NoFailedOnlyRefs(s, u, i);
    CloseLkInv(u, i);
    ClosesAt(u, t, i);
    InvIsGood(t);
    GoodParts(t, multiset{});
    BorrowedIsAlive(t, i);
    ReleaseIntent(t, i);
    assert s.borrows + multiset{i} - multiset{i} == s.borrows;
  }

  lemma RoomClosedHeldIs()
    ensures var s := RoomClosedHeld();
      && Inv(s) && DistinctUsers(s) && |s.nodes| == 3 && Found(s, 1, Room) && s.nodes[1].closed && 4 !in s.byUuid
  {
    hide Inv, Close, Borrow, NoFailedBelow, MayClose, RoomOpened, DistinctUsers, Later, LaterNode;
    var s := RoomOpened();
    RoomOpenedIs();
    FoundIfAlive(s, 1);
    BorrowedIs(s, 1);
    var u := Borrow(s, 1);
    BorrowStep(s, 1);
    FoundIfAlive(u, 0);
    NoneFailed(u, 0);
    NoFailedMayClose(u, 0);
    CloseStep(u, 0);
    CloseCloses(u, 0);
    CloseKeepsBorrows(u, 0);
    CloseLater(u, 0);
    HeldRoomClosed(u, 0, 1);
  }

  /** Closing the router closes the room that somebody holds. */
  lemma HeldRoomClosed(u: State, router: Id, room: Id)
    requires var t := Close(u, router);
      Inv(t) && Later(u, t) && |t.nodes| == |u.nodes| && router < |u.nodes| && t.nodes[router].closed && room in t.borrows
    requires room < |u.nodes| && u.nodes[room].kind == Room && u.nodes[room].up == [router]
    requires forall i :: 0 <= i < |u.nodes| ==> u.nodes[i].uuid != 4
    ensures var t := Close(u, router); Found(t, room, Room) && t.nodes[room].closed && 4 !in t.byUuid
  {
    hide GoodBut, Settled, Slots, Close;
    var t := Close(u, router);
    InvIsGood(t);
    GoodParts(t, multiset{});
    BorrowedIsAlive(t, room);
    LaterNodeAt(u, t, room);
    FoundIfAlive(t, room);
    ChildBelow(t, router, room);
    ClosedBelow(t, router, room);
    forall i | 0 <= i < |t.nodes| ensures t.nodes[i].uuid != 4 { LaterNodeAt(u, t, i); }
    OtherUuid(t, 4);
  }

  /** Joining the closed room that a thread still holds leaves an open member below it. */
  lemma LateJoin()
    ensures !Inv(Join(RoomClosedHeld(), 1, None, 4, 6))
  {
    hide Inv, RoomClosedHeld, DistinctUsers, Join;
    RoomClosedHeldIs();
    JoinExact(RoomClosedHeld(), 1, None, 4, 6);
  }
}
