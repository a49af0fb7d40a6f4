/**
 Joining and creating rooms (src/rct/rct_room.c) as single lock-held sections.
 */
module RctRooms {
  import opened RctState
  import opened RctRefs
  import opened RctInvariant
  import opened RctRelease
  import opened RctClose
  import opened RctCascade
  import opened RctSteps
  import opened RctCreation
  import opened RctProtocol

  /** No two open members of a room belong to the same user. */
  ghost predicate DistinctUsers(s: State) {
    forall x, y :: 0 <= x < |s.nodes| && 0 <= y < |s.nodes| && SameSeat(s.nodes[x], s.nodes[y]) ==> x == y
  }

  predicate SameSeat(a: Node, b: Node) {
    && a.kind == Member && b.kind == Member && a.up == b.up && a.user == b.user
    && !a.disposed && !b.disposed && !a.closed && !b.closed
  }

  lemma DistinctEvolves(s: State, t: State)
    requires DistinctUsers(s) && Evolves(s, t)
    ensures DistinctUsers(t)
  {
    assert forall i :: 0 <= i < |s.nodes| ==> EvolvesTo(s.nodes[i], t.nodes[i]);
    forall x, y | 0 <= x < |t.nodes| && 0 <= y < |t.nodes| && SameSeat(t.nodes[x], t.nodes[y]) ensures x == y {
      assert SameSeat(s.nodes[x], s.nodes[y]);
    }
  }

  lemma DistinctOnlyRefs(s: State, t: State)
    requires DistinctUsers(s) && OnlyRefs(s, t)
    ensures DistinctUsers(t)
  {
    forall x, y | 0 <= x < |t.nodes| && 0 <= y < |t.nodes| && SameSeat(t.nodes[x], t.nodes[y]) ensures x == y {
      assert SameSeat(s.nodes[x], s.nodes[y]);
    }
  }

  /** A uuid that is free stays free while resources only disappear. */
  lemma FreshStays(s: State, t: State, u: Uuid)
    requires Good(s) && Good(t) && Evolves(s, t) && u !in s.byUuid
    ensures u !in t.byUuid
  {
    forall i | i in t.byId ensures t.nodes[i].uuid in s.byUuid {
      assert Registered(t, {}, i);
      assert EvolvesTo(s.nodes[i], t.nodes[i]);
      assert Registered(s, {}, i);
    }
  }

  // ---------------------------------------------------------------- closing members

  lemma MemberAlone(s: State, m: Id)
    requires Shape(s) && m < |s.nodes| && s.nodes[m].kind == Member
    ensures NoFailedBelow(s, m)
    ensures forall x :: 0 <= x < |s.nodes| && Below(s.nodes, m, x) ==> x == m
  {
    assert ShapeAt(s.nodes, m);
    forall x | 0 <= x < |s.nodes| && Below(s.nodes, m, x) ensures x == m {
      BelowRank(s, m, x);
    }
  }

  /** Closing one member closes nobody else. */
  lemma {:induction false} CloseMember(s: State, m: Id)
    requires Inv(s) && m < |s.nodes| && !s.nodes[m].disposed && s.nodes[m].kind == Member
    ensures var t := CloseLk(s, m);
      && Inv(t) && Evolves(s, t) && t.nodes[m].closed
      && forall x :: 0 <= x < |s.nodes| && x != m ==> t.nodes[x].closed == s.nodes[x].closed
  {
    var t := CloseLk(s, m);
    MemberAlone(s, m);
    CloseLkInv(s, m);
    assert forall i :: 0 <= i < |s.nodes| ==> EvolvesTo(s.nodes[i], t.nodes[i]);
  }

  // ---------------------------------------------------------------- joining

  function MemberNode(room: Id, uuid: Uuid, user: int): Node {
    Node(Member, uuid, 0, user, 1, false, false, Live, [room], [])
  }

  /** The state in which the new member takes its seat. */
  ghost predicate SeatFree(s: State, room: Id, user: int) {
    forall x ::
      (0 <= x < |s.nodes| && s.nodes[x].kind == Member && s.nodes[x].up == [room]
       && !s.nodes[x].disposed && !s.nodes[x].closed) ==> s.nodes[x].user != user
  }

  lemma {:induction false} SeatedInv(s: State, room: Id, uuid: Uuid, user: int)
    requires Inv(s) && DistinctUsers(s) && SeatFree(s, room, user) && room in s.borrows && uuid !in s.byUuid
    requires room < |s.nodes| && s.nodes[room].kind == Room && !s.nodes[room].closed
    ensures
      var g := Grab(s, [room]);
      var t := Register(Append(g, MemberNode(room, uuid, user)), |g.nodes|);
      Inv(t) && DistinctUsers(t) && t.borrows == s.borrows && |t.nodes| == |s.nodes| + 1
  {
    hide GoodBut, Settled, Slots, Register, Append, Grab;
    var g := Grab(s, [room]);
    var n := MemberNode(room, uuid, user);
    GoodParts(s, multiset{});
    BorrowedIsAlive(s, room);
    GrabGood(s, multiset{}, [room]);
    OnlyRefsInv(s, g);
    assert Fresh(g, n);
    GoodParts(g, multiset{} + multiset([room]));
    AppendGood(g, multiset{}, n);
    AppendSettled(g, n);
    AppendSlots(g, n);
    AppendSize(g, n);
    RegisterInv(Append(g, n), |g.nodes|);
    RegisterRest(Append(g, n), |g.nodes|);
    SeatedDistinct(s, g, n, room, user);
  }

  lemma SeatedDistinct(s: State, g: State, n: Node, room: Id, user: int)
    requires DistinctUsers(s) && SeatFree(s, room, user) && OnlyRefs(s, g) && n.up == [room] && n.user == user
    ensures var a := Append(g, n); a.borrows == g.borrows && DistinctUsers(a)
    ensures DistinctUsers(Register(Append(g, n), |g.nodes|))
  {
    var a := Append(g, n);
    RegisterRest(a, |g.nodes|);
    forall x, y | 0 <= x < |a.nodes| && 0 <= y < |a.nodes| && SameSeat(a.nodes[x], a.nodes[y]) ensures x == y {
      if x < |s.nodes| && y < |s.nodes| { assert SameSeat(s.nodes[x], s.nodes[y]); }
    }
  }

  /** Who sat in the user's place has left. */
  lemma {:induction false} UnseatInv(s: State, room: Id, user: int)
    requires Inv(s) && DistinctUsers(s) && room < |s.nodes|
    ensures
      var t := CloseIfSome(s, MemberOf(s.nodes, ListOf(s, room, Member), user));
      && Inv(t) && DistinctUsers(t) && Evolves(s, t) && SeatFree(t, room, user)
      && (s.nodes[room].kind == Room ==> t.nodes[room].closed == s.nodes[room].closed)
  {
    var l := ListOf(s, room, Member);
    var m := MemberOf(s.nodes, l, user);
    var t := CloseIfSome(s, m);
    GoodParts(s, multiset{});
    assert ListAt(s, room, Member);
    if m.Some? {
      assert Child(s.nodes, room, Member, m.value);
      CloseMember(s, m.value);
    } else {
      assert t == s;
    }
    DistinctEvolves(s, t);
    UnseatedFree(s, t, room, user);
  }

  lemma UnseatedFree(s: State, t: State, room: Id, user: int)
    requires Shape(s) && room < |s.lists| && ListAt(s, room, Member) && DistinctUsers(s) && Evolves(s, t)
    requires var m := MemberOf(s.nodes, ListOf(s, room, Member), user); m.Some? ==> t.nodes[m.value].closed
    ensures SeatFree(t, room, user)
  {
    var m := MemberOf(s.nodes, ListOf(s, room, Member), user);
    forall x | 0 <= x < |t.nodes| && t.nodes[x].kind == Member && t.nodes[x].up == [room]
               && !t.nodes[x].disposed && !t.nodes[x].closed
      ensures t.nodes[x].user != user
    {
      assert EvolvesTo(s.nodes[x], t.nodes[x]);
      assert Child(s.nodes, room, Member, x);
      if m.Some? && s.nodes[x].user == user {
        assert Child(s.nodes, room, Member, m.value);
        assert ShapeAt(s.nodes, m.value);
        assert SameSeat(s.nodes[x], s.nodes[m.value]);
      }
    }
  }

  ghost predicate RoomReady(s: State, room: Id) {
    Found(s, room, Room) ==> !s.nodes[room].closed
  }

  lemma {:induction false} LeavePrevious(s: State, prev: Option<Id>, room: Id, u: Uuid)
    requires Inv(s) && DistinctUsers(s) && u !in s.byUuid && RoomReady(s, room)
    ensures
      var t := if prev.Some? && Found(s, prev.value, Member) then CloseLk(s, prev.value) else s;
      Inv(t) && DistinctUsers(t) && Evolves(s, t) && u !in t.byUuid && RoomReady(t, room)
  {
    if prev.Some? && Found(s, prev.value, Member) {
      var m := prev.value;
      var t := CloseLk(s, m);
      GoodParts(s, multiset{});
      assert Registered(s, {}, m);
      CloseMember(s, m);
      DistinctEvolves(s, t);
      FreshStays(s, t, u);
      if Found(t, room, Room) {
        assert Registered(t, {}, room) && EvolvesTo(s.nodes[room], t.nodes[room]);
        assert Registered(s, {}, room);
      }
    }
  }

  /** Joining keeps the invariant; a user never sits twice in a room. */
  lemma JoinInv(s: State, room: Id, prev: Option<Id>, uuid: Uuid, user: int)
    requires Inv(s) && DistinctUsers(s) && uuid !in s.byUuid && RoomReady(s, room)
    ensures var t := Join(s, room, prev, uuid, user); Inv(t) && DistinctUsers(t) && t.borrows == s.borrows
  {
    hide GoodBut, Settled, Slots, CloseLk, Borrow, Release, CloseIfSome, Grab, Append, Register, Evolves, DistinctUsers;
    var s1 := if prev.Some? && Found(s, prev.value, Member) then CloseLk(s, prev.value) else s;
    LeavePrevious(s, prev, room, uuid);
    EvolvesSize(s, s1);
    if Found(s1, room, Room) {
      JoinFound(s1, room, uuid, user);
    }
  }

  lemma EvolvesSize(s: State, t: State)
    requires Evolves(s, t)
    ensures |t.nodes| == |s.nodes| && t.borrows == s.borrows
  {
  }

  lemma {:induction false} JoinFound(s1: State, room: Id, uuid: Uuid, user: int)
    requires Inv(s1) && DistinctUsers(s1) && uuid !in s1.byUuid && Found(s1, room, Room) && !s1.nodes[room].closed
    ensures
      var s2 := Borrow(s1, room);
      var s3 := CloseIfSome(s2, MemberOf(s2.nodes, ListOf(s2, room, Member), user));
      var s4 := Grab(s3, [room]);
      var t := Release(Register(Append(s4, MemberNode(room, uuid, user)), |s4.nodes|), room);
      Inv(t) && DistinctUsers(t) && t.borrows == s1.borrows
  {
    hide GoodBut, Settled, Slots, CloseLk, Borrow, Release, CloseIfSome, Grab, Append, Register, Evolves, DistinctUsers, OnlyRefs;
    var s2 := Borrow(s1, room);
    var s3 := CloseIfSome(s2, MemberOf(s2.nodes, ListOf(s2, room, Member), user));
    var s4 := Grab(s3, [room]);
    AppendSize(s4, MemberNode(room, uuid, user));
    var s5 := Register(Append(s4, MemberNode(room, uuid, user)), |s4.nodes|);
    BorrowInv(s1, room);
    BorrowGood(s1, multiset{}, room);
    DistinctOnlyRefs(s1, s2);
    OnlyRefsAt(s1, s2, room);
    UnseatInv(s2, room, user);
    EvolvesSize(s2, s3);
    EvolvesKind(s2, s3, room);
    FreshStays(s2, s3, uuid);
    SeatedInv(s3, room, uuid, user);
    ReleaseInv(s5, room);
    ReleaseDistinct(s5, room);
    assert s5.borrows - multiset{room} == s1.borrows;
  }

  lemma OnlyRefsAt(s: State, t: State, i: Id)
    requires OnlyRefs(s, t) && i < |s.nodes|
    ensures |t.nodes| == |s.nodes| && t.byUuid == s.byUuid
    ensures t.nodes[i].kind == s.nodes[i].kind && t.nodes[i].closed == s.nodes[i].closed
  {
  }

  lemma EvolvesKind(s: State, t: State, i: Id)
    requires Evolves(s, t) && i < |s.nodes|
    ensures t.nodes[i].kind == s.nodes[i].kind
  {
    assert EvolvesTo(s.nodes[i], t.nodes[i]);
  }

  lemma ReleaseDistinct(s: State, i: Id)
    requires Inv(s) && DistinctUsers(s) && i in s.borrows
    ensures DistinctUsers(Release(s, i)) && Release(s, i).borrows == s.borrows - multiset{i}
  {
    var u := s.(borrows := s.borrows - multiset{i});
    LetGo(s, multiset{}, i);
    assert multiset{} + multiset{i} == multiset{i};
    GoodParts(u, multiset{i});
    RefLkFrame(u, i, -1);
    assert FrameAt(u, Release(s, i), i);
    assert DistinctUsers(u);
    DistinctEvolves(u, Release(s, i));
  }

  // ---------------------------------------------------------------- creating a room

  lemma BelowRoomKinds(s: State, b: Id)
    requires Shape(s) && b < |s.nodes| && s.nodes[b].kind == Room
    ensures NoFailedBelow(s, b)
    ensures forall x :: 0 <= x < |s.nodes| && Below(s.nodes, b, x) ==> x == b || s.nodes[x].kind == Member
  {
    forall x | 0 <= x < |s.nodes| && Below(s.nodes, b, x) ensures x == b || s.nodes[x].kind == Member {
      BelowRoomKind(s, b, x);
    }
    forall x | 0 <= x < |s.nodes| && Below(s.nodes, b, x) ensures s.nodes[x].phase == Live {
      assert ShapeAt(s.nodes, x);
    }
  }

  lemma {:induction false} BelowRoomKind(s: State, b: Id, x: Id)
    requires Shape(s) && b < |s.nodes| && s.nodes[b].kind == Room && x < |s.nodes| && Below(s.nodes, b, x)
    ensures x == b || s.nodes[x].kind == Member
    decreases x
  {
    if x != b {
      assert ShapeAt(s.nodes, x);
      var j := if Below(s.nodes, b, s.nodes[x].up[0]) then 0 else 1;
      assert s.nodes[s.nodes[x].up[j]].kind == ParentKinds(s.nodes[x].kind)[j];
      BelowRoomKind(s, b, s.nodes[x].up[j]);
    }
  }

  /** While the slot of `router` is being refilled it may name a closed room. */
  ghost predicate SlotsBut(s: State, router: Id) {
    forall r :: 0 <= r < |s.lists| && r != router ==> SlotAt(s, r)
  }

  lemma CloseOldRoom(s: State, router: Id)
    requires Inv(s) && DistinctUsers(s) && router < |s.nodes| && s.nodes[router].kind == Router
    ensures
      var t := CloseIfSome(s, First(ListOf(s, router, Room)));
      && Steady(t, multiset{}) && Evolves(s, t) && SlotsBut(t, router) && DistinctUsers(t)
      && ChildrenClosed(t, router, Room) && t.nodes[router].closed == s.nodes[router].closed
  {
    var slot := ListOf(s, router, Room);
    GoodParts(s, multiset{});
    SlotShape(s, router);
    assert SlotAt(s, router);
    if slot != [] {
      CloseOldFound(s, router, slot[0]);
    }
  }

  lemma CloseOldFound(s: State, router: Id, x: Id)
    requires Inv(s) && DistinctUsers(s) && router < |s.nodes| && s.nodes[router].kind == Router
    requires ListOf(s, router, Room) == [x] && x < |s.nodes| && s.nodes[x].kind == Room && s.nodes[x].up == [router]
    requires !s.nodes[x].disposed
    ensures
      var t := CloseLk(s, x);
      && Steady(t, multiset{}) && Evolves(s, t) && SlotsBut(t, router) && DistinctUsers(t)
      && ChildrenClosed(t, router, Room) && t.nodes[router].closed == s.nodes[router].closed
  {
    hide GoodBut, Settled, CloseLk, DistinctUsers, Slots, SlotAt;
    var t := CloseLk(s, x);
    GoodParts(s, multiset{});
    BelowRoomKinds(s, x);
    CloseLkSteady(s, multiset{}, x);
    CloseLkRooms(s, x);
    DistinctEvolves(s, t);
    ForgetChildren(s, t, router, x);
    OtherSlots(s, t, router, x);
  }

  lemma OtherSlots(s: State, t: State, router: Id, x: Id)
    requires Inv(s) && Good(t) && Evolves(s, t) && OnlyBelow(s, t, x) && RoomsShrink(s, t)
    requires x < |s.nodes| && s.nodes[x].kind == Room && s.nodes[x].up == [router]
    ensures SlotsBut(t, router)
  {
    BelowRoomKinds(s, x);
    forall r | 0 <= r < |t.lists| && r != router ensures SlotAt(t, r) {
      assert SlotAt(s, r) && RoomAt(s, r);
      forall y | y in t.lists[r].room ensures y < |t.nodes| && !t.nodes[y].disposed && !t.nodes[y].closed {
        assert y in s.lists[r].room;
        assert EvolvesTo(s.nodes[y], t.nodes[y]);
        assert ShapeAt(s.nodes, y);
        assert !t.nodes[y].closed;
        OpenSurvives(t, multiset{}, y);
      }
    }
  }

  function RoomNode(router: Id, uuid: Uuid): Node {
    Node(Room, uuid, 0, 0, 1, false, false, Live, [router], [])
  }

  lemma {:induction false} NewRoomInv(s: State, router: Id, uuid: Uuid)
    requires Steady(s, multiset{}) && SlotsBut(s, router) && DistinctUsers(s) && ChildrenClosed(s, router, Room)
    requires router in s.borrows && uuid !in s.byUuid
    requires router < |s.nodes| && s.nodes[router].kind == Router && !s.nodes[router].closed
    ensures
      var g := Grab(s, [router]);
      var t := Register(Append(g, RoomNode(router, uuid)), |g.nodes|);
      && Inv(t) && DistinctUsers(t) && t.borrows == s.borrows && t.byUuid == s.byUuid[uuid := |g.nodes|]
      && |g.nodes| < |t.nodes| && Found(t, |g.nodes|, Room) && !t.nodes[|g.nodes|].closed
  {
    hide GoodBut, Settled, SlotsBut, Append, Grab, DistinctUsers, ChildrenClosed, OnlyRefs;
    var g := Grab(s, [router]);
    var n := RoomNode(router, uuid);
    var a := Append(g, n);
    GoodParts(s, multiset{});
    BorrowedIsAlive(s, router);
    GrabGood(s, multiset{}, [router]);
    OnlyRefsRooms(s, g, router);
    OnlyRefsAt(s, g, router);
    DistinctOnlyRefs(s, g);
    GoodParts(g, multiset{} + multiset([router]));
    AppendGood(g, multiset{}, n);
    AppendSettled(g, n);
    AppendSize(g, n);
    NewSlot(g, n, router);
    RegisterInv(a, |g.nodes|);
    RegisterRest(a, |g.nodes|);
    DistinctRegister(g, n);
  }

  lemma DistinctRegister(g: State, n: Node)
    requires DistinctUsers(g) && n.kind != Member
    ensures DistinctUsers(Register(Append(g, n), |g.nodes|)) && Append(g, n).borrows == g.borrows
    ensures Append(g, n).nodes[|g.nodes|] == n && Append(g, n).byUuid == g.byUuid
    ensures Append(g, n).byId == g.byId
    ensures var t := Register(Append(g, n), |g.nodes|); t.byUuid == g.byUuid[n.uuid := |g.nodes|] && |g.nodes| in t.byId
  {
    var a := Append(g, n);
    RegisterRest(a, |g.nodes|);
    forall x, y | 0 <= x < |a.nodes| && 0 <= y < |a.nodes| && SameSeat(a.nodes[x], a.nodes[y]) ensures x == y {
      assert SameSeat(g.nodes[x], g.nodes[y]);
    }
  }

  lemma OnlyRefsRooms(s: State, g: State, router: Id)
    requires Steady(s, multiset{}) && SlotsBut(s, router) && ChildrenClosed(s, router, Room) && OnlyRefs(s, g)
    ensures Settled(g, multiset{}) && SlotsBut(g, router) && ChildrenClosed(g, router, Room)
  {
    forall r | 0 <= r < |g.lists| && r != router ensures SlotAt(g, r) { assert SlotAt(s, r); }
  }

  lemma NewSlot(g: State, n: Node, router: Id)
    requires SlotsBut(g, router) && n.kind == Room && n.up == [router] && !n.closed && !n.disposed
    requires |g.lists| == |g.nodes| && router < |g.lists|
    ensures Slots(Append(g, n))
  {
    var t := Append(g, n);
    forall r | 0 <= r < |t.lists| ensures SlotAt(t, r) {
      if r < |g.lists| && r != router { assert SlotAt(g, r); }
    }
  }

  /** Creating a room keeps the invariant; the previous room of the router is closed. */
  lemma {:induction false} CreateRoomInv(s: State, router: Id, prev: Option<Id>, roomUuid: Uuid, uuid: Uuid, user: int)
    requires Inv(s) && DistinctUsers(s) && uuid !in s.byUuid && roomUuid !in s.byUuid && uuid != roomUuid
    requires Found(s, router, Router) ==> !s.nodes[router].closed
    ensures var t := CreateRoom(s, router, prev, roomUuid, uuid, user);
      Inv(t) && DistinctUsers(t) && t.borrows == s.borrows
  {
    hide GoodBut, Settled, SlotsBut, Append, Register, Grab, DistinctUsers, ChildrenClosed, OnlyRefs, CloseLk, Borrow,
      Release, CloseIfSome, Join, Slots, Evolves;
    if Found(s, router, Router) {
      var s1 := Borrow(s, router);
      var s2 := CloseIfSome(s1, First(ListOf(s1, router, Room)));
      var s3 := Grab(s2, [router]);
      AppendSize(s3, RoomNode(router, roomUuid));
      var s4 := Register(Append(s3, RoomNode(router, roomUuid)), |s3.nodes|);
      BorrowInv(s, router);
      BorrowGood(s, multiset{}, router);
      DistinctOnlyRefs(s, s1);
      OnlyRefsAt(s, s1, router);
      CloseOldRoom(s1, router);
      EvolvesSize(s1, s2);
      EvolvesKind(s1, s2, router);
      FreshStays(s1, s2, uuid);
      FreshStays(s1, s2, roomUuid);
      NewRoomInv(s2, router, roomUuid);
      JoinInv(s4, |s3.nodes|, prev, uuid, user);
      var s5 := Join(s4, |s3.nodes|, prev, uuid, user);
      ReleaseInv(s5, router);
      ReleaseDistinct(s5, router);
      assert s5.borrows - multiset{router} == s.borrows;
    }
  }
}
