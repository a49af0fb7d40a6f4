/**
 What joining a room and creating one do, told by the fields of the resources: who is closed, who
 comes in, and that everybody else stays as they are.
 */
module RctSeats {
  import opened RctState
  import opened RctRefs
  import opened RctInvariant
  import opened RctRelease
  import opened RctClose
  import opened RctCascade
  import opened RctSteps
  import opened RctCreation
  import opened RctProtocol
  import opened RctRooms
  import opened RctRollback
  import opened RctSurvival
  import opened RctEvents
  import opened RctEffects

  // ---------------------------------------------------------------- joining

  predicate Sits(s: State, room: Id, x: Id) {
    There(s, x, Member) && s.nodes[x].up == [room]
  }

  predicate Previous(s: State, prev: Option<Id>, x: Id) {
    prev == Some(x) && There(s, x, Member)
  }

  predicate NewMember(n: Node, room: Id, uuid: Uuid, user: int) {
    && n.kind == Member && n.uuid == uuid && n.user == user && n.wid == 0 && n.up == [room] && n.owned == []
    && n.phase == Live && !n.closed && !n.disposed
  }

  /** The previous membership ends, whether or not the room is there; if it is, the user's seat in it is
      given up and a new one taken. */
  ghost predicate Joined(s: State, t: State, room: Id, prev: Option<Id>, uuid: Uuid, user: int) {
    if There(s, room, Room) then
      && |t.nodes| == |s.nodes| + 1 && NewMember(t.nodes[|s.nodes|], room, uuid, user)
      && Shut(s, t, set x | 0 <= x < |s.nodes| && (Previous(s, prev, x) || (Sits(s, room, x) && s.nodes[x].user == user)))
    else
      |t.nodes| == |s.nodes| && Shut(s, t, set x | 0 <= x < |s.nodes| && Previous(s, prev, x))
  }

  lemma MemberShut(s: State, m: Id)
    requires Inv(s) && There(s, m, Member)
    ensures var t := CloseLk(s, m); Inv(t) && Shut(s, t, {m}) && |t.nodes| == |s.nodes| && t.borrows == s.borrows
  {
    hide GoodBut, Settled, Slots, CloseLk;
    CloseMember(s, m);
    var t := CloseLk(s, m);
    forall i | 0 <= i < |s.nodes| ensures Same(s.nodes[i].(closed := s.nodes[i].closed || i in {m}), t.nodes[i]) {
      assert EvolvesTo(s.nodes[i], t.nodes[i]);
    }
  }

  /** Whoever is to be closed is closed already or among `C`, and nobody else is in `C`. */
  lemma ShutAgain(s: State, t: State, C: set<Id>, D: set<Id>)
    requires Shut(s, t, C) && forall i :: 0 <= i < |s.nodes| && !s.nodes[i].closed ==> (i in C <==> i in D)
    ensures Shut(s, t, D)
  {
    forall i | 0 <= i < |s.nodes| ensures Same(s.nodes[i].(closed := s.nodes[i].closed || i in D), t.nodes[i]) {
      assert Same(s.nodes[i].(closed := s.nodes[i].closed || i in C), t.nodes[i]);
    }
  }

  lemma OpenStays(s: State, t: State, C: set<Id>, x: Id)
    requires Inv(s) && Inv(t) && Shut(s, t, C) && x < |s.nodes| && s.nodes[x].kind in {Room, Member} && !s.nodes[x].closed && x !in C
    ensures Alive(t, x) && !t.nodes[x].closed && t.nodes[x].kind == s.nodes[x].kind
  {
    assert Same(s.nodes[x].(closed := s.nodes[x].closed || x in C), t.nodes[x]);
    assert ShapeAt(s.nodes, x);
    OpenSurvives(t, multiset{}, x);
  }

  function Leaving(s: State, prev: Option<Id>): set<Id> {
    if prev.Some? && There(s, prev.value, Member) then {prev.value} else {}
  }

  lemma LeaveMeans(s: State, prev: Option<Id>)
    requires Inv(s)
    ensures var t := if prev.Some? && Found(s, prev.value, Member) then CloseLk(s, prev.value) else s;
      Inv(t) && Shut(s, t, Leaving(s, prev)) && |t.nodes| == |s.nodes| && t.borrows == s.borrows
  {
    hide Inv, CloseLk, Shut;
    ById(s);
    ShutSelf(s);
    if prev.Some? && Found(s, prev.value, Member) { MemberShut(s, prev.value); }
  }

  /** Who is closed to free the user's seat. */
  lemma UnseatMeans(s: State, room: Id, user: int)
    requires Inv(s) && DistinctUsers(s) && There(s, room, Room)
    ensures var t := CloseIfSome(s, MemberOf(s.nodes, ListOf(s, room, Member), user));
      && Inv(t) && |t.nodes| == |s.nodes| && t.borrows == s.borrows
      && Shut(s, t, set x | 0 <= x < |s.nodes| && Sits(s, room, x) && s.nodes[x].user == user)
  {
    hide Balanced, PositiveBut, NoHazard, Registry, Owners, Settled, Slots, CloseLk, Shut;
    var l := ListOf(s, room, Member);
    var m := MemberOf(s.nodes, l, user);
    var t := CloseIfSome(s, m);
    ShutSelf(s);
    forall x: Id ensures x in l <==> Sits(s, room, x) && !s.nodes[x].closed { SitsIs(s, room, x); }
    if m.Some? {
      MemberShut(s, m.value);
      forall x: Id | Sits(s, room, x) && s.nodes[x].user == user && !s.nodes[x].closed ensures x == m.value {
        assert SameSeat(s.nodes[x], s.nodes[m.value]);
      }
    }
    var C := if m.Some? then {m.value} else {};
    ShutAgain(s, t, C, set x | 0 <= x < |s.nodes| && Sits(s, room, x) && s.nodes[x].user == user);
  }

  lemma SitsIs(s: State, room: Id, x: Id)
    requires Shape(s) && Links(s) && room < |s.nodes|
    ensures x in ListOf(s, room, Member) <==> Sits(s, room, x) && !s.nodes[x].closed
  {
    hide Links;
    ListIs(s, room, Member, x);
    if x < |s.nodes| { assert ShapeAt(s.nodes, x); }
  }

  /** A new resource on `p`, which holds it. */
  lemma AddMeans(s: State, p: Id, n: Node)
    requires GoodBut(s, multiset{}, {}, {}) && Alive(s, p)
    ensures var g := Grab(s, [p]); var t := Register(Append(g, n), |g.nodes|);
      |g.nodes| == |s.nodes| && Shut(s, t, {}) && |t.nodes| == |s.nodes| + 1 && t.nodes[|s.nodes|] == n
  {
    hide GoodBut, Register, Append, Grab, Shut, OnlyRefs;
    var g := Grab(s, [p]);
    AppendSize(g, n);
    GrabGood(s, multiset{}, [p]);
    RefsShut(s, g);
    AddedShut(g, n);
    var none: set<Id> := {};
    ShutTwice(s, g, Register(Append(g, n), |g.nodes|), none, none);
    assert none + none == none;
  }

  lemma RefsAt(s: State, t: State)
    requires OnlyRefs(s, t)
    ensures |t.nodes| == |s.nodes| && forall x :: 0 <= x < |s.nodes| ==> t.nodes[x] == s.nodes[x].(refs := t.nodes[x].refs)
  {
  }

  lemma NewStays(s: State, t: State, i: Id, room: Id, uuid: Uuid, user: int)
    requires Inv(t) && KeepsIntent(s, t) && i < |s.nodes| && NewMember(s.nodes[i], room, uuid, user)
    ensures NewMember(t.nodes[i], room, uuid, user)
  {
    OpenSurvives(t, multiset{}, i);
  }

  lemma SeatsSame(s: State, t: State, room: Id, user: int)
    requires OnlyRefs(s, t)
    ensures (set x | 0 <= x < |s.nodes| && Sits(s, room, x) && s.nodes[x].user == user)
         == (set x | 0 <= x < |t.nodes| && Sits(t, room, x) && t.nodes[x].user == user)
  {
    RefsAt(s, t);
  }

  /** Looking up the room, freeing the seat and taking it. */
  lemma TakeSeatMeans(s: State, room: Id, uuid: Uuid, user: int)
    requires Inv(s) && DistinctUsers(s) && uuid !in s.byUuid && There(s, room, Room) && !s.nodes[room].closed
    ensures
      var s2 := Borrow(s, room);
      var s3 := CloseIfSome(s2, MemberOf(s2.nodes, ListOf(s2, room, Member), user));
      var s4 := Grab(s3, [room]);
      var t := Release(Register(Append(s4, MemberNode(room, uuid, user)), |s4.nodes|), room);
      && |t.nodes| == |s.nodes| + 1 && NewMember(t.nodes[|s.nodes|], room, uuid, user)
      && Shut(s, t, set x | 0 <= x < |s.nodes| && Sits(s, room, x) && s.nodes[x].user == user)
  {
    hide GoodBut, Settled, Slots, CloseLk, Borrow, Release, CloseIfSome, Grab, Append, Register, Evolves, DistinctUsers, OnlyRefs, Shut;
    var n := MemberNode(room, uuid, user);
    var s2 := Borrow(s, room);
    var s3 := CloseIfSome(s2, MemberOf(s2.nodes, ListOf(s2, room, Member), user));
    var s4 := Grab(s3, [room]);
    AppendSize(s4, n);
    var s5 := Register(Append(s4, n), |s4.nodes|);
    ById(s);
    BorrowMeans(s, room);
    BorrowInv(s, room);
    BorrowGood(s, multiset{}, room);
    DistinctOnlyRefs(s, s2);
    OnlyRefsAt(s, s2, room);
    OpenStays(s, s2, {}, room);
    UnseatMeans(s2, room, user);
    UnseatInv(s2, room, user);
    var C := set x | 0 <= x < |s.nodes| && Sits(s, room, x) && s.nodes[x].user == user;
    SeatsSame(s, s2, room, user);
    assert room !in C;
    OpenStays(s2, s3, C, room);
    EvolvesSize(s2, s3);
    FreshStays(s2, s3, uuid);
    InvIsGood(s3);
    AddMeans(s3, room, n);
    SeatedInv(s3, room, uuid, user);
    ReleaseShut(s5, room);
    ReleaseIntent(s5, room);
    ShutTwice(s, s2, s3, {}, C);
    ShutTwice(s, s3, s5, {} + C, {});
    ShutTwice(s, s5, Release(s5, room), {} + C + {}, {});
    assert {} + C + {} + {} == C;
    ReleaseInv(s5, room);
    NewStays(s5, Release(s5, room), |s.nodes|, room, uuid, user);
  }

  lemma JoinMeans(s: State, room: Id, prev: Option<Id>, uuid: Uuid, user: int)
    requires Inv(s) && DistinctUsers(s) && uuid !in s.byUuid && RoomReady(s, room)
    ensures Joined(s, Join(s, room, prev, uuid, user), room, prev, uuid, user)
  {
    hide GoodBut, Settled, Slots, CloseLk, Borrow, Release, CloseIfSome, Grab, Append, Register, Evolves, DistinctUsers, Shut;
    var s1 := if prev.Some? && Found(s, prev.value, Member) then CloseLk(s, prev.value) else s;
    var t := Join(s, room, prev, uuid, user);
    LeaveMeans(s, prev);
    LeavePrevious(s, prev, room, uuid);
    ById(s);
    ById(s1);
    RoomThere(s, s1, Leaving(s, prev), room);
    var L := set x | 0 <= x < |s.nodes| && Previous(s, prev, x);
    assert L == Leaving(s, prev);
    if There(s, room, Room) {
      TakeSeatMeans(s1, room, uuid, user);
      var C1 := set x | 0 <= x < |s1.nodes| && Sits(s1, room, x) && s1.nodes[x].user == user;
      var C := set x | 0 <= x < |s.nodes| && (Previous(s, prev, x) || (Sits(s, room, x) && s.nodes[x].user == user));
      ShutTwice(s, s1, t, L, C1);
      forall x | 0 <= x < |s.nodes| && !s.nodes[x].closed ensures x in L + C1 <==> x in C {
        if x !in L { SitsLater(s, s1, L, room, x); }
      }
      ShutAgain(s, t, L + C1, C);
    }
  }

  lemma RoomThere(s: State, t: State, C: set<Id>, room: Id)
    requires Inv(s) && Inv(t) && Shut(s, t, C) && |t.nodes| == |s.nodes| && RoomReady(s, room)
    requires forall x :: x in C ==> There(s, x, Member)
    ensures There(s, room, Room) <==> There(t, room, Room)
    ensures There(s, room, Room) ==> !s.nodes[room].closed && !t.nodes[room].closed
  {
    ById(s);
    if room < |s.nodes| { assert Same(s.nodes[room].(closed := s.nodes[room].closed || room in C), t.nodes[room]); }
    if There(s, room, Room) { OpenStays(s, t, C, room); }
  }

  lemma SitsLater(s: State, t: State, C: set<Id>, room: Id, x: Id)
    requires Inv(s) && Inv(t) && Shut(s, t, C) && x < |s.nodes| && !s.nodes[x].closed && x !in C
    ensures Sits(s, room, x) <==> Sits(t, room, x)
    ensures t.nodes[x].user == s.nodes[x].user
  {
    assert Same(s.nodes[x].(closed := s.nodes[x].closed || x in C), t.nodes[x]);
    if There(s, x, Member) { OpenStays(s, t, C, x); }
  }

  // ---------------------------------------------------------------- creating a room

  predicate NewRoom(n: Node, router: Id, uuid: Uuid) {
    && n.kind == Room && n.uuid == uuid && n.user == 0 && n.wid == 0 && n.up == [router] && n.owned == []
    && n.phase == Live && !n.closed && !n.disposed
  }

  /** `x` is the open room of the router or one of its members. */
  ghost predicate Evicted(s: State, router: Id, x: Id) {
    IsOpenRoom(s, router, x) || exists room: Id :: IsOpenRoom(s, router, room) && Sits(s, room, x)
  }

  /** The router's open room and its members are closed and the previous membership ends; the room and its
      first member are new. */
  ghost predicate RoomMade(s: State, t: State, router: Id, prev: Option<Id>, roomUuid: Uuid, uuid: Uuid, user: int) {
    if There(s, router, Router) then
      && |t.nodes| == |s.nodes| + 2 && NewRoom(t.nodes[|s.nodes|], router, roomUuid)
      && NewMember(t.nodes[|s.nodes| + 1], |s.nodes|, uuid, user)
      && Shut(s, t, set x | 0 <= x < |s.nodes| && (Evicted(s, router, x) || Previous(s, prev, x)))
    else t == s
  }

  lemma OneRoom(s: State, router: Id, x: Id, y: Id)
    requires Links(s) && IsOpenRoom(s, router, x) && IsOpenRoom(s, router, y)
    ensures x == y && ListOf(s, router, Room) == [x]
  {
    assert OpenRoomAt(s, x) && OpenRoomAt(s, y);
  }

  lemma EvictMeans(s: State, router: Id)
    requires Inv(s) && There(s, router, Router)
    ensures var t := CloseIfSome(s, First(ListOf(s, router, Room)));
      && |t.nodes| == |s.nodes| && t.borrows == s.borrows
      && Shut(s, t, set x | 0 <= x < |s.nodes| && Evicted(s, router, x))
  {
    hide Balanced, PositiveBut, NoHazard, Registry, Owners, Settled, Slots, CloseLk, Shut, Links;
    var slot := ListOf(s, router, Room);
    var t := CloseIfSome(s, First(slot));
    var C := set x | 0 <= x < |s.nodes| && Evicted(s, router, x);
    ShutSelf(s);
    forall x: Id ensures x in slot <==> IsOpenRoom(s, router, x) { RoomIs(s, router, x); }
    if slot == [] {
      assert C == {};
    } else {
      assert slot[0] in slot;
      RoomShut(s, slot[0]);
      forall x | 0 <= x < |s.nodes| && !s.nodes[x].closed ensures x in BelowOf(s, slot[0]) <==> x in C {
        RoomBelow(s, router, slot[0], x);
      }
      ShutAgain(s, t, BelowOf(s, slot[0]), C);
    }
  }

  lemma RoomShut(s: State, b: Id)
    requires Inv(s) && There(s, b, Room)
    ensures var t := CloseLk(s, b); |t.nodes| == |s.nodes| && t.borrows == s.borrows && Shut(s, t, BelowOf(s, b))
  {
    hide GoodBut, Settled, Slots, CloseLk, Below, ClosesDown;
    var t := CloseLk(s, b);
    InvIsGood(s);
    GoodParts(s, multiset{});
    BelowRoomKinds(s, b);
    ClosesDownIs(s, b);
    GoodParts(t, multiset{});
    DownAt(s, t, b, b);
    forall i | 0 <= i < |s.nodes| ensures Same(s.nodes[i].(closed := s.nodes[i].closed || i in BelowOf(s, b)), t.nodes[i]) {
      DownAt(s, t, b, i);
      if Below(s.nodes, b, i) && !t.nodes[i].closed {
        assert ShapeAt(s.nodes, i);
        OpenSurvives(t, multiset{}, i);
      }
    }
  }

  lemma RoomBelow(s: State, router: Id, b: Id, x: Id)
    requires Inv(s) && IsOpenRoom(s, router, b) && x < |s.nodes| && !s.nodes[x].closed
    ensures Below(s.nodes, b, x) <==> Evicted(s, router, x)
  {
    hide Balanced, PositiveBut, NoHazard, Registry, Owners, Settled, Slots, Links, Below;
    assert ShapeAt(s.nodes, x);
    if Below(s.nodes, b, x) && x != b {
      BelowRoomKind(s, b, x);
      OpenSurvives(s, multiset{}, x);
      var p := s.nodes[x].up[0];
      ParentBelow(s, b, x);
      BelowRoomKind(s, b, p);
      assert IsOpenRoom(s, router, p) && Sits(s, p, x);
    }
    if IsOpenRoom(s, router, x) { OneRoom(s, router, b, x); }
    if room: Id :| IsOpenRoom(s, router, room) && Sits(s, room, x) {
      OneRoom(s, router, b, room);
      ChildBelow(s, b, x);
    }
    SelfBelow(s, b);
  }

  lemma SelfBelow(s: State, b: Id)
    ensures Below(s.nodes, b, b)
  {
  }

  lemma ParentBelow(s: State, b: Id, x: Id)
    requires Shape(s) && x < |s.nodes| && s.nodes[x].kind == Member && Below(s.nodes, b, x) && x != b
    ensures |s.nodes[x].up| == 1 && s.nodes[x].up[0] < x && Below(s.nodes, b, s.nodes[x].up[0])
    ensures s.nodes[s.nodes[x].up[0]].kind == Room
  {
    assert ShapeAt(s.nodes, x);
  }

  /** Nobody sits in a room that was just added. */
  lemma NobodyYet(s: State, room: Id, x: Id)
    requires Shape(s) && |s.nodes| == room + 1
    ensures !Sits(s, room, x)
  {
    if x < |s.nodes| {
      assert ShapeAt(s.nodes, x);
      assert room !in s.nodes[x].up;
    }
  }

  lemma NewRoomStays(s: State, t: State, C: set<Id>, i: Id, router: Id, uuid: Uuid)
    requires Inv(t) && Shut(s, t, C) && i < |s.nodes| && i !in C && NewRoom(s.nodes[i], router, uuid)
    ensures NewRoom(t.nodes[i], router, uuid)
  {
    assert Same(s.nodes[i].(closed := s.nodes[i].closed || i in C), t.nodes[i]);
    OpenSurvives(t, multiset{}, i);
  }

  /** Looking up the router, closing its present room and adding the new one. */
  lemma NewRoomMeans(s: State, router: Id, roomUuid: Uuid, uuid: Uuid)
    requires Inv(s) && DistinctUsers(s) && There(s, router, Router) && !s.nodes[router].closed
    requires uuid !in s.byUuid && roomUuid !in s.byUuid && uuid != roomUuid
    ensures
      var s1 := Borrow(s, router);
      var s2 := CloseIfSome(s1, First(ListOf(s1, router, Room)));
      var s3 := Grab(s2, [router]);
      && |s3.nodes| == |s.nodes|
      && var t := Register(Append(s3, RoomNode(router, roomUuid)), |s3.nodes|);
      && Inv(t) && DistinctUsers(t) && uuid !in t.byUuid && t.borrows == s.borrows + multiset{router}
      && |t.nodes| == |s.nodes| + 1 && NewRoom(t.nodes[|s.nodes|], router, roomUuid)
      && Shut(s, t, set x | 0 <= x < |s.nodes| && Evicted(s, router, x))
  {
    hide GoodBut, Settled, Slots, SlotsBut, CloseLk, Borrow, CloseIfSome, Grab, Append, Register, Evolves, DistinctUsers, OnlyRefs,
      Shut, ChildrenClosed;
    var n := RoomNode(router, roomUuid);
    var s1 := Borrow(s, router);
    var s2 := CloseIfSome(s1, First(ListOf(s1, router, Room)));
    var s3 := Grab(s2, [router]);
    AppendSize(s3, n);
    var t := Register(Append(s3, n), |s3.nodes|);
    ById(s);
    BorrowMeans(s, router);
    BorrowInv(s, router);
    BorrowGood(s, multiset{}, router);
    DistinctOnlyRefs(s, s1);
    RefsAt(s, s1);
    OnlyRefsAt(s, s1, router);
    EvictMeans(s1, router);
    CloseOldRoom(s1, router);
    EvolvesSize(s1, s2);
    EvolvesKind(s1, s2, router);
    FreshStays(s1, s2, uuid);
    FreshStays(s1, s2, roomUuid);
    BorrowedThere(s2, router);
    AddMeans(s2, router, n);
    NewRoomInv(s2, router, roomUuid);
    var C := set x | 0 <= x < |s.nodes| && Evicted(s, router, x);
    forall x: Id ensures Evicted(s, router, x) <==> Evicted(s1, router, x) { EvictedSame(s, s1, router, x); }
    assert C == set x | 0 <= x < |s1.nodes| && Evicted(s1, router, x);
    ShutTwice(s, s1, s2, {}, C);
    ShutTwice(s, s2, t, {} + C, {});
    assert {} + C + {} == C;
  }

  lemma BorrowedThere(s: State, i: Id)
    requires GoodBut(s, multiset{}, {}, {}) && i in s.borrows
    ensures Alive(s, i)
  {
    BorrowedIsAlive(s, i);
  }

  lemma EvictedSame(s: State, t: State, router: Id, x: Id)
    requires |t.nodes| == |s.nodes| && forall x :: 0 <= x < |s.nodes| ==> t.nodes[x] == s.nodes[x].(refs := t.nodes[x].refs)
    ensures Evicted(s, router, x) <==> Evicted(t, router, x)
  {
    forall room: Id ensures IsOpenRoom(s, router, room) <==> IsOpenRoom(t, router, room) {}
  }

  lemma CreateRoomMeans(s: State, router: Id, prev: Option<Id>, roomUuid: Uuid, uuid: Uuid, user: int)
    requires Inv(s) && DistinctUsers(s) && uuid !in s.byUuid && roomUuid !in s.byUuid && uuid != roomUuid
    requires Found(s, router, Router) ==> !s.nodes[router].closed
    ensures RoomMade(s, CreateRoom(s, router, prev, roomUuid, uuid, user), router, prev, roomUuid, uuid, user)
  {
    hide GoodBut, Settled, Slots, SlotsBut, CloseLk, Borrow, Release, CloseIfSome, Grab, Append, Register, DistinctUsers, Shut, Join, Evicted;
    ById(s);
    if There(s, router, Router) {
      var r := |s.nodes|;
      NewRoomMeans(s, router, roomUuid, uuid);
      var s1 := Borrow(s, router);
      var s2 := CloseIfSome(s1, First(ListOf(s1, router, Room)));
      var s3 := Grab(s2, [router]);
      AppendSize(s3, RoomNode(router, roomUuid));
      var s4 := Register(Append(s3, RoomNode(router, roomUuid)), |s3.nodes|);
      var E := set x | 0 <= x < |s.nodes| && Evicted(s, router, x);
      InvIsGood(s4);
      GoodParts(s4, multiset{});
      forall x: Id ensures !Sits(s4, r, x) { NobodyYet(s4, r, x); }
      JoinMeans(s4, r, prev, uuid, user);
      JoinInv(s4, r, prev, uuid, user);
      var s5 := Join(s4, r, prev, uuid, user);
      var t := Release(s5, router);
      ReleaseShut(s5, router);
      ReleaseInv(s5, router);
      ReleaseIntent(s5, router);
      RoomTaken(s, s4, s5, t, E, router, prev, roomUuid, uuid, user);
    } else {
      NoRouter(s, router, prev, roomUuid, uuid, user);
    }
  }

  lemma NoRouter(s: State, router: Id, prev: Option<Id>, roomUuid: Uuid, uuid: Uuid, user: int)
    requires !Found(s, router, Router)
    ensures CreateRoom(s, router, prev, roomUuid, uuid, user) == s
  {
  }

  /** The room is there, and its creator joins it. */
  lemma RoomTaken(s: State, u: State, v: State, t: State, E: set<Id>, router: Id, prev: Option<Id>, roomUuid: Uuid, uuid: Uuid, user: int)
    requires Inv(s) && Inv(u) && Inv(v) && Inv(t) && There(s, router, Router)
    requires E == set x | 0 <= x < |s.nodes| && Evicted(s, router, x)
    requires Shut(s, u, E) && |u.nodes| == |s.nodes| + 1 && NewRoom(u.nodes[|s.nodes|], router, roomUuid)
    requires Joined(u, v, |s.nodes|, prev, uuid, user) && forall x: Id :: !Sits(u, |s.nodes|, x)
    requires Shut(v, t, {}) && |t.nodes| == |v.nodes| && KeepsIntent(v, t)
    ensures RoomMade(s, t, router, prev, roomUuid, uuid, user)
  {
    hide Inv, Shut, Evicted;
    var r := |s.nodes|;
    var C4 := set x | 0 <= x < |u.nodes| && (Previous(u, prev, x) || (Sits(u, r, x) && u.nodes[x].user == user));
    assert There(u, r, Room);
    NewRoomStays(u, v, C4, r, router, roomUuid);
    NewRoomStays(v, t, {}, r, router, roomUuid);
    NewStays(v, t, r + 1, r, uuid, user);
    ShutTwice(s, u, v, E, C4);
    ShutTwice(s, v, t, E + C4, {});
    var C := set x | 0 <= x < |s.nodes| && (Evicted(s, router, x) || Previous(s, prev, x));
    forall x | 0 <= x < |s.nodes| && !s.nodes[x].closed ensures x in E + C4 + {} <==> x in C {
      if x !in E { PreviousLater(s, u, E, prev, x); }
    }
    ShutAgain(s, t, E + C4 + {}, C);
  }

  lemma PreviousLater(s: State, t: State, C: set<Id>, prev: Option<Id>, x: Id)
    requires Inv(s) && Inv(t) && Shut(s, t, C) && x < |s.nodes| && !s.nodes[x].closed && x !in C
    ensures Previous(s, prev, x) <==> Previous(t, prev, x)
  {
    assert Same(s.nodes[x].(closed := s.nodes[x].closed || x in C), t.nodes[x]);
    if There(s, x, Member) { OpenStays(s, t, C, x); }
  }
}
