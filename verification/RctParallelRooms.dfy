/**
 Twins and rooms: joining and creating a room in two worlds of which one has a half-made
 resource more.
 */
module RctParallelRooms {
  import opened RctState
  import opened RctRefs
  import opened RctInvariant
  import opened RctRelease
  import opened RctClose
  import opened RctCascade
  import opened RctSteps
  import opened RctCreation
  import opened RctProtocol
  import opened RctRooms
  import opened RctRollback
  import opened RctSurvival
  import opened RctParallel

  // ---------------------------------------------------------------- closing one member

  lemma TwinCloseMember(u: State, w: State, c: Id, m: Id)
    requires Twin(u, w, c) && Inv(u) && Inv(w) && Alive(u, m) && u.nodes[m].kind == Member
    ensures Alive(w, m) && Twin(CloseLk(u, m), CloseLk(w, m), c)
  {
    hide GoodBut, Settled, Slots, Twin, NoFailedBelow, ClosesDown, CloseLk;
    InvIsGood(u);
    InvIsGood(w);
    GoodParts(u, multiset{});
    GoodParts(w, multiset{});
    TwinAt(u, w, c, m);
    MembersAlike(u, w, c, m);
    MemberAlone(u, m);
    MemberAlone(w, m);
    ClosesDownIs(u, m);
    ClosesDownIs(w, m);
    TwinClose(u, w, CloseLk(u, m), CloseLk(w, m), c, m);
  }

  lemma {:induction false} MemberOfSame(a: seq<Node>, b: seq<Node>, l: seq<Id>, user: int)
    requires |a| == |b| && forall i :: 0 <= i < |a| ==> a[i].user == b[i].user
    ensures MemberOf(a, l, user) == MemberOf(b, l, user)
  {
    if l != [] { MemberOfSame(a, b, l[1..], user); }
  }

  /** Both worlds seat the same members in a room. */
  lemma SeatsSame(u: State, w: State, c: Id, room: Id)
    requires Twin(u, w, c) && Good(u) && Good(w) && room < |u.nodes|
    ensures ListOf(u, room, Member) == ListOf(w, room, Member)
  {
    hide GoodBut, Shape, Ordered;
    GoodParts(u, multiset{});
    GoodParts(w, multiset{});
    ListSizes(u, w, room);
    assert ListAt(u, room, Member) && ListAt(w, room, Member);
    forall x: Id ensures x in ListOf(u, room, Member) <==> x in ListOf(w, room, Member) {
      SeatSame(u, w, c, room, x);
    }
    OrderedUnique(Member, ListOf(u, room, Member), ListOf(w, room, Member));
  }

  lemma ListSizes(u: State, w: State, room: Id)
    requires Shape(u) && Shape(w) && |u.nodes| == |w.nodes| && room < |u.nodes|
    ensures room < |u.lists| && room < |w.lists|
    ensures forall k :: ListOf(u, room, k) == u.lists[room].Get(k) && ListOf(w, room, k) == w.lists[room].Get(k)
  {
  }

  lemma SeatSame(u: State, w: State, c: Id, room: Id, x: Id)
    requires Twin(u, w, c) && Good(u) && Good(w)
    ensures Child(u.nodes, room, Member, x) <==> Child(w.nodes, room, Member, x)
  {
    hide GoodBut;
    if x < |u.nodes| {
      TwinAt(u, w, c, x);
      if u.nodes[x].kind == Member { MembersAlike(u, w, c, x); }
    }
  }

  /** The same member leaves its seat. */
  lemma TwinUnseat(u: State, w: State, c: Id, room: Id, user: int)
    requires Twin(u, w, c) && Inv(u) && Inv(w) && room < |u.nodes|
    ensures
      var mu := MemberOf(u.nodes, ListOf(u, room, Member), user);
      var mw := MemberOf(w.nodes, ListOf(w, room, Member), user);
      mu == mw && Twin(CloseIfSome(u, mu), CloseIfSome(w, mw), c)
  {
    hide GoodBut, Settled, Slots, Twin, CloseLk, Ordered;
    InvIsGood(u);
    InvIsGood(w);
    GoodParts(u, multiset{});
    var l := ListOf(u, room, Member);
    SeatsSame(u, w, c, room);
    TwinAll(u, w, c);
    forall i | 0 <= i < |u.nodes| ensures u.nodes[i].user == w.nodes[i].user { TwinAt(u, w, c, i); }
    MemberOfSame(u.nodes, w.nodes, l, user);
    var m := MemberOf(u.nodes, l, user);
    if m.Some? {
      ListSizes(u, u, room);
      assert ListAt(u, room, Member);
      assert Child(u.nodes, room, Member, m.value);
      TwinCloseMember(u, w, c, m.value);
    }
  }

  // ---------------------------------------------------------------- a new node

  /** Linking and registering a node next to the rest. */
  lemma GrownSeat(s: State, p: Id, n: Node)
    requires Good(s) && Alive(s, p)
    ensures var g := Grab(s, [p]); var t := Register(Append(g, n), |g.nodes|);
      Grown(s, t, n) && t.borrows == s.borrows && |g.nodes| == |s.nodes|
  {
    hide GoodBut, Register, Append, Grab;
    var g := Grab(s, [p]);
    GrabGood(s, multiset{}, [p]);
    AppendNodes(g, n);
    AppendBorrows(g, n);
    RegisterRest(Append(g, n), |g.nodes|);
  }

  lemma AppendBorrows(s: State, n: Node)
    ensures Append(s, n).borrows == s.borrows
  {
  }

  lemma TwinSeat(u: State, w: State, c: Id, p: Id, n: Node)
    requires Twin(u, w, c) && Good(u) && Good(w) && Alive(u, p) && Alive(w, p) && Apart(n, c)
    ensures var gu := Grab(u, [p]); var gw := Grab(w, [p]);
      |gu.nodes| == |gw.nodes| == |u.nodes|
      && Twin(Register(Append(gu, n), |gu.nodes|), Register(Append(gw, n), |gw.nodes|), c)
  {
    hide GoodBut, Register, Append, Grab, Twin;
    var gu, gw := Grab(u, [p]), Grab(w, [p]);
    GrownSeat(u, p, n);
    GrownSeat(w, p, n);
    TwinAll(u, w, c);
    AppendSize(gu, n);
    AppendSize(gw, n);
    TwinGrow(u, w, Register(Append(gu, n), |gu.nodes|), Register(Append(gw, n), |gw.nodes|), c, n);
  }

  // ---------------------------------------------------------------- joining

  function Left(s: State, prev: Option<Id>): State {
    if prev.Some? && Found(s, prev.value, Member) then CloseLk(s, prev.value) else s
  }

  lemma TwinLeft(u: State, w: State, c: Id, prev: Option<Id>)
    requires Twin(u, w, c) && Inv(u) && Inv(w)
    ensures Twin(Left(u, prev), Left(w, prev), c)
  {
    hide GoodBut, Settled, Slots, Twin, CloseLk;
    if prev.Some? {
      InvIsGood(u);
      InvIsGood(w);
      ById(u);
      FoundAlike(u, w, c, prev.value, Member);
      if Found(u, prev.value, Member) { TwinCloseMember(u, w, c, prev.value); }
    }
  }

  /** What the section makes of a room that was found. */
  function Unseat(s: State, room: Id, user: int): State {
    CloseIfSome(s, MemberOf(s.nodes, ListOf(s, room, Member), user))
  }

  function Seat(s: State, p: Id, n: Node): State {
    var g := Grab(s, [p]);
    AppendSize(g, n);
    Register(Append(g, n), |g.nodes|)
  }

  lemma JoinIs(s: State, room: Id, prev: Option<Id>, uuid: Uuid, user: int)
    ensures var s1 := Left(s, prev);
      Join(s, room, prev, uuid, user) ==
        if !Found(s1, room, Room) then s1
        else Release(Seat(Unseat(Borrow(s1, room), room, user), room, MemberNode(room, uuid, user)), room)
  {
    hide Grab, Register, Append, CloseLk, Release, Borrow, CloseIfSome;
  }

  /** The sections of a join keep the invariant one by one. */
  lemma JoinParts(s: State, room: Id, uuid: Uuid, user: int)
    requires Inv(s) && DistinctUsers(s) && uuid !in s.byUuid && Found(s, room, Room) && !s.nodes[room].closed
    ensures var s2 := Borrow(s, room); var s3 := Unseat(s2, room, user); var s5 := Seat(s3, room, MemberNode(room, uuid, user));
      && Inv(s2) && Inv(s3) && Inv(s5) && Alive(s3, room) && room in s5.borrows && |s2.nodes| == |s.nodes|
  {
    hide GoodBut, Settled, Slots, CloseLk, Borrow, CloseIfSome, Grab, Append, Register, Evolves, DistinctUsers, OnlyRefs;
    var s2 := Borrow(s, room);
    var s3 := Unseat(s2, room, user);
    BorrowInv(s, room);
    BorrowGood(s, multiset{}, room);
    DistinctOnlyRefs(s, s2);
    OnlyRefsAt(s, s2, room);
    UnseatInv(s2, room, user);
    EvolvesSize(s2, s3);
    EvolvesKind(s2, s3, room);
    FreshStays(s2, s3, uuid);
    GoodParts(s3, multiset{});
    BorrowedIsAlive(s3, room);
    SeatedInv(s3, room, uuid, user);
  }

  lemma TwinJoin(u: State, w: State, c: Id, room: Id, prev: Option<Id>, uuid: Uuid, user: int)
    requires Twin(u, w, c) && Inv(u) && Inv(w) && DistinctUsers(u) && DistinctUsers(w)
    requires uuid !in u.byUuid && uuid !in w.byUuid && RoomReady(u, room) && RoomReady(w, room)
    ensures Twin(Join(u, room, prev, uuid, user), Join(w, room, prev, uuid, user), c)
  {
    hide Inv, DistinctUsers, Twin, Left, Unseat, Seat, Join, Release, Borrow, RoomReady, Evolves;
    var u1, w1 := Left(u, prev), Left(w, prev);
    JoinIs(u, room, prev, uuid, user);
    JoinIs(w, room, prev, uuid, user);
    LeftInv(u, prev, room, uuid);
    LeftInv(w, prev, room, uuid);
    TwinLeft(u, w, c, prev);
    InvIsGood(u1);
    InvIsGood(w1);
    FoundAlike(u1, w1, c, room, Room);
    if Found(u1, room, Room) {
      ReadyFound(u1, room);
      ReadyFound(w1, room);
      TwinJoinFound(u1, w1, c, room, uuid, user);
    }
  }

  lemma ReadyFound(s: State, room: Id)
    requires RoomReady(s, room) && Found(s, room, Room)
    ensures !s.nodes[room].closed
  {
  }

  lemma LeftInv(s: State, prev: Option<Id>, room: Id, uuid: Uuid)
    requires Inv(s) && DistinctUsers(s) && uuid !in s.byUuid && RoomReady(s, room)
    ensures var t := Left(s, prev); Inv(t) && DistinctUsers(t) && uuid !in t.byUuid && RoomReady(t, room)
  {
    LeavePrevious(s, prev, room, uuid);
  }

  lemma TwinJoinFound(u: State, w: State, c: Id, room: Id, uuid: Uuid, user: int)
    requires Twin(u, w, c) && Inv(u) && Inv(w) && DistinctUsers(u) && DistinctUsers(w)
    requires uuid !in u.byUuid && uuid !in w.byUuid && Found(u, room, Room) && Found(w, room, Room)
    requires !u.nodes[room].closed && !w.nodes[room].closed
    ensures
      var n := MemberNode(room, uuid, user);
      Twin(Release(Seat(Unseat(Borrow(u, room), room, user), room, n), room),
           Release(Seat(Unseat(Borrow(w, room), room, user), room, n), room), c)
  {
    hide Inv, DistinctUsers, Twin, Unseat, Seat, Release, Borrow, Evolves, MemberNode;
    var n := MemberNode(room, uuid, user);
    JoinParts(u, room, uuid, user);
    JoinParts(w, room, uuid, user);
    TwinSeated(u, w, c, room, uuid, user);
    TwinRelease(Seat(Unseat(Borrow(u, room), room, user), room, n), Seat(Unseat(Borrow(w, room), room, user), room, n), c, room);
  }

  lemma TwinSeated(u: State, w: State, c: Id, room: Id, uuid: Uuid, user: int)
    requires Twin(u, w, c) && Inv(u) && Inv(w) && DistinctUsers(u) && DistinctUsers(w)
    requires uuid !in u.byUuid && uuid !in w.byUuid && Found(u, room, Room) && Found(w, room, Room)
    requires !u.nodes[room].closed && !w.nodes[room].closed
    ensures
      var n := MemberNode(room, uuid, user);
      Twin(Seat(Unseat(Borrow(u, room), room, user), room, n), Seat(Unseat(Borrow(w, room), room, user), room, n), c)
  {
    hide Inv, DistinctUsers, Twin, Unseat, Seat, Release, Borrow, Evolves;
    var n := MemberNode(room, uuid, user);
    var u2, w2 := Borrow(u, room), Borrow(w, room);
    var u3, w3 := Unseat(u2, room, user), Unseat(w2, room, user);
    InvIsGood(u);
    InvIsGood(w);
    TwinAll(u, w, c);
    JoinParts(u, room, uuid, user);
    JoinParts(w, room, uuid, user);
    KindOther(u, w, c, room);
    TwinBorrow(u, w, c, room);
    TwinUnseatIs(u2, w2, c, room, user);
    InvIsGood(u3);
    InvIsGood(w3);
    TwinSeatIs(u3, w3, c, room, n);
  }

  lemma KindOther(u: State, w: State, c: Id, r: Id)
    requires Twin(u, w, c) && r < |u.nodes| && u.nodes[r].kind in {Room, Member}
    ensures r != c
  {
  }

  lemma TwinUnseatIs(u: State, w: State, c: Id, room: Id, user: int)
    requires Twin(u, w, c) && Inv(u) && Inv(w) && room < |u.nodes|
    ensures Twin(Unseat(u, room, user), Unseat(w, room, user), c)
  {
    hide Inv, Twin, CloseIfSome;
    TwinUnseat(u, w, c, room, user);
  }

  lemma TwinSeatIs(u: State, w: State, c: Id, p: Id, n: Node)
    requires Twin(u, w, c) && Good(u) && Good(w) && Alive(u, p) && Alive(w, p) && Apart(n, c)
    ensures Twin(Seat(u, p, n), Seat(w, p, n), c)
  {
    hide Good, Register, Append, Grab, Twin;
    TwinSeat(u, w, c, p, n);
  }

  // ---------------------------------------------------------------- creating a room

  lemma SlotFirst(u: State, w: State, c: Id, r: Id)
    requires Twin(u, w, c) && Inv(u) && Inv(w) && r < |u.nodes|
    requires ListOf(u, r, Room) != []
    ensures ListOf(w, r, Room) == ListOf(u, r, Room)
  {
    hide GoodBut, Settled, Balanced, PositiveBut, NoHazard, Registry, Owners;
    InvIsGood(u);
    InvIsGood(w);
    GoodParts(u, multiset{});
    GoodParts(w, multiset{});
    SlotShape(u, r);
    var x := ListOf(u, r, Room)[0];
    assert SlotAt(u, r);
    TwinAt(u, w, c, x);
    RoomsAlike(u, w, c, x);
    assert OpenRoomAt(w, x);
  }

  lemma SlotOther(u: State, w: State, c: Id, r: Id)
    requires Twin(u, w, c) && Inv(u) && Inv(w) && r < |u.nodes| && ListOf(w, r, Room) != []
    ensures ListOf(u, r, Room) == ListOf(w, r, Room)
  {
    hide GoodBut, Settled, Balanced, PositiveBut, NoHazard, Registry, Owners;
    InvIsGood(u);
    InvIsGood(w);
    GoodParts(u, multiset{});
    GoodParts(w, multiset{});
    SlotShape(w, r);
    var x := ListOf(w, r, Room)[0];
    assert SlotAt(w, r);
    TwinAt(u, w, c, x);
    RoomsAlike(u, w, c, x);
    assert OpenRoomAt(u, x);
  }

  /** The slot of a router names the same room in both worlds. */
  lemma SlotAlike(u: State, w: State, c: Id, r: Id)
    requires Twin(u, w, c) && Inv(u) && Inv(w) && r < |u.nodes|
    ensures ListOf(u, r, Room) == ListOf(w, r, Room)
  {
    hide Inv, Twin, ListOf;
    if ListOf(u, r, Room) != [] { SlotFirst(u, w, c, r); }
    else if ListOf(w, r, Room) != [] { SlotOther(u, w, c, r); }
  }

  lemma TwinCloseRoom(u: State, w: State, c: Id, x: Id)
    requires Twin(u, w, c) && Inv(u) && Inv(w) && Alive(u, x) && Alive(w, x) && u.nodes[x].kind == Room
    ensures Twin(CloseLk(u, x), CloseLk(w, x), c)
  {
    hide GoodBut, Settled, Slots, Twin, NoFailedBelow, ClosesDown, CloseLk;
    InvIsGood(u);
    InvIsGood(w);
    GoodParts(u, multiset{});
    GoodParts(w, multiset{});
    TwinAt(u, w, c, x);
    BelowRoomKinds(u, x);
    BelowRoomKinds(w, x);
    ClosesDownIs(u, x);
    ClosesDownIs(w, x);
    TwinClose(u, w, CloseLk(u, x), CloseLk(w, x), c, x);
  }

  function Vacate(s: State, router: Id): State {
    CloseIfSome(s, First(ListOf(s, router, Room)))
  }

  lemma TwinVacate(u: State, w: State, c: Id, router: Id)
    requires Twin(u, w, c) && Inv(u) && Inv(w) && router < |u.nodes|
    ensures Twin(Vacate(u, router), Vacate(w, router), c)
  {
    hide GoodBut, Settled, Twin, CloseLk, SlotAt;
    SlotAlike(u, w, c, router);
    if ListOf(u, router, Room) != [] {
      InvIsGood(u);
      InvIsGood(w);
      GoodParts(u, multiset{});
      GoodParts(w, multiset{});
      SlotShape(u, router);
      SlotShape(w, router);
      SlotsAlive(u, router);
      SlotsAlive(w, router);
      TwinCloseRoom(u, w, c, ListOf(u, router, Room)[0]);
    }
  }

  lemma CreateRoomIs(s: State, router: Id, prev: Option<Id>, roomUuid: Uuid, uuid: Uuid, user: int)
    ensures CreateRoom(s, router, prev, roomUuid, uuid, user) ==
      if !Found(s, router, Router) then s
      else
        var s2 := Vacate(Borrow(s, router), router);
        var s4 := Seat(s2, router, RoomNode(router, roomUuid));
        Release(Join(s4, |Grab(s2, [router]).nodes|, prev, uuid, user), router)
  {
    hide Grab, Register, Append, CloseLk, Release, Borrow, CloseIfSome, Join;
  }

  lemma CreateParts(s: State, router: Id, prev: Option<Id>, roomUuid: Uuid, uuid: Uuid, user: int)
    requires Inv(s) && DistinctUsers(s) && uuid !in s.byUuid && roomUuid !in s.byUuid && uuid != roomUuid
    requires Found(s, router, Router) && !s.nodes[router].closed
    ensures var s1 := Borrow(s, router); var s2 := Vacate(s1, router); var s4 := Seat(s2, router, RoomNode(router, roomUuid));
      var room := |Grab(s2, [router]).nodes|;
      && Inv(s1) && |s1.nodes| == |s.nodes| && Good(s2) && Alive(s2, router) && |s2.nodes| == |s.nodes| == room
      && Inv(s4) && DistinctUsers(s4) && uuid !in s4.byUuid && RoomReady(s4, room)
      && var s5 := Join(s4, room, prev, uuid, user); Inv(s5) && router in s5.borrows
  {
    hide GoodBut, Settled, SlotsBut, Append, Register, Grab, DistinctUsers, ChildrenClosed, OnlyRefs, CloseLk, Borrow,
      CloseIfSome, Join, Slots, Evolves;
    var s1 := Borrow(s, router);
    var s2 := Vacate(s1, router);
    BorrowInv(s, router);
    BorrowGood(s, multiset{}, router);
    DistinctOnlyRefs(s, s1);
    OnlyRefsAt(s, s1, router);
    CloseOldRoom(s1, router);
    EvolvesSize(s1, s2);
    EvolvesKind(s1, s2, router);
    FreshStays(s1, s2, uuid);
    FreshStays(s1, s2, roomUuid);
    GoodParts(s2, multiset{});
    BorrowedIsAlive(s2, router);
    NewRoomInv(s2, router, roomUuid);
    GrownSeat(s2, router, RoomNode(router, roomUuid));
    JoinInv(Seat(s2, router, RoomNode(router, roomUuid)), |s2.nodes|, prev, uuid, user);
  }

  /** The state in which a room has just been created and nobody has joined it. */
  function NewRoom(s: State, router: Id, roomUuid: Uuid): State {
    Seat(Vacate(Borrow(s, router), router), router, RoomNode(router, roomUuid))
  }

  lemma TwinNewRoom(u: State, w: State, c: Id, router: Id, prev: Option<Id>, roomUuid: Uuid, uuid: Uuid, user: int)
    requires Twin(u, w, c) && Inv(u) && Inv(w) && DistinctUsers(u) && DistinctUsers(w) && router != c
    requires uuid !in u.byUuid && uuid !in w.byUuid && roomUuid !in u.byUuid && roomUuid !in w.byUuid && uuid != roomUuid
    requires Found(u, router, Router) && !u.nodes[router].closed && Found(w, router, Router) && !w.nodes[router].closed
    ensures Twin(NewRoom(u, router, roomUuid), NewRoom(w, router, roomUuid), c)
  {
    hide Inv, DistinctUsers, Twin, Vacate, Seat, Join, CreateRoom, Release, Borrow, RoomReady, Grab;
    var n := RoomNode(router, roomUuid);
    var u1, w1 := Borrow(u, router), Borrow(w, router);
    InvIsGood(u);
    InvIsGood(w);
    CreateParts(u, router, prev, roomUuid, uuid, user);
    CreateParts(w, router, prev, roomUuid, uuid, user);
    TwinBorrow(u, w, c, router);
    TwinVacate(u1, w1, c, router);
    TwinSeatIs(Vacate(u1, router), Vacate(w1, router), c, router, n);
  }

  lemma CreateEnds(s: State, router: Id, prev: Option<Id>, roomUuid: Uuid, uuid: Uuid, user: int)
    requires Inv(s) && DistinctUsers(s) && uuid !in s.byUuid && roomUuid !in s.byUuid && uuid != roomUuid
    requires Found(s, router, Router) && !s.nodes[router].closed
    ensures var s4 := NewRoom(s, router, roomUuid); var room := |s.nodes|;
      && Inv(s4) && DistinctUsers(s4) && uuid !in s4.byUuid && RoomReady(s4, room)
      && var s5 := Join(s4, room, prev, uuid, user);
         Inv(s5) && router in s5.borrows && CreateRoom(s, router, prev, roomUuid, uuid, user) == Release(s5, router)
  {
    hide Inv, DistinctUsers, Vacate, Seat, Join, CreateRoom, Release, Borrow, RoomReady, Grab;
    CreateRoomIs(s, router, prev, roomUuid, uuid, user);
    CreateParts(s, router, prev, roomUuid, uuid, user);
  }

  lemma TwinCreateRoom(u: State, w: State, c: Id, router: Id, prev: Option<Id>, roomUuid: Uuid, uuid: Uuid, user: int)
    requires Twin(u, w, c) && Inv(u) && Inv(w) && DistinctUsers(u) && DistinctUsers(w) && Agree(u, w, c, router)
    requires uuid !in u.byUuid && uuid !in w.byUuid && roomUuid !in u.byUuid && roomUuid !in w.byUuid && uuid != roomUuid
    requires Found(u, router, Router) ==> !u.nodes[router].closed
    requires Found(w, router, Router) ==> !w.nodes[router].closed
    ensures Twin(CreateRoom(u, router, prev, roomUuid, uuid, user), CreateRoom(w, router, prev, roomUuid, uuid, user), c)
  {
    hide Inv, DistinctUsers, Twin, NewRoom, Join, CreateRoom, Release, RoomReady;
    FoundSame(u, w, c, router, Router);
    TwinAll(u, w, c);
    if Found(u, router, Router) {
      var u4, w4 := NewRoom(u, router, roomUuid), NewRoom(w, router, roomUuid);
      TwinNewRoom(u, w, c, router, prev, roomUuid, uuid, user);
      CreateEnds(u, router, prev, roomUuid, uuid, user);
      CreateEnds(w, router, prev, roomUuid, uuid, user);
      TwinJoin(u4, w4, c, |u.nodes|, prev, uuid, user);
      TwinRelease(Join(u4, |u.nodes|, prev, uuid, user), Join(w4, |u.nodes|, prev, uuid, user), c, router);
    } else {
      NotCreated(u, router, prev, roomUuid, uuid, user);
      NotCreated(w, router, prev, roomUuid, uuid, user);
    }
  }

  lemma NotCreated(s: State, router: Id, prev: Option<Id>, roomUuid: Uuid, uuid: Uuid, user: int)
    requires !Found(s, router, Router)
    ensures CreateRoom(s, router, prev, roomUuid, uuid, user) == s
  {
  }
}
