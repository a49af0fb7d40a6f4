/**
 Every transition keeps the invariant, hence every run does. The conditions under which the
 code does so are collected in `Disciplined`.
 */
module RctProtocol {
  import opened RctState
  import opened RctRefs
  import opened RctInvariant
  import opened RctRelease
  import opened RctClose
  import opened RctCascade
  import opened RctSteps
  import opened RctCreation

  /** The room slot of a router names an open, undisposed room. */
  ghost predicate Slots(s: State) {
    forall r :: 0 <= r < |s.lists| ==> SlotAt(s, r)
  }

  ghost predicate SlotAt(s: State, r: Id)
    requires r < |s.lists|
  {
    forall x :: x in s.lists[r].room ==> x < |s.nodes| && !s.nodes[x].disposed && !s.nodes[x].closed
  }

  /** What holds between lock-held sections. */
  ghost predicate Inv(s: State) {
    Good(s) && Settled(s, multiset{}) && Slots(s)
  }

  // ---------------------------------------------------------------- room slots

  /** A slot is kept or emptied, never filled. */
  ghost predicate RoomsShrink(s: State, t: State) {
    |t.lists| == |s.lists|
    && forall r :: 0 <= r < |s.lists| ==> t.lists[r].room == s.lists[r].room || t.lists[r].room == []
  }

  lemma {:induction false} DetachRooms(s: State, b: Id, n: int)
    requires b < |s.nodes|
    ensures RoomsShrink(s, Detach(AddRefs(s, b, n), b))
  {
    hide Unlink;
    UnlinkRooms(s.lists, s.nodes[b].up, s.nodes[b].kind, b);
  }

  lemma UnlinkRooms(lists: seq<Lists>, up: seq<Id>, k: Kind, b: Id)
    ensures UnlinkedByDispose(k) ==> forall r :: 0 <= r < |lists| ==> Unlink(lists, up, k, b)[r].room == lists[r].room
  {
    hide Remove;
  }

  lemma RoomsTrans(s: State, t: State, u: State)
    requires RoomsShrink(s, t) && RoomsShrink(t, u)
    ensures RoomsShrink(s, u)
  {
  }

  lemma {:induction false} RefLkRooms(s: State, b: Id, n: int)
    ensures RoomsShrink(s, RefLk(s, b, n))
    decreases AliveSet(s.nodes), 1
  {
    if b < |s.nodes| && !s.nodes[b].disposed && s.nodes[b].refs + n < 1 {
      RefLkUnfold(s, b, n);
      DisposeRooms(s, b, n);
    }
  }

  lemma {:induction false} DisposeRooms(s: State, b: Id, n: int)
    requires b < |s.nodes| && !s.nodes[b].disposed && s.nodes[b].refs + n < 1
    ensures RoomsShrink(s, Unregister(RefAllLk(Detach(AddRefs(s, b, n), b), s.nodes[b].Releases()), b))
    decreases AliveSet(s.nodes), 0
  {
    hide RefLk, RefAllLk, Detach, Unregister, RoomsShrink;
    var s2 := Detach(AddRefs(s, b, n), b);
    var s3 := RefAllLk(s2, s.nodes[b].Releases());
    DetachFrame(s, b, n);
    DetachRooms(s, b, n);
    assert b in AliveSet(s.nodes);
    RefAllLkRooms(s2, s.nodes[b].Releases());
    UnregisterFrame(s3, b);
    RoomsTrans(s, s2, s3);
    SameLists(s, s3, Unregister(s3, b));
  }

  lemma SameLists(s: State, t: State, u: State)
    requires RoomsShrink(s, t) && u.lists == t.lists
    ensures RoomsShrink(s, u)
  {
  }

  lemma {:induction false} RefAllLkRooms(s: State, ids: seq<Id>)
    ensures RoomsShrink(s, RefAllLk(s, ids))
    decreases AliveSet(s.nodes), |ids| + 1
  {
    if ids != [] {
      RefLkRooms(s, ids[0], -1);
      RefAllLkRooms(RefLk(s, ids[0], -1), ids[1..]);
    }
  }

  lemma {:induction false} CloseLkRooms(s: State, b: Id)
    ensures RoomsShrink(s, CloseLk(s, b))
    ensures b < |s.nodes| && !s.nodes[b].disposed && !s.nodes[b].closed && s.nodes[b].kind == Router && b < |s.lists|
      ==> CloseLk(s, b).lists[b].room == []
    decreases OpenSet(s.nodes), 0, 0
  {
    if b < |s.nodes| && !s.nodes[b].disposed && !s.nodes[b].closed {
      var s1 := MarkClosed(s, b);
      assert OpenSet(s1.nodes) == OpenSet(s.nodes) - {b};
      assert b in OpenSet(s.nodes);
      CloseBodyRooms(s1, b);
      RefLkRooms(CloseBody(s1, b), b, -1);
    }
  }

  lemma {:induction false} CloseBodyRooms(s: State, b: Id)
    requires b < |s.nodes|
    ensures RoomsShrink(s, CloseBody(s, b))
    ensures s.nodes[b].kind == Router && b < |s.lists| ==> CloseBody(s, b).lists[b].room == []
    decreases OpenSet(s.nodes), 2, 0
  {
    hide WalkLk, CloseLk, CloseRoomSlot;
    match s.nodes[b].kind {
      case Router =>
        CloseSlotRooms(s, b);
        var s1 := CloseRoomSlot(s, b);
        WalkRooms(s1, b, Transport, First(ListOf(s1, b, Transport)));
        var s2 := WalkLk(s1, b, Transport, First(ListOf(s1, b, Transport)));
        WalkRooms(s2, b, Observer, First(ListOf(s2, b, Observer)));
      case Transport =>
        WalkRooms(s, b, Producer, First(ListOf(s, b, Producer)));
        var s1 := WalkLk(s, b, Producer, First(ListOf(s, b, Producer)));
        WalkRooms(s1, b, Consumer, First(ListOf(s1, b, Consumer)));
      case Producer => WalkRooms(s, b, Consumer, First(ListOf(s, b, Consumer)));
      case Room => WalkRooms(s, b, Member, First(ListOf(s, b, Member)));
      case _ =>
    }
  }

  lemma {:induction false} CloseSlotRooms(s: State, b: Id)
    ensures RoomsShrink(s, CloseRoomSlot(s, b)) && (b < |s.lists| ==> CloseRoomSlot(s, b).lists[b].room == [])
    decreases OpenSet(s.nodes), 1, 0
  {
    var slot := ListOf(s, b, Room);
    if slot != [] { CloseLkRooms(s, slot[0]); }
  }

  lemma {:induction false} WalkRooms(s: State, t: Id, k: Kind, p: Option<Id>)
    ensures RoomsShrink(s, WalkLk(s, t, k, p))
    decreases OpenSet(s.nodes), 1, Remaining(s, t, k, p)
  {
    if p.Some? {
      var n := Next(ListOf(s, t, k), p.value);
      CloseLkRooms(s, p.value);
      WalkRooms(CloseLk(s, p.value), t, k, n);
    }
  }

  // ---------------------------------------------------------------- frames for the invariant

  lemma SlotsKept(s: State, t: State)
    requires Slots(s) && Good(t) && |t.nodes| == |s.nodes| && RoomsShrink(s, t)
    requires forall r: Id, x: Id :: r < |t.lists| && x in t.lists[r].room && x < |t.nodes| ==>
      t.nodes[x].closed == s.nodes[x].closed
    ensures Slots(t)
  {
    forall r | 0 <= r < |t.lists| ensures SlotAt(t, r) {
      assert SlotAt(s, r) && RoomAt(t, r);
      forall x | x in t.lists[r].room ensures x < |t.nodes| && !t.nodes[x].disposed && !t.nodes[x].closed {
        assert x in s.lists[r].room;
        assert ShapeAt(t.nodes, x);
        OpenSurvives(t, multiset{}, x);
      }
    }
  }

  lemma OnlyRefsInv(s: State, t: State)
    requires Settled(s, multiset{}) && Slots(s) && OnlyRefs(s, t)
    ensures Settled(t, multiset{}) && Slots(t)
  {
    forall r | 0 <= r < |t.lists| ensures SlotAt(t, r) {
      assert SlotAt(s, r);
    }
  }

  // ---------------------------------------------------------------- borrow, release, finish

  lemma BorrowInv(s: State, i: Id)
    requires Inv(s)
    ensures Inv(Borrow(s, i))
  {
    if i in s.byId {
      BorrowGood(s, multiset{}, i);
      OnlyRefsInv(s, Borrow(s, i));
    }
  }

  lemma {:induction false} ReleaseInv(s: State, i: Id)
    requires Inv(s) && i in s.borrows
    ensures Inv(Release(s, i))
  {
    hide GoodBut;
    var u := s.(borrows := s.borrows - multiset{i});
    ReleaseGood(s, multiset{}, i);
    LetGo(s, multiset{}, i);
    assert multiset{} + multiset{i} == multiset{i};
    GoodParts(u, multiset{i});
    RefLkFrame(u, i, -1);
    RefLkRooms(u, i, -1);
    RefLkAfter(s, u, Release(s, i), i);
  }

  /** `u` differs from `s` in borrowed references and in the phase of `i` only. */
  lemma RefLkAfter(s: State, u: State, t: State, i: Id)
    requires Inv(s) && Good(t) && i < |s.nodes| && |u.nodes| == |s.nodes| && u.lists == s.lists
    requires forall x :: 0 <= x < |s.nodes| ==> u.nodes[x] == s.nodes[x].(phase := u.nodes[x].phase)
    requires FrameAt(u, t, i) && RoomsShrink(u, t)
    ensures Inv(t)
  {
    assert forall x :: 0 <= x < |s.nodes| ==> EvolvesTo(u.nodes[x], t.nodes[x]);
    SlotsKept(s, t);
  }

  lemma FinishInv(s: State, c: Id, p: Phase, n: int, t: State)
    requires Inv(s) && UnderConstruction(s, c) && p != Building && t == RefLk(SetPhase(s, c, p), c, n) && Good(t)
    ensures Inv(t)
  {
    hide GoodBut;
    var u := SetPhase(s, c, p);
    SetPhaseFrame(s, c, p);
    RefLkFrame(u, c, n);
    RefLkRooms(u, c, n);
    RefLkAfter(s, u, t, c);
  }

  lemma {:induction false} FinishOkInv(s: State, c: Id)
    requires Inv(s) && UnderConstruction(s, c)
    ensures Inv(FinishOk(s, c))
  {
    FinishOkGood(s, c);
    FinishInv(s, c, Live, -INIT_REFS + 1, FinishOk(s, c));
  }

  lemma {:induction false} FinishFailInv(s: State, c: Id)
    requires Inv(s) && UnderConstruction(s, c) && (s.nodes[c].closed ==> s.nodes[c].refs == INIT_REFS - 1)
    ensures Inv(FinishFail(s, c))
  {
    FinishFailExact(s, c);
    FinishInv(s, c, Failed, -INIT_REFS, FinishFail(s, c));
  }

  // ---------------------------------------------------------------- begin

  lemma AppendNodes(s: State, n: Node)
    ensures Append(s, n).nodes == s.nodes + [n]
  {
  }

  lemma FreshParents(s: State, n: Node)
    requires Fresh(s, n)
    ensures forall p :: p in n.up ==> p < |s.nodes|
  {
    forall p | p in n.up ensures p < |s.nodes| {
      var j :| 0 <= j < |n.up| && n.up[j] == p;
    }
  }

  lemma AppendUnderOpen(s: State, n: Node)
    requires Shape(s) && Settled(s, multiset{}) && forall p :: p in n.up ==> p < |s.nodes| && !s.nodes[p].closed
    ensures Settled(Append(s, n), multiset{})
  {
    hide Append;
    var t := Append(s, n);
    AppendNodes(s, n);
    forall c, p | 0 <= c < |t.nodes| && !t.nodes[c].disposed && p in t.nodes[c].up && p < |t.nodes| && t.nodes[p].closed
      ensures t.nodes[c].closed
    {
      if c < |s.nodes| {
        assert ShapeAt(s.nodes, c);
        assert t.nodes[c] == s.nodes[c] && t.nodes[p] == s.nodes[p];
      }
    }
  }

  lemma AppendUnderClosed(s: State, n: Node, p: Id)
    requires !n.disposed && !n.closed && p in n.up && p < |s.nodes| && s.nodes[p].closed
    ensures !Settled(Append(s, n), multiset{})
  {
    hide Append;
    var t := Append(s, n);
    AppendNodes(s, n);
    assert t.nodes[|s.nodes|] == n && t.nodes[p] == s.nodes[p];
  }

  lemma AppendSettled(s: State, n: Node)
    requires Shape(s) && Settled(s, multiset{}) && Fresh(s, n)
    ensures Settled(Append(s, n), multiset{}) <==> forall p :: p in n.up ==> p < |s.nodes| && !s.nodes[p].closed
  {
    hide Append, Settled, Shape;
    FreshParents(s, n);
    if forall p :: p in n.up ==> p < |s.nodes| && !s.nodes[p].closed {
      AppendUnderOpen(s, n);
    } else {
      var p :| p in n.up && s.nodes[p].closed;
      AppendUnderClosed(s, n, p);
    }
  }

  lemma AppendSlots(s: State, n: Node)
    requires Slots(s) && |s.lists| == |s.nodes| && !n.closed && !n.disposed
    ensures Slots(Append(s, n))
  {
    var t := Append(s, n);
    forall r | 0 <= r < |t.lists| ensures SlotAt(t, r) {
      if r < |s.lists| { assert SlotAt(s, r); }
    }
  }

  lemma RegisterInv(a: State, b: Id)
    requires b < |a.nodes|
    ensures Settled(Register(a, b), multiset{}) <==> Settled(a, multiset{})
    ensures Slots(a) ==> Slots(Register(a, b))
  {
    var t := Register(a, b);
    RegisterRest(a, b);
    if Slots(a) {
      forall r | 0 <= r < |t.lists| ensures SlotAt(t, r) { assert SlotAt(a, r); }
    }
  }

  /** Beginning a resource keeps the ledger, the links and the registry in any case. That a
      closed resource has only closed dependents survives exactly if every parent is open:
      the code looks parents up without asking whether they were closed. */
  lemma BeginExact(s: State, k: Kind, up: seq<Id>, uuid: Uuid, own: Wid)
    requires Inv(s) && uuid !in s.byUuid && k !in {Room, Member} && ParentsFound(s, k, up)
    ensures var t := Begin(s, k, up, uuid, own);
      && Good(t) && Slots(t)
      && (Settled(t, multiset{}) <==> forall p :: p in up ==> p < |s.nodes| && !s.nodes[p].closed)
  {
    hide GoodBut, Register, Append, Fresh, Grab, Hold, Settled, Slots;
    var s2 := HeldTwice(s, up);
    var n := NewNode(s, k, up, uuid, own);
    BeginGood(s, k, up, uuid, own);
    HeldTwiceGood(s, k, up);
    GoodParts(s2, multiset(up));
    NewNodeFresh(s, s2, k, up, uuid, own);
    OnlyRefsInv(s, s2);
    AppendSettled(s2, n);
    AppendSlots(s2, n);
    AppendSize(s2, n);
    RegisterInv(Append(s2, n), |s2.nodes|);
    forall p | p in up ensures p < |s.nodes| && s.nodes[p].closed == s2.nodes[p].closed {
      var j :| 0 <= j < |up| && up[j] == p;
      assert Found(s, up[j], ParentKinds(k)[j]);
    }
  }

  lemma AppendSize(s: State, n: Node)
    ensures |Append(s, n).nodes| == |s.nodes| + 1
  {
  }

  // ---------------------------------------------------------------- close

  lemma ClosesInv(s: State, t: State, b: Id)
    requires Inv(s) && Closes(s, t, multiset{}, b) && RoomsShrink(s, t)
    requires b < |s.nodes| && s.nodes[b].kind != Room
    requires s.nodes[b].kind == Router && b < |t.lists| ==> t.lists[b].room == []
    ensures Inv(t)
  {
    assert forall i :: 0 <= i < |s.nodes| ==> EvolvesTo(s.nodes[i], t.nodes[i]);
    forall r: Id, x: Id | r < |t.lists| && x in t.lists[r].room && x < |t.nodes|
      ensures t.nodes[x].closed == s.nodes[x].closed
    {
      assert RoomAt(s, r);
      assert x in s.lists[r].room;
      if t.nodes[x].closed && !s.nodes[x].closed {
        BelowRoom(s, b, r, x);
      }
    }
    SlotsKept(s, t);
  }

  lemma BelowRoom(s: State, b: Id, r: Id, x: Id)
    requires Shape(s) && x < |s.nodes| && b < |s.nodes| && s.nodes[x].kind == Room && s.nodes[x].up == [r]
    requires Below(s.nodes, b, x)
    ensures b == x || (b == r && s.nodes[b].kind == Router)
  {
    assert ShapeAt(s.nodes, x);
    assert ShapeAt(s.nodes, r);
  }

  /** Closing anything but a room keeps the invariant, provided that the close reaches no
      resource that its creator has given up. */
  lemma {:induction false} CloseLkInv(s: State, b: Id)
    requires Inv(s) && b < |s.nodes| && !s.nodes[b].disposed && s.nodes[b].kind != Room && NoFailedBelow(s, b)
    ensures Inv(CloseLk(s, b)) && Closes(s, CloseLk(s, b), multiset{}, b) && CloseLk(s, b).nodes[b].closed
  {
    var t := CloseLk(s, b);
    if b < |s.lists| { assert SlotAt(s, b); }
    assert SlotAlive(s, b);
    assert InFlight(s, multiset{});
    CloseLkSteady(s, multiset{}, b);
    CloseLkRooms(s, b);
    if s.nodes[b].closed {
      assert t == s;
    } else {
      ClosesInv(s, t, b);
    }
  }

  lemma NoFailedOnlyRefs(s: State, t: State, b: Id)
    requires NoFailedBelow(s, b) && OnlyRefs(s, t)
    ensures NoFailedBelow(t, b)
  {
    forall x | 0 <= x < |t.nodes| && !t.nodes[x].disposed && Below(t.nodes, b, x) ensures t.nodes[x].phase != Failed {
      BelowSame(s.nodes, t.nodes, b, x);
    }
  }

  lemma BorrowedIsAlive(s: State, i: Id)
    requires Balanced(s, multiset{}) && i in s.borrows
    ensures i < |s.nodes| && !s.nodes[i].disposed
  {
    assert BalancedAt(s, multiset{}, i);
  }

  lemma {:induction false} CloseInv(s: State, i: Id)
    requires Inv(s) && i < |s.nodes| && s.nodes[i].kind != Room && NoFailedBelow(s, i)
    ensures Inv(Close(s, i))
  {
    hide GoodBut, Settled, Slots, CloseLk, Borrow, Release;
    if i in s.byId {
      var u := Borrow(s, i);
      var t := CloseLk(u, i);
      BorrowInv(s, i);
      BorrowGood(s, multiset{}, i);
      NoFailedOnlyRefs(s, u, i);
      CloseLkInv(u, i);
      GoodParts(t, multiset{});
      BorrowedIsAlive(t, i);
      ReleaseInv(t, i);
    }
  }

  // ---------------------------------------------------------------- owner references

  lemma OwnedHolds(nodes: seq<Node>, m: Id, l: seq<Id>, x: Id)
    requires m < |nodes| && !nodes[m].disposed
    ensures In(nodes[m := nodes[m].(owned := l)], x) == In(nodes, x) - multiset(nodes[m].owned)[x] + multiset(l)[x]
  {
    InUpdate(nodes, m, nodes[m].(owned := l), x);
  }

  /** The owner list of one member and the owner index are rewritten. */
  function SetOwned(s: State, m: Id, l: seq<Id>, owner: map<Id, Id>): State
    requires m < |s.nodes|
  {
    s.(nodes := s.nodes[m := s.nodes[m].(owned := l)], owner := owner)
  }

  lemma SetOwnedFrame(s: State, m: Id, l: seq<Id>, owner: map<Id, Id>)
    requires Shape(s) && Links(s) && Registry(s, {}) && m < |s.nodes| && s.nodes[m].kind == Member
    requires forall x :: x in l ==> x < |s.nodes| && Ownable(s.nodes[x].kind)
    ensures var t := SetOwned(s, m, l, owner); Shape(t) && Links(t) && Registry(t, {})
  {
    var t := SetOwned(s, m, l, owner);
    forall i | 0 <= i < |t.nodes| ensures ShapeAt(t.nodes, i) { assert ShapeAt(s.nodes, i); }
    forall p, k | 0 <= p < |t.lists| && IsListKind(k) ensures ListAt(t, p, k) {
      assert ListAt(s, p, k);
      assert forall x :: Child(s.nodes, p, k, x) <==> Child(t.nodes, p, k, x);
    }
    forall r | 0 <= r < |t.lists| ensures RoomAt(t, r) { assert RoomAt(s, r); }
    forall x | 0 <= x < |t.nodes| ensures OpenRoomAt(t, x) { assert OpenRoomAt(s, x); }
    RegistryFrame(s, t, {}, {});
  }

  lemma SetOwnedGood(s: State, P: multiset<Id>, m: Id, l: seq<Id>, owner: map<Id, Id>, Q: multiset<Id>)
    requires GoodBut(s, P, {}, {}) && m < |s.nodes| && !s.nodes[m].disposed && s.nodes[m].kind == Member
    requires forall x :: x in l ==> x < |s.nodes| && Ownable(s.nodes[x].kind)
    requires P + multiset(s.nodes[m].owned) == Q + multiset(l)
    requires Owners(SetOwned(s, m, l, owner))
    ensures GoodBut(SetOwned(s, m, l, owner), Q, {}, {})
  {
    hide Shape, Links, Owners;
    SetOwnedFrame(s, m, l, owner);
    SetOwnedBalanced(s, P, m, l, owner, Q);
  }

  lemma SetOwnedBalanced(s: State, P: multiset<Id>, m: Id, l: seq<Id>, owner: map<Id, Id>, Q: multiset<Id>)
    requires Balanced(s, P) && m < |s.nodes| && !s.nodes[m].disposed
    requires P + multiset(s.nodes[m].owned) == Q + multiset(l)
    ensures Balanced(SetOwned(s, m, l, owner), Q)
  {
    var t := SetOwned(s, m, l, owner);
    forall i | 0 <= i < |t.nodes| ensures BalancedAt(t, Q, i) {
      assert BalancedAt(s, P, i);
      OwnedHolds(s.nodes, m, l, i);
      assert (P + multiset(s.nodes[m].owned))[i] == (Q + multiset(l))[i];
    }
  }

  lemma SetOwnedInv(s: State, m: Id, l: seq<Id>, owner: map<Id, Id>)
    requires Settled(s, multiset{}) && Slots(s) && m < |s.nodes|
    ensures var t := SetOwned(s, m, l, owner); Settled(t, multiset{}) && Slots(t)
  {
    var t := SetOwned(s, m, l, owner);
    forall r | 0 <= r < |t.lists| ensures SlotAt(t, r) { assert SlotAt(s, r); }
  }

  function OwnedNext(s: State, m: Id, r: Id, front: bool): seq<Id>
    requires m < |s.nodes|
  {
    if front then [r] + s.nodes[m].owned else s.nodes[m].owned + [r]
  }

  ghost predicate CanAddOwner(s: State, m: Id, r: Id) {
    && m in s.borrows && m < |s.nodes| && s.nodes[m].kind == Member
    && r in s.byId && r < |s.nodes| && Ownable(s.nodes[r].kind)
  }

  lemma AddOwnerUnfold(s: State, m: Id, r: Id, front: bool)
    requires Inv(s) && CanAddOwner(s, m, r)
    ensures var u := RefLk(s, r, 1);
      && OnlyRefs(s, u) && GoodBut(u, multiset{r}, {}, {}) && Settled(u, multiset{}) && Slots(u)
      && !s.nodes[m].disposed && u.nodes[m].owned == s.nodes[m].owned
      && u.owner == s.owner && !u.nodes[m].disposed && u.nodes[m].kind == Member
      && AddOwner(s, m, r, front) == SetOwned(u, m, OwnedNext(s, m, r, front), s.owner[r := m])
  {
    hide GoodBut, Settled, Slots;
    GoodParts(s, multiset{});
    BorrowedIsAlive(s, m);
    assert Registered(s, {}, r);
    GrabOne(s, multiset{}, r);
    assert multiset{} + multiset{r} == multiset{r};
    OnlyRefsInv(s, RefLk(s, r, 1));
  }

  /** Handing a resource to a member keeps everything, and keeps the two sides of the owner
      index in agreement exactly if nobody else owns the resource yet. */
  lemma AddOwnerExact(s: State, m: Id, r: Id, front: bool)
    requires Inv(s) && CanAddOwner(s, m, r)
    ensures Inv(AddOwner(s, m, r, front)) <==> (r in s.owner ==> s.owner[r] == m)
  {
    hide GoodBut, Settled, Slots, AddOwner, RefLk, SetOwned, Owners;
    var u := RefLk(s, r, 1);
    var l := OwnedNext(s, m, r, front);
    AddOwnerUnfold(s, m, r, front);
    GoodParts(s, multiset{});
    GoodParts(u, multiset{r});
    SetOwnedInv(u, m, l, s.owner[r := m]);
    if r in s.owner ==> s.owner[r] == m {
      AddOwnerOwners(u, m, r, l);
      OwnedRange(s, m, r, l);
      assert multiset{r} + multiset(s.nodes[m].owned) == multiset{} + multiset(l);
      SetOwnedGood(u, multiset{r}, m, l, s.owner[r := m], multiset{});
    } else {
      TwoOwners(u, m, r, l);
      NotGood(AddOwner(s, m, r, front));
    }
  }

  lemma OwnedRange(s: State, m: Id, r: Id, l: seq<Id>)
    requires Shape(s) && m < |s.nodes| && r < |s.nodes| && Ownable(s.nodes[r].kind)
    requires forall x :: x in l ==> x == r || x in s.nodes[m].owned
    ensures forall x :: x in l ==> x < |s.nodes| && Ownable(s.nodes[x].kind)
  {
    assert ShapeAt(s.nodes, m);
  }

  lemma NotGood(t: State)
    requires !Owners(t)
    ensures !Good(t)
  {
  }

  lemma AddOwnerOwners(s: State, m: Id, r: Id, l: seq<Id>)
    requires Owners(s) && m < |s.nodes| && !s.nodes[m].disposed && (r in s.owner ==> s.owner[r] == m)
    requires forall x :: x in l <==> x == r || x in s.nodes[m].owned
    ensures Owners(SetOwned(s, m, l, s.owner[r := m]))
  {
  }

  lemma TwoOwners(s: State, m: Id, r: Id, l: seq<Id>)
    requires Owners(s) && m < |s.nodes| && r in s.owner && s.owner[r] != m
    ensures !Owners(SetOwned(s, m, l, s.owner[r := m]))
  {
    var t := SetOwned(s, m, l, s.owner[r := m]);
    var o := s.owner[r];
    assert 0 <= o < |t.nodes| && !t.nodes[o].disposed && r in t.nodes[o].owned;
    assert t.owner[r] != o;
  }
}
