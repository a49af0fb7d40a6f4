/**
 What no step can undo: a resource keeps its identity, a closed resource is never reopened
 and a disposed one is never revived. Holds of every state, whether reachable or not.
 */
module RctHistory {
  import opened RctState
  import opened RctRefs
  import opened RctInvariant
  import opened RctRelease
  import opened RctClose
  import opened RctSteps
  import opened RctCreation
  import opened RctProtocol
  import opened RctRollback

  predicate LaterNode(a: Node, b: Node) {
    && b.kind == a.kind && b.uuid == a.uuid && b.wid == a.wid && b.user == a.user && b.up == a.up
    && (a.closed ==> b.closed) && (a.disposed ==> b.disposed)
    && (b.phase == a.phase || (a.phase == Building && b.phase != Building))
  }

  ghost predicate Later(s: State, t: State) {
    |s.nodes| <= |t.nodes| && forall i :: 0 <= i < |s.nodes| ==> LaterNode(s.nodes[i], t.nodes[i])
  }

  lemma LaterTrans(s: State, t: State, u: State)
    requires Later(s, t) && Later(t, u)
    ensures Later(s, u)
  {
    forall i | 0 <= i < |s.nodes| ensures LaterNode(s.nodes[i], u.nodes[i]) {
      assert LaterNode(s.nodes[i], t.nodes[i]) && LaterNode(t.nodes[i], u.nodes[i]);
    }
  }

  lemma SameNodesLater(s: State, t: State)
    requires t.nodes == s.nodes
    ensures Later(s, t)
  {
  }

  lemma {:induction false} RefLkLater(s: State, b: Id, n: int)
    ensures Later(s, RefLk(s, b, n))
    decreases AliveSet(s.nodes), 1
  {
    if b < |s.nodes| && !s.nodes[b].disposed && s.nodes[b].refs + n < 1 {
      RefLkUnfold(s, b, n);
      DisposeLater(s, b, n);
    }
  }

  lemma {:induction false} DisposeLater(s: State, b: Id, n: int)
    requires b < |s.nodes| && !s.nodes[b].disposed && s.nodes[b].refs + n < 1
    ensures Later(s, Unregister(RefAllLk(Detach(AddRefs(s, b, n), b), s.nodes[b].Releases()), b))
    decreases AliveSet(s.nodes), 0
  {
    hide RefLk, RefAllLk, Detach, Unregister, Later;
    var s2 := Detach(AddRefs(s, b, n), b);
    var s3 := RefAllLk(s2, s.nodes[b].Releases());
    DetachFrame(s, b, n);
    DetachLater(s, b, n);
    assert b in AliveSet(s.nodes);
    RefAllLkLater(s2, s.nodes[b].Releases());
    UnregisterFrame(s3, b);
    SameNodesLater(s3, Unregister(s3, b));
    LaterTrans(s, s2, s3);
    LaterTrans(s, s3, Unregister(s3, b));
  }

  lemma DetachLater(s: State, b: Id, n: int)
    requires b < |s.nodes|
    ensures Later(s, Detach(AddRefs(s, b, n), b))
  {
  }

  lemma {:induction false} RefAllLkLater(s: State, ids: seq<Id>)
    ensures Later(s, RefAllLk(s, ids))
    decreases AliveSet(s.nodes), |ids| + 1
  {
    if ids != [] {
      var t := RefLk(s, ids[0], -1);
      RefLkLater(s, ids[0], -1);
      RefAllLkLater(t, ids[1..]);
      LaterTrans(s, t, RefAllLk(s, ids));
    }
  }

  lemma {:induction false} CloseLkLater(s: State, b: Id)
    ensures Later(s, CloseLk(s, b))
    decreases OpenSet(s.nodes), 0, 0
  {
    hide CloseBody, RefLk, Later;
    if b < |s.nodes| && !s.nodes[b].disposed && !s.nodes[b].closed {
      var s1 := MarkClosed(s, b);
      MarkLater(s, b);
      var s2 := CloseBody(s1, b);
      CloseBodyLater(s1, b);
      RefLkLater(s2, b, -1);
      LaterTrans(s, s1, s2);
      LaterTrans(s, s2, CloseLk(s, b));
    } else {
      SameNodesLater(s, CloseLk(s, b));
    }
  }

  lemma MarkLater(s: State, b: Id)
    requires b < |s.nodes| && !s.nodes[b].closed
    ensures Later(s, MarkClosed(s, b)) && b in OpenSet(s.nodes)
    ensures OpenSet(MarkClosed(s, b).nodes) == OpenSet(s.nodes) - {b}
  {
  }

  lemma {:induction false} CloseBodyLater(s: State, b: Id)
    requires b < |s.nodes|
    ensures Later(s, CloseBody(s, b))
    decreases OpenSet(s.nodes), 2, 0
  {
    hide WalkLk, CloseLk, CloseRoomSlot, Later;
    SameNodesLater(s, s);
    match s.nodes[b].kind {
      case Router =>
        CloseSlotLater(s, b);
        var s1 := CloseRoomSlot(s, b);
        var s2 := WalkLk(s1, b, Transport, First(ListOf(s1, b, Transport)));
        WalkLater(s1, b, Transport, First(ListOf(s1, b, Transport)));
        WalkLater(s2, b, Observer, First(ListOf(s2, b, Observer)));
        LaterTrans(s, s1, s2);
        LaterTrans(s, s2, CloseBody(s, b));
      case Transport =>
        var s1 := WalkLk(s, b, Producer, First(ListOf(s, b, Producer)));
        WalkLater(s, b, Producer, First(ListOf(s, b, Producer)));
        WalkLater(s1, b, Consumer, First(ListOf(s1, b, Consumer)));
        LaterTrans(s, s1, CloseBody(s, b));
      case Producer => WalkLater(s, b, Consumer, First(ListOf(s, b, Consumer)));
      case Room => WalkLater(s, b, Member, First(ListOf(s, b, Member)));
      case Member => SameNodesLater(s, CloseBody(s, b));
      case _ =>
    }
  }

  lemma {:induction false} CloseSlotLater(s: State, b: Id)
    ensures Later(s, CloseRoomSlot(s, b))
    decreases OpenSet(s.nodes), 1, 0
  {
    var slot := ListOf(s, b, Room);
    if slot != [] { CloseLkLater(s, slot[0]); }
  }

  lemma {:induction false} WalkLater(s: State, t: Id, k: Kind, p: Option<Id>)
    ensures Later(s, WalkLk(s, t, k, p))
    decreases OpenSet(s.nodes), 1, Remaining(s, t, k, p)
  {
    if p.Some? {
      var n := Next(ListOf(s, t, k), p.value);
      var s1 := CloseLk(s, p.value);
      CloseLkLater(s, p.value);
      WalkLater(s1, t, k, n);
      LaterTrans(s, s1, WalkLk(s, t, k, p));
    }
  }

  // ---------------------------------------------------------------- lists only lose elements

  ghost predicate Shrinks(s: State, t: State) {
    |t.lists| == |s.lists| && forall p: Id, k: Kind :: p < |s.lists| ==> Subset(t.lists[p].Get(k), s.lists[p].Get(k))
  }

  ghost predicate Subset(a: seq<Id>, b: seq<Id>) {
    forall x :: x in a ==> x in b
  }

  lemma ShrinksTrans(s: State, t: State, u: State)
    requires Shrinks(s, t) && Shrinks(t, u)
    ensures Shrinks(s, u)
  {
    forall p: Id, k: Kind | p < |s.lists| ensures Subset(u.lists[p].Get(k), s.lists[p].Get(k)) {
      assert Subset(t.lists[p].Get(k), s.lists[p].Get(k)) && Subset(u.lists[p].Get(k), t.lists[p].Get(k));
    }
  }

  lemma SameListsShrink(s: State, t: State)
    requires t.lists == s.lists
    ensures Shrinks(s, t)
  {
  }

  lemma UnlinkShrinks(s: State, t: State, up: seq<Id>, k: Kind, b: Id)
    requires t.lists == Unlink(s.lists, up, k, b)
    ensures Shrinks(s, t)
  {
    forall p: Id, q: Kind | p < |s.lists| ensures Subset(t.lists[p].Get(q), s.lists[p].Get(q)) {
      PutShrinks(s.lists[p], k, q, b);
    }
  }

  lemma PutShrinks(l: Lists, k: Kind, q: Kind, b: Id)
    ensures Subset(l.Put(k, Remove(l.Get(k), b)).Get(q), l.Get(q))
  {
  }

  lemma DetachShrinks(s: State, b: Id, n: int)
    requires b < |s.nodes|
    ensures Shrinks(s, Detach(AddRefs(s, b, n), b))
  {
    hide Unlink, Shrinks;
    var t := Detach(AddRefs(s, b, n), b);
    if UnlinkedByDispose(s.nodes[b].kind) {
      UnlinkShrinks(s, t, s.nodes[b].up, s.nodes[b].kind, b);
    } else {
      SameListsShrink(s, t);
    }
  }

  lemma {:induction false} RefLkShrinks(s: State, b: Id, n: int)
    ensures Shrinks(s, RefLk(s, b, n))
    decreases AliveSet(s.nodes), 1
  {
    hide Shrinks;
    if b < |s.nodes| && !s.nodes[b].disposed && s.nodes[b].refs + n < 1 {
      RefLkUnfold(s, b, n);
      DisposeShrinks(s, b, n);
    } else {
      SameListsShrink(s, RefLk(s, b, n));
    }
  }

  lemma {:induction false} DisposeShrinks(s: State, b: Id, n: int)
    requires b < |s.nodes| && !s.nodes[b].disposed && s.nodes[b].refs + n < 1
    ensures Shrinks(s, Unregister(RefAllLk(Detach(AddRefs(s, b, n), b), s.nodes[b].Releases()), b))
    decreases AliveSet(s.nodes), 0
  {
    hide RefLk, RefAllLk, Detach, Unregister, Shrinks;
    var s2 := Detach(AddRefs(s, b, n), b);
    var s3 := RefAllLk(s2, s.nodes[b].Releases());
    DetachFrame(s, b, n);
    DetachShrinks(s, b, n);
    assert b in AliveSet(s.nodes);
    RefAllLkShrinks(s2, s.nodes[b].Releases());
    UnregisterFrame(s3, b);
    SameListsShrink(s3, Unregister(s3, b));
    ShrinksTrans(s, s2, s3);
    ShrinksTrans(s, s3, Unregister(s3, b));
  }

  lemma {:induction false} RefAllLkShrinks(s: State, ids: seq<Id>)
    ensures Shrinks(s, RefAllLk(s, ids))
    decreases AliveSet(s.nodes), |ids| + 1
  {
    hide Shrinks, RefLk;
    SameListsShrink(s, s);
    if ids != [] {
      var t := RefLk(s, ids[0], -1);
      RefLkShrinks(s, ids[0], -1);
      RefAllLkShrinks(t, ids[1..]);
      ShrinksTrans(s, t, RefAllLk(s, ids));
    }
  }

  lemma {:induction false} CloseLkShrinks(s: State, b: Id)
    ensures Shrinks(s, CloseLk(s, b))
    decreases OpenSet(s.nodes), 0, 0
  {
    hide CloseBody, RefLk, Shrinks;
    if b < |s.nodes| && !s.nodes[b].disposed && !s.nodes[b].closed {
      var s1 := MarkClosed(s, b);
      MarkLater(s, b);
      var s2 := CloseBody(s1, b);
      CloseBodyShrinks(s1, b);
      RefLkShrinks(s2, b, -1);
      SameListsShrink(s, s1);
      ShrinksTrans(s, s1, s2);
      ShrinksTrans(s, s2, CloseLk(s, b));
    } else {
      SameListsShrink(s, CloseLk(s, b));
    }
  }

  lemma {:induction false} CloseBodyShrinks(s: State, b: Id)
    requires b < |s.nodes|
    ensures Shrinks(s, CloseBody(s, b))
    decreases OpenSet(s.nodes), 2, 0
  {
    hide WalkLk, CloseLk, CloseRoomSlot, Shrinks, Unlink;
    SameListsShrink(s, s);
    match s.nodes[b].kind {
      case Router =>
        CloseSlotShrinks(s, b);
        var s1 := CloseRoomSlot(s, b);
        var s2 := WalkLk(s1, b, Transport, First(ListOf(s1, b, Transport)));
        WalkShrinks(s1, b, Transport, First(ListOf(s1, b, Transport)));
        WalkShrinks(s2, b, Observer, First(ListOf(s2, b, Observer)));
        ShrinksTrans(s, s1, s2);
        ShrinksTrans(s, s2, CloseBody(s, b));
      case Transport =>
        var s1 := WalkLk(s, b, Producer, First(ListOf(s, b, Producer)));
        WalkShrinks(s, b, Producer, First(ListOf(s, b, Producer)));
        WalkShrinks(s1, b, Consumer, First(ListOf(s1, b, Consumer)));
        ShrinksTrans(s, s1, CloseBody(s, b));
      case Producer => WalkShrinks(s, b, Consumer, First(ListOf(s, b, Consumer)));
      case Room => WalkShrinks(s, b, Member, First(ListOf(s, b, Member)));
      case Member => UnlinkShrinks(s, CloseBody(s, b), s.nodes[b].up, Member, b);
      case _ =>
    }
  }

  lemma {:induction false} CloseSlotShrinks(s: State, b: Id)
    ensures Shrinks(s, CloseRoomSlot(s, b))
    decreases OpenSet(s.nodes), 1, 0
  {
    hide CloseLk, Shrinks;
    var slot := ListOf(s, b, Room);
    SameListsShrink(s, s);
    if slot != [] {
      var s1 := CloseLk(s, slot[0]);
      CloseLkShrinks(s, slot[0]);
      EmptySlotShrinks(s1, b);
      ShrinksTrans(s, s1, CloseRoomSlot(s, b));
    }
  }

  lemma EmptySlotShrinks(s: State, b: Id)
    ensures Shrinks(s, PutList(s, b, Room, []))
  {
    var t := PutList(s, b, Room, []);
    forall p: Id, k: Kind | p < |s.lists| ensures Subset(t.lists[p].Get(k), s.lists[p].Get(k)) {}
  }

  lemma {:induction false} WalkShrinks(s: State, t: Id, k: Kind, p: Option<Id>)
    ensures Shrinks(s, WalkLk(s, t, k, p))
    decreases OpenSet(s.nodes), 1, Remaining(s, t, k, p)
  {
    hide CloseLk, Shrinks;
    SameListsShrink(s, s);
    if p.Some? {
      var n := Next(ListOf(s, t, k), p.value);
      var s1 := CloseLk(s, p.value);
      CloseLkShrinks(s, p.value);
      WalkShrinks(s1, t, k, n);
      ShrinksTrans(s, s1, WalkLk(s, t, k, p));
    }
  }

  // ---------------------------------------------------------------- the steps

  lemma {:induction false} GrabLater(s: State, ids: seq<Id>)
    ensures Later(s, Grab(s, ids))
    decreases |ids|
  {
    if ids != [] {
      var t := RefLk(s, ids[0], 1);
      RefLkLater(s, ids[0], 1);
      GrabLater(t, ids[1..]);
      LaterTrans(s, t, Grab(s, ids));
    }
  }

  lemma BorrowLater(s: State, i: Id)
    ensures Later(s, Borrow(s, i))
  {
    GrabLater(s, [i]);
  }

  lemma ReleaseLater(s: State, i: Id)
    ensures Later(s, Release(s, i))
  {
    RefLkLater(s.(borrows := s.borrows - multiset{i}), i, -1);
  }

  lemma {:induction false} ReleaseAllLater(s: State, ids: seq<Id>)
    ensures Later(s, ReleaseAll(s, ids))
    decreases |ids|
  {
    hide Release;
    if ids != [] {
      ReleaseLater(s, ids[0]);
      ReleaseAllLater(Release(s, ids[0]), ids[1..]);
      LaterTrans(s, Release(s, ids[0]), ReleaseAll(s, ids));
    }
  }

  lemma AddLater(s: State, n: Node)
    ensures Later(s, Append(s, n)) && Later(s, Register(Append(s, n), |s.nodes|)) && Later(s, Gap(s, n))
    ensures Register(Append(s, n), |s.nodes|).nodes == s.nodes + [n]
  {
    RegisterRest(Append(s, n), |s.nodes|);
  }

  lemma BeginLater(s: State, k: Kind, up: seq<Id>, uuid: Uuid, own: Wid)
    ensures Later(s, Begin(s, k, up, uuid, own))
  {
    hide Register, Append, Grab, Later;
    SameNodesLater(s, s);
    if ParentsFound(s, k, up) {
      var n := NewNode(s, k, up, uuid, own);
      var s1 := Hold(Grab(s, up), up);
      var s2 := Grab(s1, up);
      AppendSize(s2, n);
      GrabLater(s, up);
      SameNodesLater(Grab(s, up), s1);
      GrabLater(s1, up);
      AddLater(s2, n);
      LaterTrans(s, Grab(s, up), s1);
      LaterTrans(s, s1, s2);
      LaterTrans(s, s2, Register(Append(s2, n), |s2.nodes|));
    }
  }

  lemma FinishLater(s: State, c: Id, p: Phase, n: int)
    requires UnderConstruction(s, c) && p != Building
    ensures Later(s, RefLk(SetPhase(s, c, p), c, n))
  {
    RefLkLater(SetPhase(s, c, p), c, n);
    assert Later(s, SetPhase(s, c, p));
    LaterTrans(s, SetPhase(s, c, p), RefLk(SetPhase(s, c, p), c, n));
  }

  lemma FailEarlyLater(s: State, k: Kind, up: seq<Id>, uuid: Uuid, own: Wid)
    requires Good(s) && k !in {Room, Member}
    ensures Later(s, FailEarly(s, k, up, uuid, own))
  {
    hide GoodBut, FailEarly, Gap;
    FailEarlyIsNothing(s, k, up, uuid, own);
    SameNodesLater(s, s);
    if ParentsFound(s, k, up) { AddLater(s, Buried(NewNode(s, k, up, uuid, own))); }
  }

  lemma CloseLater(s: State, i: Id)
    ensures Later(s, Close(s, i))
  {
    hide Borrow, CloseLk, Release, Later;
    SameNodesLater(s, s);
    if i in s.byId {
      var u := Borrow(s, i);
      var t := CloseLk(u, i);
      BorrowLater(s, i);
      CloseLkLater(u, i);
      LaterTrans(s, u, t);
      ReleaseLater(t, i);
      SameNodesLater(t, t.(borrows := t.borrows - multiset{i}));
      LaterTrans(s, t, Close(s, i));
    }
  }

  lemma AddOwnerLater(s: State, m: Id, r: Id, front: bool)
    ensures Later(s, AddOwner(s, m, r, front))
  {
    RefLkLater(s, r, 1);
    var t := RefLk(s, r, 1);
    assert Later(t, AddOwner(s, m, r, front)) || AddOwner(s, m, r, front) == s;
    if AddOwner(s, m, r, front) != s { LaterTrans(s, t, AddOwner(s, m, r, front)); }
  }

  lemma DropOwnerLater(s: State, r: Id)
    ensures Later(s, DropOwner(s, r))
  {
    hide RefAllLk, Without;
    if r in s.owner && Found(s, s.owner[r], Member) {
      var m := s.owner[r];
      var n := s.nodes[m];
      var u := s.(owner := s.owner - {r}).(nodes := s.nodes[m := n.(owned := Without(n.owned, r))]);
      assert Later(s, u);
      RefAllLkLater(u, Copies(r, multiset(n.owned)[r]));
      LaterTrans(s, u, DropOwner(s, r));
    }
  }

  lemma CloseIfLater(s: State, m: Option<Id>)
    ensures Later(s, CloseIfSome(s, m))
  {
    if m.Some? { CloseLkLater(s, m.value); }
  }

  lemma JoinLater(s: State, room: Id, prev: Option<Id>, uuid: Uuid, user: int)
    ensures Later(s, Join(s, room, prev, uuid, user))
  {
    hide CloseLk, Borrow, Release, Grab, Append, Register, CloseIfSome, Later;
    SameNodesLater(s, s);
    var s1 := if prev.Some? && Found(s, prev.value, Member) then CloseLk(s, prev.value) else s;
    if prev.Some? { CloseLkLater(s, prev.value); }
    if Found(s1, room, Room) {
      var s2 := Borrow(s1, room);
      var s3 := CloseIfSome(s2, MemberOf(s2.nodes, ListOf(s2, room, Member), user));
      var s4 := Grab(s3, [room]);
      var n := Node(Member, uuid, 0, user, 1, false, false, Live, [room], []);
      AppendSize(s4, n);
      var s5 := Register(Append(s4, n), |s4.nodes|);
      BorrowLater(s1, room);
      CloseIfLater(s2, MemberOf(s2.nodes, ListOf(s2, room, Member), user));
      GrabLater(s3, [room]);
      AddLater(s4, n);
      ReleaseLater(s5, room);
      LaterTrans(s, s1, s2);
      LaterTrans(s, s2, s3);
      LaterTrans(s, s3, s4);
      LaterTrans(s, s4, s5);
      LaterTrans(s, s5, Release(s5, room));
    }
  }

  lemma {:induction false} CreateRoomLater(s: State, router: Id, prev: Option<Id>, roomUuid: Uuid, uuid: Uuid, user: int)
    ensures Later(s, CreateRoom(s, router, prev, roomUuid, uuid, user))
  {
    hide CloseLk, Borrow, Release, Grab, Append, Register, CloseIfSome, Later, Join;
    SameNodesLater(s, s);
    if Found(s, router, Router) {
      var s1 := Borrow(s, router);
      var s2 := CloseIfSome(s1, First(ListOf(s1, router, Room)));
      var s3 := Grab(s2, [router]);
      var n := Node(Room, roomUuid, 0, 0, 1, false, false, Live, [router], []);
      AppendSize(s3, n);
      var s4 := Register(Append(s3, n), |s3.nodes|);
      var s5 := Join(s4, |s3.nodes|, prev, uuid, user);
      BorrowLater(s, router);
      CloseIfLater(s1, First(ListOf(s1, router, Room)));
      GrabLater(s2, [router]);
      AddLater(s3, n);
      JoinLater(s4, |s3.nodes|, prev, uuid, user);
      ReleaseLater(s5, router);
      LaterTrans(s, s1, s2);
      LaterTrans(s, s2, s3);
      LaterTrans(s, s3, s4);
      LaterTrans(s, s4, s5);
      LaterTrans(s, s5, Release(s5, router));
    }
  }
}
