/**
 The steps that tell a world with a half-made resource from the one without it: exactly those
 that are not unaware of it. And a run in which such a step makes a difference for good.
 */
module RctNotice {
  import opened RctState
  import opened RctRefs
  import opened RctInvariant
  import opened RctClose
  import opened RctCascade
  import opened RctSteps
  import opened RctCreation
  import opened RctProtocol
  import opened RctRooms
  import opened RctRollback
  import opened RctHistory
  import opened RctRuns
  import opened RctSurvival
  import opened RctTheorems
  import opened RctClosedParents
  import opened RctParallel
  import opened RctParallelRooms
  import opened RctCloseById
  import opened RctFewer
  import opened RctParallelCloses
  import opened RctNoTrace

  // ---------------------------------------------------------------- what the worlds have apart

  lemma NotClear(u: State, w: State, c: Id, i: Id)
    requires Twin(u, w, c) && Inv(u) && Inv(w) && c < |u.nodes| && i in u.byId && !Clear(u, c, i)
    ensures i !in w.byId
  {
    hide GoodBut, Settled, Slots, Twin, Clear;
    InvIsGood(w);
    ClearExactly(u, w, c, i);
    TwinAll(u, w, c);
    ById(w);
  }

  lemma NotFoundThere(u: State, w: State, c: Id, k: Kind, up: seq<Id>, p: Id)
    requires Twin(u, w, c) && Inv(u) && Inv(w) && c < |u.nodes| && ParentsFound(u, k, up) && p in up && !Clear(u, c, p)
    ensures !ParentsFound(w, k, up)
  {
    hide Inv, Twin, Clear;
    var j :| 0 <= j < |up| && up[j] == p;
    assert Found(u, up[j], ParentKinds(k)[j]);
    NotClear(u, w, c, p);
    assert !Found(w, up[j], ParentKinds(k)[j]);
  }

  lemma BeginNoticed(u: State, w: State, c: Id, k: Kind, up: seq<Id>, uuid: Uuid, own: Wid)
    requires Twin(u, w, c) && Inv(u) && Inv(w) && c < |u.nodes| && ParentsFound(u, k, up) && !ParentsFound(w, k, up)
    requires k !in {Room, Member}
    ensures !Twin(Begin(u, k, up, uuid, own), Begin(w, k, up, uuid, own), c)
    ensures !Twin(FailEarly(u, k, up, uuid, own), FailEarly(w, k, up, uuid, own), c)
  {
    hide Inv, Begin, FailEarly;
    InvIsGood(u);
    InvIsGood(w);
    NotBegun(w, k, up, uuid, own);
    BeginFrame(u, k, up, uuid, own);
    FailEarlyIsNothing(u, k, up, uuid, own);
    FailEarlyIsNothing(w, k, up, uuid, own);
  }

  /** Finishing the creation of `c` is noticed. */
  lemma FinishNoticed(u: State, w: State, w1: State, c: Id, p: Phase, n: int)
    requires Twin(u, w, c) && Inv(u) && UnderConstruction(u, c) && p != Building
    ensures !Twin(RefLk(SetPhase(u, c, p), c, n), w1, c)
  {
    hide Inv, RefLk;
    InvIsGood(u);
    FinishKeeps(u, c, p, n);
  }

  lemma BorrowNoticed(u: State, w: State, c: Id, i: Id)
    requires Twin(u, w, c) && Inv(u) && i in u.byId && i !in w.byId
    ensures !Twin(Borrow(u, i), Borrow(w, i), c)
  {
    hide GoodBut, Settled, Slots;
    InvIsGood(u);
    BorrowGood(u, multiset{}, i);
    TwinAll(u, w, c);
    assert (u.borrows + multiset{i})[i] != u.borrows[i];
  }

  lemma OwnerNoticed(u: State, w: State, c: Id, m: Id, r: Id, front: bool)
    requires Twin(u, w, c) && Inv(u) && Inv(w) && CanAddOwner(u, m, r) && r !in w.byId
    ensures !Twin(AddOwner(u, m, r, front), AddOwner(w, m, r, front), c)
  {
    hide GoodBut, Settled, Slots, RefLk;
    InvIsGood(u);
    InvIsGood(w);
    GoodParts(u, multiset{});
    BorrowedIsAlive(u, m);
    AliveAlike(u, w, c, m);
    AddOwnerUnfold(u, m, r, front);
    NotAdded(w, m, r, front);
    assert |AddOwner(u, m, r, front).nodes[m].owned| == |u.nodes[m].owned| + 1;
  }

  lemma RoomNoticed(u: State, w: State, c: Id, router: Id, prev: Option<Id>, ru: Uuid, mu: Uuid, user: int)
    requires Twin(u, w, c) && Inv(u) && DistinctUsers(u) && Found(u, router, Router) && router !in w.byId
    requires ru !in u.byUuid && mu !in u.byUuid && ru != mu && !u.nodes[router].closed
    ensures !Twin(CreateRoom(u, router, prev, ru, mu, user), CreateRoom(w, router, prev, ru, mu, user), c)
  {
    hide Inv, DistinctUsers, Vacate, Join, CreateRoom, Release, Borrow, RoomReady, Grab, Later;
    NotCreated(w, router, prev, ru, mu, user);
    CreateRoomIs(u, router, prev, ru, mu, user);
    CreateParts(u, router, prev, ru, mu, user);
    var s2 := Vacate(Borrow(u, router), router);
    var s4 := Seat(s2, router, RoomNode(router, ru));
    InvIsGood(s4);
    GrownSeat(s2, router, RoomNode(router, ru));
    JoinLater(s4, |u.nodes|, prev, mu, user);
    var s5 := Join(s4, |u.nodes|, prev, mu, user);
    ReleaseLater(s5, router);
    LaterSize(s4, s5);
    LaterSize(s5, Release(s5, router));
  }

  lemma LaterSize(s: State, t: State)
    requires Later(s, t)
    ensures |s.nodes| <= |t.nodes|
  {
  }

  /** A step that is in order in the larger world is in order in the smaller one and keeps the
      worlds alike exactly if it is unaware of the half-made resource; a close of a router above
      something given up has to be in order in the smaller one in its own right. */
  lemma TwinStepExactly(u: State, w: State, c: Id, st: Step)
    requires Twin(u, w, c) && Inv(u) && Inv(w) && DistinctUsers(u) && DistinctUsers(w) && c < |u.nodes|
    requires Assumed(u, st) && Disciplined(u, st)
    ensures (Assumed(w, st) && Disciplined(w, st) && Twin(Apply(u, st), Apply(w, st), c)) <==>
      (Unaware(u, c, st) && ClosesThere(u, w, st))
  {
    hide Inv, DistinctUsers, Twin, Assumed, Disciplined, Unaware, Apply, AboveGivenUp;
    if !Unaware(u, c, st) {
      Noticed(u, w, c, st);
    } else if ClosesThere(u, w, st) {
      TwinStep(u, w, c, st);
    }
  }

  lemma Noticed(u: State, w: State, c: Id, st: Step)
    requires Twin(u, w, c) && Inv(u) && Inv(w) && DistinctUsers(u) && DistinctUsers(w) && c < |u.nodes|
    requires Assumed(u, st) && Disciplined(u, st) && !Unaware(u, c, st)
    ensures !(Assumed(w, st) && Twin(Apply(u, st), Apply(w, st), c))
  {
    hide Inv, DistinctUsers, Twin, Clear, Begin, FailEarly, RefLk, SetPhase, Borrow, Release, Close, AddOwner, DropOwner, Join, CreateRoom, MayClose, RoomReady;
    TwinAll(u, w, c);
    InvIsGood(u);
    BuildingAlive(u, c);
    match st {
      case BeginCreate(k, up, uuid, own) =>
        var p :| p in up && !Clear(u, c, p);
        NotFoundThere(u, w, c, k, up, p);
        BeginNoticed(u, w, c, k, up, uuid, own);
      case CreationRefused(k, up, uuid, own) =>
        var p :| p in up && !Clear(u, c, p);
        NotFoundThere(u, w, c, k, up, p);
        BeginNoticed(u, w, c, k, up, uuid, own);
      case CreatorSucceeds(d) => FinishNoticed(u, w, Apply(w, st), c, Live, -INIT_REFS + 1);
      case CreatorFails(d) => FinishNoticed(u, w, Apply(w, st), c, Failed, -INIT_REFS);
      case BorrowRef(i) =>
        NotClearFound(u, c, i);
        NotClear(u, w, c, i);
        BorrowNoticed(u, w, c, i);
      case ReleaseRef(i) => assert u.borrows - multiset(u.nodes[c].up) == w.borrows;
      case OwnerAdded(m, r, front) =>
        NotClearFound(u, c, r);
        NotClear(u, w, c, r);
        OwnerNoticed(u, w, c, m, r, front);
      case RoomCreated(router, prev, ru, mu, user) =>
        NotClear(u, w, c, router);
        RoomNoticed(u, w, c, router, prev, ru, mu, user);
      case _ =>
    }
  }

  lemma NotClearFound(u: State, c: Id, i: Id)
    requires Inv(u) && c < |u.nodes| && !Clear(u, c, i)
    ensures i in u.byId
  {
    hide GoodBut, Settled, Slots;
    ById(u);
  }

  // ---------------------------------------------------------------- a run

  lemma TwoSteps(s: State, a: Step, b: Step)
    ensures Run(s, [a, b]) == Apply(Apply(s, a), b)
    ensures Assumed(s, a) && Disciplined(s, a) && Assumed(Apply(s, a), b) && Disciplined(Apply(s, a), b) ==> RunOk(s, [a, b])
  {
    hide Apply, Assumed, Disciplined;
    var l := [a, b];
    assert l[..1] == [a] && l[..0] == [] && [a][..0] == [];
    assert Run(s, []) == s && Run(s, [a]) == Apply(s, a);
  }

  /** A transport half made on the router, and the same refused. */
  function WithTransport(): State {
    Begin(RouterReady(), Transport, [0], 2, 0)
  }

  function WithoutTransport(): State {
    FailEarly(RouterReady(), Transport, [0], 2, 0)
  }

  lemma ReadyUnheld()
    ensures RouterReady().borrows == multiset{}
  {
    hide Inv, RefLk;
    InvIsGood(EMPTY) by { EmptyInv(); }
    RouterBegunIs();
    BeginFrame(EMPTY, Router, [], 1, 7);
    var s := RouterBegun();
    InvIsGood(s);
    FinishKeeps(s, 0, Live, -INIT_REFS + 1);
  }

  lemma BothStart()
    ensures var s := RouterReady(); var u := WithTransport(); var w := WithoutTransport();
      && Inv(s) && DistinctUsers(s) && ParentsFound(s, Transport, [0]) && |s.nodes| == 1
      && Assumed(s, BeginCreate(Transport, [0], 2, 0)) && Disciplined(s, BeginCreate(Transport, [0], 2, 0))
      && Inv(u) && Inv(w) && |u.nodes| == 2 && |w.nodes| == 2 && u.borrows == multiset{0} && w.borrows == multiset{}
      && u.nodes[1].phase == Building && u.nodes[1].kind == Transport && u.nodes[1].up == [0] && u.nodes[1].owned == [] && w.nodes[1].disposed
      && u.nodes[0].kind == Router && w.nodes[0].kind == Router && u.nodes[0].phase == Live && w.nodes[0].phase == Live
      && u.nodes[0].up == [] && u.nodes[0].owned == [] && !u.nodes[0].closed && !w.nodes[0].closed
      && Alive(u, 0) && Alive(w, 0)
  {
    hide Inv, DistinctUsers, Begin, FailEarly, RouterReady;
    var s := RouterReady();
    RouterReadyIs();
    ReadyUnheld();
    FoundIfAlive(s, 0);
    OtherUuid(s, 2);
    ReadyFound0(s);
    InvIsGood(s);
    OneShape(s);
    TwinsBegin(s, Transport, [0], 2, 0);
    BeginFrame(s, Transport, [0], 2, 0);
    FailEarlyIsNothing(s, Transport, [0], 2, 0);
    assert s.borrows + multiset([0]) == multiset{0};
  }

  lemma ReadyFound0(s: State)
    requires Found(s, 0, Router)
    ensures ParentsFound(s, Transport, [0])
  {
  }

  lemma OneShape(s: State)
    requires Good(s) && |s.nodes| == 1 && s.nodes[0].kind == Router
    ensures s.nodes[0].up == [] && s.nodes[0].owned == []
  {
    assert ShapeAt(s.nodes, 0);
  }

  /** Closing the router, whose only other reference is the one that the creator borrowed. */
  lemma RouterClosed(v: State)
    requires Inv(v) && |v.nodes| == 2 && Alive(v, 0) && v.nodes[0].kind == Router && v.nodes[0].phase == Live && !v.nodes[0].closed
    requires v.nodes[1].disposed || v.nodes[1].phase == Building
    ensures NoFailedBelow(v, 0) && 0 in v.byId
    ensures var t := Close(v, 0);
      && Inv(t) && |t.nodes| == 2 && t.borrows == v.borrows && t.nodes[0].closed && t.nodes[0].phase == Live && Later(v, t)
  {
    hide Inv, Close, Later;
    FoundIfAlive(v, 0);
    CloseInv(v, 0);
    CloseCloses(v, 0);
    CloseKeepsBorrows(v, 0);
    CloseLater(v, 0);
  }

  /** With the transport half made the router is still there for a thread that looks it up. */
  lemma FoundWith()
    ensures var u := Close(WithTransport(), 0);
      && Inv(u) && Alive(u, 0) && |u.nodes| == 2 && u.borrows == multiset{0} && u.nodes[1].phase == Building
      && u.nodes[0].up == [] && u.nodes[0].owned == [] && u.nodes[1].up == [0] && u.nodes[1].owned == [] && 0 in u.byId
  {
    hide Inv, Close, Later, WithTransport;
    var v := WithTransport();
    var u := Close(v, 0);
    BothStart();
    RouterClosed(v);
    InvIsGood(u);
    GoodParts(u, multiset{});
    BorrowedIsAlive(u, 0);
    FoundIfAlive(u, 0);
    LaterNodeAt(v, u, 0);
    LaterNodeAt(v, u, 1);
    OwnedKinds(u, 0);
    OwnedKinds(u, 1);
    CloseBuilding(v, 1);
  }

  lemma CloseBuilding(v: State, x: Id)
    requires Inv(v) && Alive(v, 0) && 0 in v.byId && v.nodes[0].kind == Router && NoFailedBelow(v, 0) && x < |v.nodes|
    ensures var t := Close(v, 0); x < |t.nodes| && t.nodes[x].phase == v.nodes[x].phase
  {
    hide GoodBut, Settled, Slots, Borrow, CloseLk, Release, OnlyRefs, ClosesDown, KeepsIntent;
    PlainOther(v, 0);
    var t := CloseLk(Borrow(v, 0), 0);
    InvIsGood(v);
    BorrowGood(v, multiset{}, 0);
    OnlyRefsNode(v, Borrow(v, 0), x);
    DownAt(Borrow(v, 0), t, 0, x);
    ReleaseIntent(t, 0);
    KeepsAt(t, Release(t, 0), x);
  }

  lemma KeepsAt(s: State, t: State, x: Id)
    requires KeepsIntent(s, t) && x < |s.nodes|
    ensures x < |t.nodes| && t.nodes[x].phase == s.nodes[x].phase
  {
  }

  /** Without it the router goes away when it is closed. */
  lemma GoneWithout()
    ensures var w := Close(WithoutTransport(), 0); Inv(w) && |w.nodes| == 2 && w.nodes[0].disposed && 0 !in w.byId
  {
    hide Inv, Close, Later, WithoutTransport;
    var v := WithoutTransport();
    var w := Close(v, 0);
    BothStart();
    RouterClosed(v);
    LaterNodeAt(v, w, 0);
    LaterNodeAt(v, w, 1);
    InvIsGood(w);
    NobodyHolds(w);
    ById(w);
  }

  lemma NobodyHolds(w: State)
    requires Good(w) && |w.nodes| == 2 && w.nodes[0].kind == Router && w.nodes[1].disposed && w.borrows == multiset{}
    requires w.nodes[0].closed && w.nodes[0].phase == Live
    ensures w.nodes[0].disposed
  {
    assert ShapeAt(w.nodes, 0);
    InNone(w.nodes, 0);
    AliveIffHeld(w, 0);
  }

  /** When the creator has failed and let go of the router, the thread still has it. */
  lemma StillThere()
    ensures var u := Borrow(Close(WithTransport(), 0), 0);
      && Inv(u) && UnderConstruction(u, 1) && Disciplined(u, CreatorFails(1))
      && Alive(ReleaseAll(FinishFail(u, 1), [0]), 0)
  {
    hide GoodBut, Settled, Slots, Close, Borrow, FinishFail, ReleaseAll, WithTransport, OnlyRefs, In;
    var v := Close(WithTransport(), 0);
    var u := Borrow(v, 0);
    FoundWith();
    InvIsGood(v);
    BorrowInv(v, 0);
    BorrowGood(v, multiset{}, 0);
    OnlyRefsNode(v, u, 0);
    OnlyRefsNode(v, u, 1);
    InvIsGood(u);
    BuildingAlive(u, 1);
    InNone(u.nodes, 1);
    AliveIffHeld(u, 1);
    FailDisposes(u, 1);
    var t := FinishFail(u, 1);
    ReleaseAllInv(t, [0]);
    var r := ReleaseAll(t, [0]);
    assert r.borrows == multiset{0};
    InvIsGood(r);
    GoodParts(r, multiset{});
    BorrowedIsAlive(r, 0);
  }

  /** The look-up that is excluded makes a difference. A router is closed while a transport is half
      made on it, a thread looks the router up, then the creator fails: the thread holds a router
      that, had the creation been refused, would have been gone before it was looked up. */
  lemma LookUpDiffers()
    ensures var s := RouterReady(); var u := WithTransport(); var w := WithoutTransport();
      var steps := [CloseById(0), BorrowRef(0)];
      && Inv(s) && DistinctUsers(s) && ParentsFound(s, Transport, [0]) && |s.nodes| == 1
      && Assumed(s, BeginCreate(Transport, [0], 2, 0)) && Disciplined(s, BeginCreate(Transport, [0], 2, 0))
      && RunOk(u, steps) && RunOk(w, steps)
      && UnderConstruction(Run(u, steps), 1) && Disciplined(Run(u, steps), CreatorFails(1))
      && !Indistinguishable(ReleaseAll(FinishFail(Run(u, steps), 1), [0]), Run(w, steps))
  {
    hide Inv, DistinctUsers, Close, Borrow, FinishFail, ReleaseAll, WithTransport, WithoutTransport, RouterReady, Run, RunOk, NoFailedBelow, MayClose;
    var u, w := WithTransport(), WithoutTransport();
    BothStart();
    RouterClosed(u);
    RouterClosed(w);
    NoFailedMayClose(u, 0);
    NoFailedMayClose(w, 0);
    TwoSteps(u, CloseById(0), BorrowRef(0));
    TwoSteps(w, CloseById(0), BorrowRef(0));
    GoneWithout();
    NotBorrowed(Close(w, 0), 0);
    StillThere();
    LivesApart(ReleaseAll(FinishFail(Run(u, [CloseById(0), BorrowRef(0)]), 1), [0]), Close(w, 0), 0);
  }

  lemma LivesApart(a: State, b: State, i: Id)
    requires Alive(a, i) && i < |b.nodes| && b.nodes[i].disposed
    ensures !Indistinguishable(a, b)
  {
    assert !SameLife(a, b, i);
  }

  lemma NotBorrowed(s: State, i: Id)
    requires i !in s.byId
    ensures Borrow(s, i) == s
  {
  }
}
