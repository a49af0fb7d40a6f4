/**
 A run in which a half-made resource decides whether a router may be closed. It keeps a closed
 transport in the list, which is then remembered as the next one; without it the next one is a
 transport that its creator gave up, and that goes away before its turn comes.
 */
module RctRouterRuns {
  import opened RctState
  import opened RctInvariant
  import opened RctClose
  import opened RctCascade
  import opened RctSteps
  import opened RctCreation
  import opened RctProtocol
  import opened RctRooms
  import opened RctRollback
  import opened RctRuns
  import opened RctSurvival
  import opened RctInTime
  import opened RctCloseById
  import opened RctClosedParents
  import opened RctNoTrace
  import opened RctNotice
  import opened RctBuilding

  // ---------------------------------------------------------------- the beginning

  /** A router, three transports, a producer on the newest and a consumer of it on the oldest. */
  function Pieces(p1: Phase, p2: Phase, p5: Phase): seq<Piece> {
    [Piece(Router, [], Live), Piece(Transport, [0], p1), Piece(Transport, [0], p2), Piece(Transport, [0], Building),
     Piece(Producer, [3], Building), Piece(Consumer, [4, 1], p5)]
  }

  function AllBegun(): State {
    Added(Added(Added(Added(Added(RouterReady(), Transport, [0]), Transport, [0]), Transport, [0]), Producer, [3]), Consumer, [4, 1])
  }

  lemma AllBegunIs()
    ensures Built(AllBegun(), Pieces(Building, Building, Building)) && AllBegun().borrows == multiset{0, 0, 0, 3, 4, 1}
  {
    hide RouterReady, Added, Built;
    var l1 := [Piece(Router, [], Live)];
    var l2 := l1 + [Piece(Transport, [0], Building)];
    var l3 := l2 + [Piece(Transport, [0], Building)];
    var l4 := l3 + [Piece(Transport, [0], Building)];
    var l5 := l4 + [Piece(Producer, [3], Building)];
    var s1 := RouterReady();
    var s2 := Added(s1, Transport, [0]);
    var s3 := Added(s2, Transport, [0]);
    var s4 := Added(s3, Transport, [0]);
    ReadyBuilt();
    BuildNext(s1, l1, Transport, [0]);
    BuildNext(s2, l2, Transport, [0]);
    BuildNext(s3, l3, Transport, [0]);
    BuildNext(s4, l4, Producer, [3]);
    BuildNext(Added(s4, Producer, [3]), l5, Consumer, [4, 1]);
    assert l5 + [Piece(Consumer, [4, 1], Building)] == Pieces(Building, Building, Building);
  }

  /** Consumer and second transport are made; the oldest transport is given up, and its creator has
      let go of it. */
  function Start(): State {
    Release(Finished(Finished(Finished(AllBegun(), 5, Live), 2, Live), 1, Failed), 1)
  }

  lemma StartIs()
    ensures Built(Start(), Pieces(Failed, Live, Live)) && Start().borrows == multiset{0, 0, 0, 3, 4}
  {
    hide Release, Finished, AllBegun, Built;
    var s := AllBegun();
    var t := Finished(s, 5, Live);
    var u := Finished(t, 2, Live);
    AllBegunIs();
    BuildFinished(s, Pieces(Building, Building, Building), 5, Live);
    assert Pieces(Building, Building, Building)[5 := Piece(Consumer, [4, 1], Live)] == Pieces(Building, Building, Live);
    BuildFinished(t, Pieces(Building, Building, Live), 2, Live);
    assert Pieces(Building, Building, Live)[2 := Piece(Transport, [0], Live)] == Pieces(Building, Live, Live);
    BuildFinished(u, Pieces(Building, Live, Live), 1, Failed);
    assert Pieces(Building, Live, Live)[1 := Piece(Transport, [0], Failed)] == Pieces(Failed, Live, Live);
    BuildReleased(Finished(u, 1, Failed), Pieces(Failed, Live, Live), 1);
    assert multiset{0, 0, 0, 3, 4, 1} - multiset{1} == multiset{0, 0, 0, 3, 4};
  }

  // ---------------------------------------------------------------- a producer half made on the second transport

  function WithProducer(): State {
    Begin(Start(), Producer, [2], 7, 0)
  }

  function WithoutProducer(): State {
    FailEarly(Start(), Producer, [2], 7, 0)
  }

  lemma StartReady()
    ensures var s := Start();
      && Inv(s) && DistinctUsers(s) && |s.nodes| == 6 && ParentsFound(s, Producer, [2])
      && Assumed(s, BeginCreate(Producer, [2], 7, 0)) && Disciplined(s, BeginCreate(Producer, [2], 7, 0))
  {
    hide Inv, DistinctUsers, Start, Built, ParentsFound;
    var s := Start();
    StartIs();
    BuiltSize(s, Pieces(Failed, Live, Live));
    BuiltDistinct(s, Pieces(Failed, Live, Live));
    BuiltReady(s, Pieces(Failed, Live, Live), Producer, [2]);
  }

  lemma BothStart()
    ensures var u := WithProducer(); var w := WithoutProducer();
      && Inv(u) && Inv(w) && Built(u, Pieces(Failed, Live, Live) + [Piece(Producer, [2], Building)])
      && u.borrows == multiset{0, 0, 0, 3, 4, 2} && w.borrows == multiset{0, 0, 0, 3, 4}
      && |w.nodes| == 7 && w.nodes[..6] == Start().nodes && w.nodes[6].disposed && w.nodes[6].up == [2] && w.nodes[6].kind == Producer
  {
    hide Inv, DistinctUsers, Begin, FailEarly, Start, Built, ParentsFound, Assumed, Disciplined;
    var s := Start();
    var l := Pieces(Failed, Live, Live);
    StartIs();
    StartReady();
    BuildNext(s, l, Producer, [2]);
    BuiltSize(Added(s, Producer, [2]), l + [Piece(Producer, [2], Building)]);
    InvIsGood(s);
    RefusedStep(s, Producer, [2], 7, 0);
    FailEarlyIsNothing(s, Producer, [2], 7, 0);
    assert multiset{0, 0, 0, 3, 4} + multiset([2]) == multiset{0, 0, 0, 3, 4, 2};
    assert WithoutProducer().nodes[..6] == s.nodes;
  }

  /** The pieces, whether or not the seventh is there. */
  ghost predicate SixOf(v: State) {
    && Inv(v) && |v.nodes| == 7 && v.nodes[6].kind == Producer && v.nodes[6].up == [2]
    && forall i :: 0 <= i < 6 ==> PieceAt(v.nodes[i], i, Pieces(Failed, Live, Live)[i])
  }

  lemma BothSix()
    ensures SixOf(WithProducer()) && SixOf(WithoutProducer())
    ensures WithProducer().nodes[6].phase == Building && WithProducer().nodes[6].owned == []
  {
    hide Inv, DistinctUsers, WithProducer, WithoutProducer, PieceAt, FailEarly, Start;
    BothStart();
    StartIs();
    var u := WithProducer();
    var l := Pieces(Failed, Live, Live) + [Piece(Producer, [2], Building)];
    forall i | 0 <= i < 6 ensures PieceAt(u.nodes[i], i, Pieces(Failed, Live, Live)[i]) { assert PieceAt(u.nodes[i], i, l[i]); }
    assert PieceAt(u.nodes[6], 6, l[6]);
    SeventhIs(u.nodes[6]);
    forall i | 0 <= i < 6 ensures PieceAt(WithoutProducer().nodes[i], i, Pieces(Failed, Live, Live)[i]) {
      assert WithoutProducer().nodes[i] == Start().nodes[i];
    }
  }

  lemma SeventhIs(n: Node)
    requires PieceAt(n, 6, Piece(Producer, [2], Building))
    ensures n.kind == Producer && n.up == [2] && n.phase == Building && n.owned == []
  {
  }

  // ---------------------------------------------------------------- the second transport is closed

  lemma SixBelow(v: State)
    requires SixOf(v)
    ensures Below(v.nodes, 2, 6) && Below(v.nodes, 3, 5)
    ensures !Below(v.nodes, 2, 0) && !Below(v.nodes, 2, 1) && !Below(v.nodes, 2, 3) && !Below(v.nodes, 2, 4) && !Below(v.nodes, 2, 5)
    ensures !Below(v.nodes, 3, 1) && !Below(v.nodes, 3, 2)
  {
    hide Inv;
    forall i | 0 <= i < 6 ensures v.nodes[i].up == Pieces(Failed, Live, Live)[i].up { assert PieceAt(v.nodes[i], i, Pieces(Failed, Live, Live)[i]); }
    assert v.nodes[1].up == [0] && v.nodes[2].up == [0] && v.nodes[3].up == [0] && v.nodes[4].up == [3] && v.nodes[5].up == [4, 1];
    assert !Below(v.nodes, 2, 0) && !Below(v.nodes, 3, 0);
    assert !Below(v.nodes, 2, 1) && !Below(v.nodes, 2, 3) && !Below(v.nodes, 3, 1) && !Below(v.nodes, 3, 2);
    assert !Below(v.nodes, 2, 4) && Below(v.nodes, 3, 4);
  }

  lemma MayCloseSecond(v: State)
    requires SixOf(v) && (v.nodes[6].disposed || v.nodes[6].phase == Building)
    ensures Alive(v, 2) && 2 in v.byId && NoFailedBelow(v, 2) && v.nodes[2].kind == Transport && MayClose(v, 2)
  {
    hide Inv, Below, MayClose;
    SixBelow(v);
    assert PieceAt(v.nodes[2], 2, Piece(Transport, [0], Live));
    OpenAlive(v, 2);
    NoFailedMayClose(v, 2);
  }

  /** What closing the second transport makes of `i`. */
  ghost predicate SecondDone(v: State, t: State, i: Id) {
    && i < |v.nodes| == |t.nodes|
    && t.nodes[i] == v.nodes[i].(refs := t.nodes[i].refs, disposed := t.nodes[i].disposed, closed := t.nodes[i].closed)
    && (v.nodes[i].disposed ==> t.nodes[i].disposed) && (t.nodes[i].closed ==> v.nodes[i].closed || Below(v.nodes, 2, i))
    && (Alive(t, i) && Below(v.nodes, 2, i) ==> t.nodes[i].closed)
  }

  lemma SecondClosed(v: State)
    requires SixOf(v) && (v.nodes[6].disposed || v.nodes[6].phase == Building)
    ensures var t := Close(v, 2); Inv(t) && t.borrows == v.borrows && forall i :: 0 <= i < 7 ==> SecondDone(v, t, i)
  {
    hide Inv, Below, Borrow, CloseLk, Release, ClosesDown, KeepsIntent, OnlyRefs, Close, PieceAt, SecondDone;
    MayCloseSecond(v);
    PlainOther(v, 2);
    PlainInv(v, 2);
    var u := Borrow(v, 2);
    var m := CloseLk(u, 2);
    InvIsGood(v);
    BorrowGood(v, multiset{}, 2);
    ReleaseIntent(m, 2);
    assert v.borrows + multiset{2} - multiset{2} == v.borrows;
    forall i | 0 <= i < 7 ensures SecondDone(v, Close(v, 2), i) { SecondFlag(v, u, m, Release(m, 2), i); }
  }

  lemma SecondFlag(v: State, u: State, m: State, t: State, i: Id)
    requires OnlyRefs(v, u) && ClosesDown(u, m, 2) && KeepsIntent(m, t) && i < |v.nodes|
    ensures SecondDone(v, t, i)
  {
    hide ClosesDown, Below;
    DownAt(u, m, 2, i);
    BelowSame(v.nodes, u.nodes, 2, i);
  }

  /** Six of the resources after the close: the second transport apart they are as they were. */
  ghost predicate AfterSecond(t: State) {
    && Inv(t) && |t.nodes| == 7 && t.nodes[6].kind == Producer && t.nodes[6].up == [2]
    && (forall i :: 0 <= i < 6 && i != 2 ==> PieceAt(t.nodes[i], i, Pieces(Failed, Live, Live)[i]))
    && t.nodes[2].kind == Transport && t.nodes[2].up == [0] && t.nodes[2].owned == [] && t.nodes[2].phase == Live
    && (Alive(t, 2) ==> t.nodes[2].closed)
  }

  lemma SecondLeft(v: State)
    requires SixOf(v) && (v.nodes[6].disposed || v.nodes[6].phase == Building)
    ensures var t := Close(v, 2);
      && AfterSecond(t) && t.borrows == v.borrows && (v.nodes[6].disposed ==> t.nodes[6].disposed)
      && t.nodes[6].phase == v.nodes[6].phase && t.nodes[6].owned == v.nodes[6].owned
  {
    hide Inv, Below, Close, PieceAt;
    var t := Close(v, 2);
    SecondClosed(v);
    SixBelow(v);
    assert SecondDone(v, t, 6) && SecondDone(v, t, 2);
    forall i | 0 <= i < 6 && i != 2 ensures PieceAt(t.nodes[i], i, Pieces(Failed, Live, Live)[i]) {
      assert SecondDone(v, t, i);
      StillPiece(v.nodes[i], t.nodes[i], i, Pieces(Failed, Live, Live)[i]);
    }
    SecondPiece(v.nodes[2]);
    BelowItself(v, 2);
  }

  lemma BelowItself(v: State, i: Id)
    ensures Below(v.nodes, i, i)
  {
  }

  lemma StillPiece(a: Node, b: Node, i: Id, q: Piece)
    requires PieceAt(a, i, q) && b == a.(refs := b.refs, disposed := b.disposed, closed := b.closed) && (b.closed ==> a.closed)
    ensures PieceAt(b, i, q)
  {
  }

  lemma SecondPiece(n: Node)
    requires PieceAt(n, 2, Piece(Transport, [0], Live))
    ensures n.kind == Transport && n.up == [0] && n.owned == [] && n.phase == Live
  {
  }

  // ---------------------------------------------------------------- the router is closed

  lemma AfterPiece(t: State, i: Id)
    requires AfterSecond(t) && i < 6 && i != 2
    ensures PieceAt(t.nodes[i], i, Pieces(Failed, Live, Live)[i]) && (i != 1 ==> Alive(t, i) && i in t.byId)
  {
    hide Inv;
    if i != 1 { OpenAlive(t, i); }
  }

  lemma AfterBelow(t: State)
    requires AfterSecond(t)
    ensures Below(t.nodes, 3, 5) && !Below(t.nodes, 2, 1) && !Below(t.nodes, 3, 1)
  {
    hide Inv;
    AfterPiece(t, 1);
    AfterPiece(t, 3);
    AfterPiece(t, 4);
    AfterPiece(t, 5);
    assert t.nodes[1].up == [0] && t.nodes[3].up == [0] && t.nodes[4].up == [3] && t.nodes[5].up == [4, 1];
    assert !Below(t.nodes, 2, 0) && !Below(t.nodes, 3, 0) && Below(t.nodes, 3, 4);
  }

  /** The oldest transport is held by the consumer. */
  lemma OldestGivenUp(t: State)
    requires AfterSecond(t)
    ensures GivenUp(t, 1) && forall x :: GivenUp(t, x) && x != 6 ==> x == 1
  {
    hide GoodBut, Settled, Slots;
    AfterPiece(t, 5);
    AfterPiece(t, 1);
    InvIsGood(t);
    GoodParts(t, multiset{});
    HeldIsAlive(t, multiset{}, 5, 1);
    forall x | GivenUp(t, x) && x != 6 ensures x == 1 {
      if x != 2 { AfterPiece(t, x); }
    }
  }

  lemma ThirdTurn(t: State)
    requires AfterSecond(t)
    ensures Turn(t, 0, 3)
  {
    hide Inv, WithRoom;
    AfterPiece(t, 3);
  }

  /** Where the second transport is gone the next one after the newest is the oldest, and its
      consumer still holds it when the newest takes its turn. */
  lemma NotInTime(t: State)
    requires AfterSecond(t) && t.nodes[2].disposed && t.nodes[6].disposed
    ensures !InTime(t, 0)
  {
    hide Inv, WithRoom, Lasts, Below;
    AfterPiece(t, 1);
    OldestGivenUp(t);
    ThirdTurn(t);
    assert TurnBefore(t, 0, 1, 3);
    ConsumerThere(t);
    assert !ClearOf(t, 0, 1);
  }

  lemma ConsumerThere(t: State)
    requires AfterSecond(t) && t.nodes[2].disposed && t.nodes[6].disposed
    ensures Lasts(t, Done(t, 0, 4), 1)
  {
    hide Inv, Below, WithRoom;
    AfterPiece(t, 1);
    AfterPiece(t, 5);
    OldestGivenUp(t);
    ConsumerOpen(t);
    assert t.nodes[5].Holds(1) >= 1;
  }

  lemma ConsumerOpen(t: State)
    requires AfterSecond(t) && t.nodes[2].disposed && t.nodes[6].disposed
    ensures 5 !in Done(t, 0, 4)
  {
    hide Inv, Below, Lasts;
    forall z | 0 <= z < |t.nodes| ensures !BelowRoomOf(t, 0, z, 5) && !BelowTurn(t, 0, 4, z, 5) {
      if z < 6 && z != 2 { AfterPiece(t, z); }
    }
  }

  /** Where it is there, it takes a turn of its own, and by then the consumer is gone. */
  lemma OldestInTime(t: State)
    requires AfterSecond(t) && 2 in t.borrows && t.borrows == multiset{0, 0, 0, 3, 4, 2}
    requires t.nodes[6].phase == Building && t.nodes[6].owned == []
    ensures InTime(t, 0)
  {
    hide Inv, WithRoom, Lasts, Below, Done;
    OldestGivenUp(t);
    AfterPiece(t, 1);
    AfterBelow(t);
    SecondTurn(t);
    ThirdTurn(t);
    ConsumerWent(t);
    forall y | GivenUp(t, y) ensures y == 1 { assert y != 6; }
    forall x | 0 <= x < |t.nodes| ensures ClearTurn(t, 0, x) && ClearOf(t, 0, x) {
      if x < 6 && x != 2 { AfterPiece(t, x); }
      if x == 1 {
        forall p: nat | TurnBefore(t, 0, 1, p) ensures p == 2 {}
      }
    }
  }

  lemma SecondTurn(t: State)
    requires AfterSecond(t) && 2 in t.borrows
    ensures Turn(t, 0, 2)
  {
    hide GoodBut, Settled, Slots, WithRoom;
    InvIsGood(t);
    GoodParts(t, multiset{});
    BorrowedIsAlive(t, 2);
  }

  lemma ConsumerWent(t: State)
    requires AfterSecond(t) && t.borrows == multiset{0, 0, 0, 3, 4, 2} && t.nodes[6].phase == Building && t.nodes[6].owned == []
    ensures !Lasts(t, Done(t, 0, 3), 1)
  {
    hide Inv, WithRoom, Below;
    AfterPiece(t, 1);
    AfterPiece(t, 5);
    ConsumerDone(t);
    forall h | 0 <= h < 7 ensures t.nodes[h].Holds(5) == 0 && (h != 5 ==> t.nodes[h].Holds(1) == 0) {
      if h < 6 && h != 2 { AfterPiece(t, h); }
    }
    assert !Lasts(t, Done(t, 0, 3), 5);
  }

  lemma ConsumerDone(t: State)
    requires AfterSecond(t)
    ensures 5 in Done(t, 0, 3)
  {
    hide Inv, WithRoom, Lasts, Below, Turn;
    ThirdTurn(t);
    AfterBelow(t);
    assert BelowTurn(t, 0, 3, 3, 5);
  }

  lemma SecondGone(t: State)
    requires AfterSecond(t) && t.nodes[6].disposed && t.borrows == multiset{0, 0, 0, 3, 4}
    ensures t.nodes[2].disposed
  {
    hide GoodBut, Settled, Slots, In;
    InvIsGood(t);
    forall h | 0 <= h < 7 ensures t.nodes[h].Holds(2) == 0 {
      if h < 6 && h != 2 { AfterPiece(t, h); }
    }
    InNone(t.nodes, 2);
    AliveIffHeld(t, 2);
  }

  // ---------------------------------------------------------------- together

  lemma WithIt()
    ensures var u := Close(WithProducer(), 2); AfterSecond(u) && InTime(u, 0) && MayClose(u, 0)
  {
    hide Inv, Close, WithProducer, SixOf, AfterSecond, InTime, Built;
    BothStart();
    BothSix();
    SecondLeft(WithProducer());
    OldestInTime(Close(WithProducer(), 2));
    RouterLive(Close(WithProducer(), 2));
  }

  lemma RouterLive(t: State)
    requires AfterSecond(t)
    ensures Found(t, 0, Router) && !GivenUp(t, 0)
  {
    hide Inv;
    AfterPiece(t, 0);
  }

  lemma WithoutIt()
    ensures var w := Close(WithoutProducer(), 2); AfterSecond(w) && !MayClose(w, 0)
  {
    hide Inv, Close, WithoutProducer, SixOf, AfterSecond, InTime, Built;
    var w := Close(WithoutProducer(), 2);
    BothStart();
    BothSix();
    SecondLeft(WithoutProducer());
    SecondGone(w);
    NotInTime(w);
    RouterLive(w);
  }

  /** A close of a router above something given up can be in order in a world with a half-made
      resource and not in the one without it. */
  lemma RouterCloseDiffers()
    ensures var s := Start(); var u := WithProducer(); var w := WithoutProducer();
      var steps := [CloseById(2), CloseById(0)];
      && Inv(s) && DistinctUsers(s) && |s.nodes| == 6 && ParentsFound(s, Producer, [2])
      && Assumed(s, BeginCreate(Producer, [2], 7, 0)) && Disciplined(s, BeginCreate(Producer, [2], 7, 0))
      && RunOk(u, steps) && RunUnaware(u, 6, steps)
      && !Disciplined(Apply(w, CloseById(2)), CloseById(0)) && !Inv(Run(w, steps))
  {
    hide Inv, DistinctUsers, Close, WithProducer, WithoutProducer, Start, SixOf, AfterSecond, MayClose, Built, ParentsFound, RunOk;
    var u, w := WithProducer(), WithoutProducer();
    StartReady();
    BothStart();
    BothSix();
    SixSecond(u);
    SixSecond(w);
    WithIt();
    WithoutIt();
    AfterRouter(Close(u, 2));
    AfterRouter(Close(w, 2));
    TwoSteps(u, CloseById(2), CloseById(0));
    TwoSteps(w, CloseById(2), CloseById(0));
    CloseByIdBreaks(Close(w, 2), 0);
    TwoUnaware(u);
  }

  lemma SixSecond(v: State)
    requires SixOf(v) && (v.nodes[6].disposed || v.nodes[6].phase == Building)
    ensures MayClose(v, 2) && |v.nodes| == 7 && v.nodes[2].kind != Room
  {
    hide Inv, MayClose;
    MayCloseSecond(v);
  }

  lemma AfterRouter(t: State)
    requires AfterSecond(t)
    ensures Inv(t) && |t.nodes| == 7 && t.nodes[0].kind == Router && 0 in t.byId
  {
    hide Inv;
    AfterPiece(t, 0);
  }

  lemma TwoUnaware(u: State)
    requires |u.nodes| == 7 && |Close(u, 2).nodes| == 7
    ensures RunUnaware(u, 6, [CloseById(2), CloseById(0)])
  {
    hide Close;
    var l := [CloseById(2), CloseById(0)];
    assert l[..0] == [] && l[..1] == [CloseById(2)] && [CloseById(2)][..0] == [];
    assert Run(u, []) == u && Run(u, [CloseById(2)]) == Close(u, 2);
  }
}
