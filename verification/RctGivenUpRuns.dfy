/**
 Runs in which a creator gives a resource up that somebody else still holds, and what closing it
 then does.
 */
module RctGivenUpRuns {
  import opened RctState
  import opened RctRefs
  import opened RctInvariant
  import opened RctRelease
  import opened RctClose
  import opened RctCascade
  import opened RctSteps
  import opened RctCreation
  import opened RctProtocol
  import opened RctRollback
  import opened RctSurvival
  import opened RctTheorems
  import opened RctGivenUp
  import opened RctInTime
  import opened RctCloseById
  import opened RctClosedParents
  import opened RctBuilding

  // ---------------------------------------------------------------- a run

  /** A transport that a thread holds when its creator gives it up. */
  function HeldTransport(): State {
    Borrow(TransportBegun(), 1)
  }

  function GivenUpTransport(): State {
    if UnderConstruction(HeldTransport(), 1) then FinishFail(HeldTransport(), 1) else HeldTransport()
  }

  lemma HeldTransportIs()
    ensures var s := HeldTransport();
      && Inv(s) && UnderConstruction(s, 1) && !s.nodes[1].closed && s.nodes[1].kind == Transport && 1 in s.borrows
  {
    hide Inv, Borrow, TransportBegun, OnlyRefs;
    var s := TransportBegun();
    TransportBegunIs();
    FoundIfAlive(s, 1);
    InvIsGood(s);
    BorrowInv(s, 1);
    BorrowGood(s, multiset{}, 1);
    OnlyRefsNode(s, HeldTransport(), 1);
    BuildingOpen(1);
  }

  lemma BuildingOpen(i: Id)
    requires i == 1
    ensures |TransportBegun().nodes| == 2 && !TransportBegun().nodes[1].closed
  {
    hide Inv, Begin, RouterBegun;
    var s := RouterBegun();
    RouterBegunIs();
    FoundIfAlive(s, 0);
    InvIsGood(s);
    BeginFrame(s, Transport, [0], 2, 0);
  }

  /** The thread still holds the given-up transport when somebody closes it: one reference too
      many is given back. */
  lemma LateClose()
    ensures var s := GivenUpTransport();
      && Inv(s) && GivenUp(s, 1) && !s.nodes[1].closed && 1 in s.borrows && !Inv(Close(s, 1))
  {
    hide Inv, FinishFail, HeldTransport, Close, Remains;
    var s := HeldTransport();
    var t := GivenUpTransport();
    HeldTransportIs();
    FinishFailInv(s, 1);
    GivenUpStays(s, 1);
    InvIsGood(t);
    GivenUpIsOpen(t, 1);
    FoundIfAlive(t, 1);
    GivenUpKind(t, 1);
    ThreadKeeps(t, 1);
    CloseByIdExactly(t, 1);
  }

  lemma ThreadKeeps(s: State, x: Id)
    requires Alive(s, x) && x in s.borrows
    ensures Remains(s, x, x)
  {
  }

  lemma GivenUpStays(s: State, c: Id)
    requires Inv(s) && UnderConstruction(s, c) && !s.nodes[c].closed && c in s.borrows
    ensures GivenUp(FinishFail(s, c), c) && c in FinishFail(s, c).borrows
  {
    hide GoodBut, Settled, Slots, RefLk, Shape, Links;
    var u := SetPhase(s, c, Failed);
    InvIsGood(s);
    GoodParts(s, multiset{});
    FinishDisposes(s, c);
    SetPhaseFrame(s, c, Failed);
    RefLkFrame(u, c, -INIT_REFS);
    assert FrameAt(u, RefLk(u, c, -INIT_REFS), c);
  }

  // ---------------------------------------------------------------- a producer that only its consumer holds

  /** A router, two transports, a producer on the older one and a consumer of it on the newer one. */
  function Consuming(): State {
    Added(Added(Added(Added(RouterReady(), Transport, [0]), Transport, [0]), Producer, [1]), Consumer, [3, 2])
  }

  /** Its pieces when the creator of the producer is at `p`, that of the consumer at `q`. */
  function Pieces(p: Phase, q: Phase): seq<Piece> {
    [Piece(Router, [], Live), Piece(Transport, [0], Building), Piece(Transport, [0], Building), Piece(Producer, [1], p),
     Piece(Consumer, [3, 2], q)]
  }

  lemma ConsumingIs()
    ensures Built(Consuming(), Pieces(Building, Building)) && Consuming().borrows == multiset{0, 0, 1, 2, 3}
  {
    hide RouterReady, Added, Built;
    var l1 := [Piece(Router, [], Live)];
    var l2 := l1 + [Piece(Transport, [0], Building)];
    var l3 := l2 + [Piece(Transport, [0], Building)];
    var l4 := l3 + [Piece(Producer, [1], Building)];
    var s1 := RouterReady();
    var s2 := Added(s1, Transport, [0]);
    var s3 := Added(s2, Transport, [0]);
    ReadyBuilt();
    BuildNext(s1, l1, Transport, [0]);
    BuildNext(s2, l2, Transport, [0]);
    BuildNext(s3, l3, Producer, [1]);
    BuildNext(Added(s3, Producer, [1]), l4, Consumer, [3, 2]);
    assert l4 + [Piece(Consumer, [3, 2], Building)] == Pieces(Building, Building);
  }

  /** The consumer's creator succeeds, the producer's creator fails and lets go of it. */
  function GivenUpProducer(): State {
    Release(Finished(Finished(Consuming(), 4, Live), 3, Failed), 3)
  }

  lemma GivenUpProducerIs()
    ensures var s := GivenUpProducer(); Built(s, Pieces(Failed, Live)) && s.borrows == multiset{0, 0, 1, 2} && GivenUp(s, 3)
  {
    hide Release, Finished, Consuming, Built;
    var s := Consuming();
    var t := Finished(s, 4, Live);
    var v := Finished(t, 3, Failed);
    ConsumingIs();
    BuildFinished(s, Pieces(Building, Building), 4, Live);
    assert Pieces(Building, Building)[4 := Piece(Consumer, [3, 2], Live)] == Pieces(Building, Live);
    BuildFinished(t, Pieces(Building, Live), 3, Failed);
    assert Pieces(Building, Live)[3 := Piece(Producer, [1], Failed)] == Pieces(Failed, Live);
    BuildReleased(v, Pieces(Failed, Live), 3);
    assert multiset{0, 0, 1, 2, 3} - multiset{3} == multiset{0, 0, 1, 2};
    HeldByConsumer(Release(v, 3));
  }

  lemma HeldByConsumer(s: State)
    requires Built(s, Pieces(Failed, Live))
    ensures GivenUp(s, 3)
  {
    hide Good, Settled, Slots, Built;
    BuiltParts(s, Pieces(Failed, Live), 3);
    BuiltParts(s, Pieces(Failed, Live), 4);
    InvIsGood(s);
    GoodParts(s, multiset{});
    HeldIsAlive(s, multiset{}, 4, 3);
  }

  lemma WhoHolds(s: State, h: Id)
    requires Built(s, Pieces(Failed, Live)) && h < 5
    ensures h < |s.nodes| && s.nodes[h].Holds(4) == 0 && (h != 4 ==> s.nodes[h].Holds(3) == 0)
  {
    hide Built;
    BuiltParts(s, Pieces(Failed, Live), h);
  }

  lemma ConsumerGoes(s: State, C: set<Id>)
    requires Built(s, Pieces(Failed, Live)) && s.borrows == multiset{0, 0, 1, 2} && 4 in C
    ensures !Lasts(s, C, 4)
  {
    hide Built;
    BuiltParts(s, Pieces(Failed, Live), 4);
    forall h | 0 <= h < 5 ensures s.nodes[h].Holds(4) == 0 { WhoHolds(s, h); }
  }

  lemma ProducerGoes(s: State, C: set<Id>)
    requires Built(s, Pieces(Failed, Live)) && s.borrows == multiset{0, 0, 1, 2} && 4 in C
    ensures !Lasts(s, C, 3)
  {
    hide Built;
    BuiltParts(s, Pieces(Failed, Live), 3);
    ConsumerGoes(s, C);
    forall h | 0 <= h < 5 && s.nodes[h].Holds(3) >= 1 ensures !Lasts(s, C, h) { WhoHolds(s, h); }
  }

  lemma ProducerUnheld()
    ensures forall C: set<Id> :: 4 in C ==> !Lasts(GivenUpProducer(), C, 3)
  {
    hide GivenUpProducer, Built, Lasts;
    GivenUpProducerIs();
    forall C: set<Id> | 4 in C ensures !Lasts(GivenUpProducer(), C, 3) { ProducerGoes(GivenUpProducer(), C); }
  }

  lemma BuiltBelow()
    ensures var s := GivenUpProducer();
      && |s.nodes| == 5 && Below(s.nodes, 3, 4) && Below(s.nodes, 2, 4) && Below(s.nodes, 0, 3) && !Below(s.nodes, 2, 3)
      && forall x :: GivenUp(s, x) ==> x == 3
  {
    hide GivenUpProducer, Built;
    var s := GivenUpProducer();
    GivenUpProducerIs();
    forall i | 0 <= i < 5 ensures |s.nodes| == 5 && s.nodes[i].up == Pieces(Failed, Live)[i].up && s.nodes[i].phase == Pieces(Failed, Live)[i].phase {
      BuiltParts(s, Pieces(Failed, Live), i);
    }
    assert s.nodes[4].up == [3, 2] && s.nodes[3].up == [1] && s.nodes[2].up == [0] && s.nodes[1].up == [0];
    assert Below(s.nodes, 0, 0) && Below(s.nodes, 0, 1);
    assert !Below(s.nodes, 2, 1) by { assert !Below(s.nodes, 2, 0); }
  }

  /** A producer that its creator gave up and that only its consumer holds may be closed by its id:
      the consumer goes first, and the close gives back what the look-up took. */
  lemma PaidProducer()
    ensures var s := GivenUpProducer();
      Inv(s) && GivenUp(s, 3) && s.nodes[3].kind == Producer && Inv(Close(s, 3))
  {
    hide Inv, GivenUpProducer, Close, Below, Lasts, Built;
    var s := GivenUpProducer();
    GivenUpProducerIs();
    BuiltBelow();
    ProducerUnheld();
    BuiltParts(s, Pieces(Failed, Live), 3);
    GivenUpKind(s, 3);
    assert !Remains(s, 3, 3);
    CloseByIdExactly(s, 3);
  }

  /** Nor does the producer get into the way of closing the router: its consumer goes away with the
      newer transport, and the producer is gone when the older one takes its turn. */
  lemma PassedProducer()
    ensures var s := GivenUpProducer();
      Inv(s) && GivenUp(s, 3) && Below(s.nodes, 0, 3) && s.nodes[0].kind == Router && Sound(CloseLk(s, 0)) && Inv(Close(s, 0))
  {
    hide Inv, GivenUpProducer, Close, Below, Lasts, CloseLk, Sound, Remains, Built;
    var s := GivenUpProducer();
    GivenUpProducerIs();
    BuiltBelow();
    BuiltParts(s, Pieces(Failed, Live), 0);
    ProducerInTime();
    CloseExactly(s, 0);
    CloseByIdExactly(s, 0);
  }

  lemma ProducerInTime()
    ensures InTime(GivenUpProducer(), 0)
  {
    hide Inv, GivenUpProducer, Below, Lasts, WithRoom, Built;
    var s := GivenUpProducer();
    GivenUpProducerIs();
    BuiltBelow();
    ProducerUnheld();
    NewerTurn();
    BuiltParts(s, Pieces(Failed, Live), 3);
    forall x | 0 <= x < |s.nodes| ensures ClearTurn(s, 0, x) && ClearOf(s, 0, x) {
      if Turn(s, 0, x) {
        BuiltParts(s, Pieces(Failed, Live), x);
        if x == 1 {
          assert BelowTurn(s, 0, 2, 2, 4);
          assert 4 in Done(s, 0, 2);
        }
      }
    }
  }

  lemma NewerTurn()
    ensures Turn(GivenUpProducer(), 0, 2)
  {
    hide Inv, GivenUpProducer, WithRoom, Built;
    GivenUpProducerIs();
    BuiltParts(GivenUpProducer(), Pieces(Failed, Live), 2);
  }
}
