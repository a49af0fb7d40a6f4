/**
 Closing resources that their creators have given up. Such a resource has no reference of its
 own left, so a close that reaches it takes one reference too many. Followed through the whole
 cascade, whatever else happens: from then on the counter stays one short of its holders, until
 the resource goes away while somebody still holds it.
 */
module RctGivenUp {
  import opened RctState
  import opened RctRefs
  import opened RctInvariant
  import opened RctRelease
  import opened RctClose
  import opened RctCascade
  import opened RctCreation
  import opened RctProtocol
  import opened RctRollback
  import opened RctHistory
  import opened RctSurvival

  // ---------------------------------------------------------------- a debt

  /** `x` was given up, and `p` releases of it are still to come. Before it is closed its counter
      is what its holders are entitled to; afterwards it is one less, and if `x` is gone then
      somebody holds it all the same. */
  ghost predicate Fate(s: State, x: Id, p: nat) {
    && x < |s.nodes| && s.nodes[x].phase == Failed
    && (s.fault || Debt(s, x, p))
  }

  ghost predicate Debt(s: State, x: Id, p: nat)
    requires x < |s.nodes|
  {
    var n := s.nodes[x];
    if n.disposed then n.closed ==> OthersOn(s, x) + p >= 1
    else n.refs >= 1 && n.refs == OthersOn(s, x) + p - (if n.closed then 1 else 0)
  }

  /** What every part of a cascade leaves alone. */
  ghost predicate Tracks(s: State, t: State) {
    && Shape(t) && |t.nodes| == |s.nodes| && t.borrows == s.borrows && (s.fault ==> t.fault)
  }

  lemma TracksTrans(s: State, t: State, u: State)
    requires Tracks(s, t) && Tracks(t, u)
    ensures Tracks(s, u)
  {
  }

  function Own(y: Id, x: Id): nat {
    if y == x then 1 else 0
  }

  // ---------------------------------------------------------------- releases

  lemma OneLess(s: State, y: Id, x: Id, p: nat)
    requires Shape(s) && y < |s.nodes| && !s.nodes[y].disposed && s.nodes[y].refs >= 2 && Fate(s, x, p + Own(y, x))
    ensures Fate(AddRefs(s, y, -1), x, p) && Tracks(s, AddRefs(s, y, -1))
  {
    var t := AddRefs(s, y, -1);
    forall i | 0 <= i < |t.nodes| ensures ShapeAt(t.nodes, i) { assert ShapeAt(s.nodes, i); }
    InUpdate(s.nodes, y, t.nodes[y], x);
  }

  /** A disposed resource hands its claims on `x` to the releases that follow. */
  lemma Detached(s: State, y: Id, x: Id, p: nat)
    requires Shape(s) && y < |s.nodes| && !s.nodes[y].disposed && s.nodes[y].refs < 2 && Fate(s, x, p + Own(y, x))
    ensures var t := Detach(AddRefs(s, y, -1), y);
      Fate(t, x, p + multiset(s.nodes[y].Releases())[x]) && Tracks(s, t)
  {
    hide Detach, Debt, Shape;
    var t := Detach(AddRefs(s, y, -1), y);
    DetachTracks(s, y);
    DetachDebt(s, y, x, p);
  }

  lemma DetachTracks(s: State, y: Id)
    requires Shape(s) && y < |s.nodes| && !s.nodes[y].disposed
    ensures var t := Detach(AddRefs(s, y, -1), y);
      && Tracks(s, t) && t.fault == s.fault
      && t.nodes == s.nodes[y := s.nodes[y].(refs := s.nodes[y].refs - 1, disposed := true)]
  {
    hide Unlink;
    var t := Detach(AddRefs(s, y, -1), y);
    assert t.nodes == s.nodes[y := s.nodes[y].(refs := s.nodes[y].refs - 1, disposed := true)];
    forall i | 0 <= i < |t.nodes| ensures ShapeAt(t.nodes, i) { assert ShapeAt(s.nodes, i); }
  }

  lemma DetachDebt(s: State, y: Id, x: Id, p: nat)
    requires y < |s.nodes| && !s.nodes[y].disposed && s.nodes[y].refs < 2 && Fate(s, x, p + Own(y, x))
    requires var t := Detach(AddRefs(s, y, -1), y);
      && t.fault == s.fault && t.borrows == s.borrows
      && t.nodes == s.nodes[y := s.nodes[y].(refs := s.nodes[y].refs - 1, disposed := true)]
    ensures Fate(Detach(AddRefs(s, y, -1), y), x, p + multiset(s.nodes[y].Releases())[x])
  {
    hide Detach, In;
    var t := Detach(AddRefs(s, y, -1), y);
    InUpdate(s.nodes, y, t.nodes[y], x);
    ReleasesCount(s.nodes[y], x);
  }

  lemma ReleasesCount(n: Node, x: Id)
    requires !n.disposed
    ensures multiset(n.Releases())[x] == n.Holds(x)
  {
  }

  lemma {:induction false} ReleaseFate(s: State, y: Id, x: Id, p: nat)
    requires Shape(s) && Fate(s, x, p + Own(y, x))
    ensures Fate(RefLk(s, y, -1), x, p) && Tracks(s, RefLk(s, y, -1))
    decreases AliveSet(s.nodes), 1
  {
    hide Debt;
    if y >= |s.nodes| || s.nodes[y].disposed {
      FaultShape(s);
    } else if s.nodes[y].refs >= 2 {
      OneLess(s, y, x, p);
    } else {
      RefLkUnfold(s, y, -1);
      DisposeFate(s, y, x, p);
    }
  }

  lemma FaultShape(s: State)
    requires Shape(s)
    ensures Shape(s.(fault := true))
  {
    forall i | 0 <= i < |s.nodes| ensures ShapeAt(s.(fault := true).nodes, i) { assert ShapeAt(s.nodes, i); }
  }

  lemma {:induction false} DisposeFate(s: State, y: Id, x: Id, p: nat)
    requires Shape(s) && y < |s.nodes| && !s.nodes[y].disposed && s.nodes[y].refs < 2 && Fate(s, x, p + Own(y, x))
    ensures var t := Unregister(RefAllLk(Detach(AddRefs(s, y, -1), y), s.nodes[y].Releases()), y);
      Fate(t, x, p) && Tracks(s, t)
    decreases AliveSet(s.nodes), 0
  {
    hide Debt, RefAllLk, Detach, Unregister, Fate, Tracks;
    var s2 := Detach(AddRefs(s, y, -1), y);
    var ids := s.nodes[y].Releases();
    var s3 := RefAllLk(s2, ids);
    DetachFrame(s, y, -1);
    Detached(s, y, x, p);
    assert y in AliveSet(s.nodes);
    TracksShape(s, s2);
    ReleaseAllFate(s2, ids, x, p);
    TracksShape(s2, s3);
    UnregisterFate(s3, y, x, p);
    TracksTrans(s, s2, s3);
    TracksTrans(s, s3, Unregister(s3, y));
  }

  lemma TracksShape(s: State, t: State)
    requires Tracks(s, t)
    ensures Shape(t) && |t.nodes| == |s.nodes|
  {
  }

  lemma UnregisterFate(s: State, y: Id, x: Id, p: nat)
    requires Shape(s) && y < |s.nodes| && Fate(s, x, p)
    ensures Fate(Unregister(s, y), x, p) && Tracks(s, Unregister(s, y))
  {
    UnregisterFrame(s, y);
    var t := Unregister(s, y);
    assert t.nodes == s.nodes && t.lists == s.lists && t.borrows == s.borrows && t.fault == s.fault;
    forall i | 0 <= i < |t.nodes| ensures ShapeAt(t.nodes, i) { assert ShapeAt(s.nodes, i); }
  }

  lemma {:induction false} ReleaseAllFate(s: State, ids: seq<Id>, x: Id, p: nat)
    requires Shape(s) && Fate(s, x, p + multiset(ids)[x])
    ensures Fate(RefAllLk(s, ids), x, p) && Tracks(s, RefAllLk(s, ids))
    decreases AliveSet(s.nodes), |ids| + 1
  {
    hide Debt, RefLk, Fate, Tracks;
    if ids == [] {
      Itself(s);
    } else {
      assert ids == [ids[0]] + ids[1..];
      var t := RefLk(s, ids[0], -1);
      ReleaseFate(s, ids[0], x, p + multiset(ids[1..])[x]);
      TracksShape(s, t);
      ReleaseAllFate(t, ids[1..], x, p);
      TracksTrans(s, t, RefAllLk(s, ids));
    }
  }

  lemma Itself(s: State)
    requires Shape(s)
    ensures Tracks(s, s)
  {
  }

  // ---------------------------------------------------------------- closes

  lemma MarkTracks(s: State, b: Id)
    requires Shape(s) && b < |s.nodes|
    ensures Tracks(s, MarkClosed(s, b)) && b in OpenSet(s.nodes) + {b}
    ensures OpenSet(MarkClosed(s, b).nodes) == OpenSet(s.nodes) - {b}
  {
    var t := MarkClosed(s, b);
    forall i | 0 <= i < |t.nodes| ensures ShapeAt(t.nodes, i) { assert ShapeAt(s.nodes, i); }
  }

  /** Marking `x` itself makes the debt: the main reference that it does not have is now due. */
  lemma MarkFate(s: State, b: Id, x: Id, p: nat)
    requires Shape(s) && b < |s.nodes| && !s.nodes[b].disposed && !s.nodes[b].closed && Fate(s, x, p)
    ensures Fate(MarkClosed(s, b), x, p + Own(b, x))
  {
    var t := MarkClosed(s, b);
    InUpdate(s.nodes, b, t.nodes[b], x);
  }

  lemma {:induction false} CloseFate(s: State, b: Id, x: Id, p: nat)
    requires Shape(s) && Fate(s, x, p)
    ensures Fate(CloseLk(s, b), x, p) && Tracks(s, CloseLk(s, b))
    decreases OpenSet(s.nodes), 0, 0
  {
    hide RefLk, CloseBody, Debt, Tracks;
    Itself(s);
    if b >= |s.nodes| || s.nodes[b].disposed {
      FaultTracks(s);
    } else if !s.nodes[b].closed {
      var s1 := MarkClosed(s, b);
      var s2 := CloseBody(s1, b);
      MarkTracks(s, b);
      MarkFate(s, b, x, p);
      TracksShape(s, s1);
      assert b in OpenSet(s.nodes);
      BodyFate(s1, b, x, p + Own(b, x));
      TracksShape(s1, s2);
      ReleaseFate(s2, b, x, p);
      TracksTrans(s, s1, s2);
      TracksTrans(s, s2, CloseLk(s, b));
    }
  }

  lemma FaultTracks(s: State)
    requires Shape(s)
    ensures Tracks(s, s.(fault := true))
  {
    FaultShape(s);
  }

  lemma {:induction false} BodyFate(s: State, b: Id, x: Id, p: nat)
    requires Shape(s) && b < |s.nodes| && Fate(s, x, p)
    ensures Fate(CloseBody(s, b), x, p) && Tracks(s, CloseBody(s, b))
    decreases OpenSet(s.nodes), 2, 0
  {
    hide WalkLk, CloseRoomSlot, Fate, Tracks, Unlink, Shape;
    Itself(s);
    match s.nodes[b].kind {
      case Router =>
        var s1 := CloseRoomSlot(s, b);
        var s2 := WalkLk(s1, b, Transport, First(ListOf(s1, b, Transport)));
        SlotFate(s, b, x, p);
        TracksShape(s, s1);
        WalkFate(s1, b, Transport, First(ListOf(s1, b, Transport)), x, p);
        TracksShape(s1, s2);
        WalkFate(s2, b, Observer, First(ListOf(s2, b, Observer)), x, p);
        TracksTrans(s, s1, s2);
        TracksTrans(s, s2, CloseBody(s, b));
      case Transport =>
        var s1 := WalkLk(s, b, Producer, First(ListOf(s, b, Producer)));
        WalkFate(s, b, Producer, First(ListOf(s, b, Producer)), x, p);
        TracksShape(s, s1);
        WalkFate(s1, b, Consumer, First(ListOf(s1, b, Consumer)), x, p);
        TracksTrans(s, s1, CloseBody(s, b));
      case Producer => WalkFate(s, b, Consumer, First(ListOf(s, b, Consumer)), x, p);
      case Room => WalkFate(s, b, Member, First(ListOf(s, b, Member)), x, p);
      case Member => ListsFate(s, CloseBody(s, b), x, p);
      case _ =>
    }
  }

  lemma ListsFate(s: State, t: State, x: Id, p: nat)
    requires Shape(s) && Fate(s, x, p) && t == s.(lists := t.lists) && |t.lists| == |s.lists|
    ensures Fate(t, x, p) && Tracks(s, t)
  {
    forall i | 0 <= i < |t.nodes| ensures ShapeAt(t.nodes, i) { assert ShapeAt(s.nodes, i); }
  }

  lemma {:induction false} SlotFate(s: State, b: Id, x: Id, p: nat)
    requires Shape(s) && Fate(s, x, p)
    ensures Fate(CloseRoomSlot(s, b), x, p) && Tracks(s, CloseRoomSlot(s, b))
    decreases OpenSet(s.nodes), 1, 0
  {
    hide Fate, Tracks, CloseLk, Shape;
    Itself(s);
    var slot := ListOf(s, b, Room);
    if slot != [] {
      var s1 := CloseLk(s, slot[0]);
      CloseFate(s, slot[0], x, p);
      TracksShape(s, s1);
      ListsFate(s1, PutList(s1, b, Room, []), x, p);
      TracksTrans(s, s1, CloseRoomSlot(s, b));
    }
  }

  lemma {:induction false} WalkFate(s: State, t: Id, k: Kind, q: Option<Id>, x: Id, p: nat)
    requires Shape(s) && Fate(s, x, p)
    ensures Fate(WalkLk(s, t, k, q), x, p) && Tracks(s, WalkLk(s, t, k, q))
    decreases OpenSet(s.nodes), 1, Remaining(s, t, k, q)
  {
    hide Fate, Tracks, CloseLk, Shape;
    Itself(s);
    if q.Some? {
      var n := Next(ListOf(s, t, k), q.value);
      var s1 := CloseLk(s, q.value);
      CloseFate(s, q.value, x, p);
      TracksShape(s, s1);
      WalkFate(s1, t, k, n, x, p);
      TracksTrans(s, s1, WalkLk(s, t, k, q));
    }
  }

  // ---------------------------------------------------------------- what a close makes of it

  /** What a close is to leave behind; room slots aside, which the closing router empties. */
  ghost predicate Sound(s: State) {
    Good(s) && Settled(s, multiset{})
  }

  lemma StartFate(s: State, x: Id)
    requires Good(s) && GivenUp(s, x)
    ensures Fate(s, x, 0) && !s.nodes[x].closed
  {
    GivenUpIsOpen(s, x);
    AliveIffHeld(s, x);
  }

  /** A closed resource with a debt cannot be in order. */
  lemma DebtShows(t: State, x: Id)
    requires Fate(t, x, 0) && t.nodes[x].closed
    ensures !Good(t)
  {
    if !t.fault {
      if t.nodes[x].disposed {
        assert !BalancedAt(t, multiset{}, x);
      } else {
        assert !NoHazard(t);
      }
    }
  }

  lemma CloseMarks(s: State, b: Id)
    requires Alive(s, b)
    ensures b < |CloseLk(s, b).nodes| && CloseLk(s, b).nodes[b].closed
  {
    hide CloseBody, RefLk, Later;
    if !s.nodes[b].closed {
      var s1 := MarkClosed(s, b);
      CloseBodyLater(s1, b);
      RefLkLater(CloseBody(s1, b), b, -1);
      LaterTrans(s1, CloseBody(s1, b), CloseLk(s, b));
      LaterClosed(s1, CloseLk(s, b), b);
    }
  }

  lemma LaterClosed(s: State, t: State, i: Id)
    requires Later(s, t) && i < |s.nodes| && s.nodes[i].closed
    ensures i < |t.nodes| && t.nodes[i].closed
  {
  }

  lemma LaterBelow(s: State, t: State, b: Id, x: Id)
    requires Later(s, t) && |t.nodes| == |s.nodes|
    ensures Below(s.nodes, b, x) <==> Below(t.nodes, b, x)
  {
    forall i | 0 <= i < |s.nodes| ensures s.nodes[i].up == t.nodes[i].up { assert LaterNode(s.nodes[i], t.nodes[i]); }
    BelowSame(s.nodes, t.nodes, b, x);
  }

  /** When a close above a given-up resource leaves everything in order, then the resource was
      gone before the close came to it. */
  lemma GivenUpIsGone(s: State, b: Id, x: Id)
    requires Inv(s) && Alive(s, b) && GivenUp(s, x) && Below(s.nodes, b, x)
    ensures var t := CloseLk(s, b);
      x < |t.nodes| && (Sound(t) ==> t.nodes[x].disposed && !t.nodes[x].closed)
  {
    hide GoodBut, Settled, Slots, CloseLk, Fate, Later;
    var t := CloseLk(s, b);
    InvIsGood(s);
    GoodParts(s, multiset{});
    StartFate(s, x);
    CloseFate(s, b, x, 0);
    if t.nodes[x].closed { DebtShows(t, x); }
    CloseMarks(s, b);
    CloseLkLater(s, b);
    LaterBelow(s, t, b, x);
    if Sound(t) && !t.nodes[x].disposed { ClosedBelow(t, b, x); }
  }

  /** A given-up resource must not be closed, whatever its kind. */
  lemma GivenUpItself(s: State, b: Id)
    requires Inv(s) && GivenUp(s, b)
    ensures !Good(CloseLk(s, b))
  {
    hide GoodBut, Settled, Slots, CloseLk, Fate;
    InvIsGood(s);
    GoodParts(s, multiset{});
    StartFate(s, b);
    CloseFate(s, b, b, 0);
    CloseMarks(s, b);
    DebtShows(CloseLk(s, b), b);
  }

  /** Nor must anything above it, as long as a thread holds it. */
  lemma GivenUpHeld(s: State, b: Id, x: Id)
    requires Inv(s) && Alive(s, b) && GivenUp(s, x) && Below(s.nodes, b, x) && x in s.borrows
    ensures !Sound(CloseLk(s, b))
  {
    hide GoodBut, Settled, Slots, CloseLk, Fate;
    var t := CloseLk(s, b);
    InvIsGood(s);
    GoodParts(s, multiset{});
    GivenUpIsGone(s, b, x);
    StartFate(s, x);
    CloseFate(s, b, x, 0);
    if Sound(t) {
      GoodParts(t, multiset{});
      BorrowedIsAlive(t, x);
    }
  }
}
