/**
 What a close leaves behind: which resources are closed, and which of them are still there
 because somebody holds them. And the one case in which a resource that its creator has given up
 may be closed by its id: when nobody goes on holding it, the reference that the look-up took is
 the one that the close gives back.
 */
module RctSurvival {
  import opened RctState
  import opened RctRefs
  import opened RctInvariant
  import opened RctRelease
  import opened RctClose
  import opened RctCascade
  import opened RctSteps
  import opened RctCreation
  import opened RctProtocol
  import opened RctRollback

  predicate Alive(s: State, i: Id) {
    i < |s.nodes| && !s.nodes[i].disposed
  }

  lemma InvIsGood(s: State)
    requires Inv(s)
    ensures Good(s)
  {
  }

  // ---------------------------------------------------------------- close

  /** Whatever depends on a closed resource is closed, at any distance. */
  lemma {:induction false} ClosedBelow(s: State, p: Id, x: Id)
    requires Good(s) && Settled(s, multiset{})
    requires Alive(s, x) && Below(s.nodes, p, x) && p < |s.nodes| && s.nodes[p].closed
    ensures s.nodes[x].closed
    decreases x
  {
    if p != x {
      var j := if s.nodes[x].up[0] < x && Below(s.nodes, p, s.nodes[x].up[0]) then 0 else 1;
      var y := s.nodes[x].up[j];
      assert ShapeAt(s.nodes, x);
      HeldIsAlive(s, multiset{}, x, y);
      ClosedBelow(s, p, y);
    }
  }

  /** Closing a resource closes exactly what depends on it: every undisposed resource is
      closed afterwards if and only if it was closed before or lies below `b`. */
  lemma CloseIsDownwardClosure(s: State, b: Id, x: Id)
    requires Inv(s) && Alive(s, b) && NoFailedBelow(s, b) && Alive(s, x)
    ensures CloseLk(s, b).nodes[x].closed <==> s.nodes[x].closed || Below(s.nodes, b, x)
  {
    hide GoodBut, CloseLk, Settled;
    var t := CloseLk(s, b);
    InvIsGood(s);
    GoodParts(s, multiset{});
    SlotsAlive(s, b);
    assert InFlight(s, multiset{});
    CloseLkSteady(s, multiset{}, b);
    assert EvolvesTo(s.nodes[x], t.nodes[x]);
    EvolvesBelow(s, t, b);
    if Below(s.nodes, b, x) {
      if Alive(t, x) {
        ClosedBelow(t, b, x);
      } else {
        GoodParts(t, multiset{});
        assert BalancedAt(t, multiset{}, x);
      }
    }
  }

  lemma SlotsAlive(s: State, b: Id)
    requires Slots(s) && |s.lists| == |s.nodes|
    ensures SlotAlive(s, b)
  {
    if b < |s.lists| { assert SlotAt(s, b); }
  }

  // ---------------------------------------------------------------- what is still there

  /** Somebody goes on holding `x` when the resources in `C` are closed: its creator or itself,
      a thread, or a resource that is still there itself. */
  ghost predicate Lasts(s: State, C: set<Id>, x: Id)
    decreases if x < |s.nodes| then 5 - Rank(s.nodes[x].kind) else 0
  {
    && Alive(s, x)
    && (|| AfterClose(s, C, x).Main() >= 1 || s.borrows[x] >= 1
        || exists h :: 0 <= h < |s.nodes| && Rank(s.nodes[h].kind) > Rank(s.nodes[x].kind)
             && s.nodes[h].Holds(x) >= 1 && Lasts(s, C, h))
  }

  function AfterClose(s: State, C: set<Id>, x: Id): Node
    requires x < |s.nodes|
  {
    s.nodes[x].(closed := s.nodes[x].closed || x in C)
  }

  function BelowOf(s: State, b: Id): set<Id> {
    set i | 0 <= i < |s.nodes| && Below(s.nodes, b, i)
  }

  /** Somebody goes on holding `x` when everything at and below `b` is closed. */
  ghost predicate Remains(s: State, b: Id, x: Id) {
    Lasts(s, BelowOf(s, b), x)
  }

  /** From `s` to `t` those in `C` were closed that are still there, and nothing else. */
  ghost predicate ClosedIn(s: State, t: State, C: set<Id>) {
    && |t.nodes| == |s.nodes| && t.borrows == s.borrows
    && forall i :: 0 <= i < |s.nodes| ==> ClosedIf(s.nodes[i], t.nodes[i], i in C)
  }

  predicate ClosedIf(m: Node, n: Node, c: bool) {
    && n == m.(refs := n.refs, disposed := n.disposed, closed := n.closed) && (m.disposed ==> n.disposed)
    && (m.closed ==> n.closed) && (n.closed ==> m.closed || c) && (!n.disposed && c ==> n.closed)
  }

  /** What a close of `b` does. */
  ghost predicate ClosesDown(s: State, t: State, b: Id) {
    ClosedIn(s, t, BelowOf(s, b))
  }

  lemma ClosesDownIs(s: State, b: Id)
    requires Inv(s) && Alive(s, b) && NoFailedBelow(s, b)
    ensures ClosesDown(s, CloseLk(s, b), b) && Good(CloseLk(s, b))
  {
    hide GoodBut, Settled, Slots, CloseLk;
    var t := CloseLk(s, b);
    InvIsGood(s);
    GoodParts(s, multiset{});
    SlotsAlive(s, b);
    assert InFlight(s, multiset{});
    CloseLkSteady(s, multiset{}, b);
    forall i | 0 <= i < |s.nodes| ensures ClosedIf(s.nodes[i], t.nodes[i], i in BelowOf(s, b)) {
      assert EvolvesTo(s.nodes[i], t.nodes[i]);
      if Alive(s, i) { CloseIsDownwardClosure(s, b, i); }
    }
  }

  lemma DownAt(s: State, t: State, b: Id, i: Id)
    requires ClosesDown(s, t, b) && i < |s.nodes|
    ensures |t.nodes| == |s.nodes| && t.borrows == s.borrows && ClosedIf(s.nodes[i], t.nodes[i], Below(s.nodes, b, i))
  {
    assert ClosedIf(s.nodes[i], t.nodes[i], i in BelowOf(s, b));
  }

  /** Holding decides who is there, also in the middle of a cascade for whatever is not itself
      about to be released. */
  lemma {:induction false} LastsAt(s: State, t: State, P: multiset<Id>, C: set<Id>, x: Id)
    requires Shape(s) && Balanced(t, P) && PositiveBut(t, {}) && ClosedIn(s, t, C) && x < |s.nodes|
    requires forall p :: p in P ==> p < |s.nodes| && Rank(s.nodes[p].kind) < Rank(s.nodes[x].kind)
    ensures Alive(t, x) <==> Lasts(s, C, x)
    decreases 5 - Rank(s.nodes[x].kind)
  {
    hide In, Shape;
    assert ClosedIf(s.nodes[x], t.nodes[x], x in C);
    if Alive(s, x) {
      assert BalancedAt(t, P, x);
      assert x !in P;
      forall h | 0 <= h < |s.nodes| && s.nodes[h].Holds(x) >= 1
        ensures Rank(s.nodes[h].kind) > Rank(s.nodes[x].kind) && (Alive(t, h) <==> Lasts(s, C, h))
      {
        HolderRank(s, h, x);
        LastsAt(s, t, P, C, h);
      }
      if In(t.nodes, x) >= 1 {
        var h := InWitness(t.nodes, x);
        assert ClosedIf(s.nodes[h], t.nodes[h], h in C);
      }
      forall h | 0 <= h < |t.nodes| && s.nodes[h].Holds(x) >= 1 && Alive(t, h) ensures In(t.nodes, x) >= 1 {
        assert ClosedIf(s.nodes[h], t.nodes[h], h in C);
        InAtLeast(t.nodes, h, x);
      }
    }
  }

  /** Closing disposes exactly those that nobody goes on holding, above the closed resource and
      below. */
  lemma RemainsExactly(s: State, b: Id, x: Id)
    requires Inv(s) && Alive(s, b) && NoFailedBelow(s, b) && x < |s.nodes|
    ensures Alive(CloseLk(s, b), x) <==> Remains(s, b, x)
  {
    hide GoodBut, Settled, Slots, CloseLk, Lasts, ClosedIn, Below;
    var t := CloseLk(s, b);
    InvIsGood(s);
    ClosesDownIs(s, b);
    GoodParts(s, multiset{});
    GoodParts(t, multiset{});
    LastsAt(s, t, multiset{}, BelowOf(s, b), x);
  }

  // ---------------------------------------------------------------- what a close does not look at

  /** The state with another phase for `i` and other borrowed references. */
  function Relabel(s: State, i: Id, p: Phase, m: multiset<Id>): State
    requires i < |s.nodes|
  {
    s.(nodes := s.nodes[i := s.nodes[i].(phase := p)], borrows := m)
  }

  lemma RelabelSets(s: State, i: Id, p: Phase, m: multiset<Id>)
    requires i < |s.nodes|
    ensures var t := Relabel(s, i, p, m);
      AliveSet(t.nodes) == AliveSet(s.nodes) && OpenSet(t.nodes) == OpenSet(s.nodes) && |t.nodes| == |s.nodes|
  {
  }

  lemma RelabelCounter(s: State, b: Id, n: int, i: Id, p: Phase, m: multiset<Id>)
    requires i < |s.nodes| && b < |s.nodes|
    ensures AddRefs(Relabel(s, i, p, m), b, n) == Relabel(AddRefs(s, b, n), i, p, m)
    ensures Detach(Relabel(s, i, p, m), b) == Relabel(Detach(s, b), i, p, m)
    ensures MarkClosed(Relabel(s, i, p, m), b) == Relabel(MarkClosed(s, b), i, p, m)
  {
    hide Unlink;
    assert AddRefs(Relabel(s, i, p, m), b, n).nodes == Relabel(AddRefs(s, b, n), i, p, m).nodes;
    assert Detach(Relabel(s, i, p, m), b).nodes == Relabel(Detach(s, b), i, p, m).nodes;
    assert MarkClosed(Relabel(s, i, p, m), b).nodes == Relabel(MarkClosed(s, b), i, p, m).nodes;
  }

  lemma RelabelCounted(nodes: seq<Node>, ids: set<Id>, g: Gauge, i: Id, p: Phase)
    requires i < |nodes|
    ensures CountedBy(nodes[i := nodes[i].(phase := p)], ids, g) == CountedBy(nodes, ids, g)
  {
  }

  lemma RelabelPublish(s: State, k: Kind, i: Id, p: Phase, m: multiset<Id>)
    requires i < |s.nodes|
    ensures Publish(Relabel(s, i, p, m), k) == Relabel(Publish(s, k), i, p, m)
  {
    hide CountedBy;
    match GaugeOf(k) {
      case Some(g) => RelabelCounted(s.nodes, s.byId, g, i, p);
      case None =>
    }
  }

  lemma RelabelLoad(s: State, v: Wid, i: Id, p: Phase, m: multiset<Id>)
    requires i < |s.nodes|
    ensures AdjustLoad(Relabel(s, i, p, m), v, -1) == Relabel(AdjustLoad(s, v, -1), i, p, m)
    ensures AdjustLoad(s, v, -1).nodes == s.nodes
  {
  }

  lemma RelabelUnregister(s: State, b: Id, i: Id, p: Phase, m: multiset<Id>)
    requires i < |s.nodes| && b < |s.nodes|
    ensures Unregister(Relabel(s, i, p, m), b) == Relabel(Unregister(s, b), i, p, m)
  {
    hide Publish, AdjustLoad;
    if b in s.byId {
      var n := s.nodes[b];
      var s1 := s.(byId := s.byId - {b}, byUuid := s.byUuid - {n.uuid});
      RelabelLoad(s1, n.wid, i, p, m);
      RelabelPublish(AdjustLoad(s1, n.wid, -1), n.kind, i, p, m);
    }
  }

  lemma RelabelAt(s: State, b: Id, i: Id, p: Phase, m: multiset<Id>)
    requires i < |s.nodes| && b < |s.nodes|
    ensures var n := Relabel(s, i, p, m).nodes[b];
      && n.refs == s.nodes[b].refs && n.disposed == s.nodes[b].disposed && n.closed == s.nodes[b].closed
      && n.kind == s.nodes[b].kind && n.up == s.nodes[b].up && n.Releases() == s.nodes[b].Releases()
  {
  }

  lemma RelabelFault(s: State, b: Id, n: int, i: Id, p: Phase, m: multiset<Id>)
    requires i < |s.nodes| && (b >= |s.nodes| || s.nodes[b].disposed)
    ensures RefLk(Relabel(s, i, p, m), b, n) == Relabel(RefLk(s, b, n), i, p, m)
  {
  }

  lemma {:induction false} RelabelRelease(s: State, b: Id, n: int, i: Id, p: Phase, m: multiset<Id>)
    requires i < |s.nodes|
    ensures RefLk(Relabel(s, i, p, m), b, n) == Relabel(RefLk(s, b, n), i, p, m)
    decreases AliveSet(s.nodes), 0
  {
    hide RefLk, RefAllLk, Detach, Unregister, AddRefs, Relabel;
    var v := Relabel(s, i, p, m);
    RelabelSets(s, i, p, m);
    if b >= |s.nodes| || s.nodes[b].disposed {
      RelabelFault(s, b, n, i, p, m);
    } else {
      RelabelAt(s, b, i, p, m);
      RelabelCounter(s, b, n, i, p, m);
      if s.nodes[b].refs + n >= 1 {
        Small(s, b, n);
        Small(v, b, n);
      } else {
        var s1 := AddRefs(s, b, n);
        AddRefsSets(s, b, n);
        CounterAt(s, b, n);
        var s2 := Detach(s1, b);
        var ids := s.nodes[b].Releases();
        DetachSets(s1, b);
        DetachSize(s1, b);
        assert b in AliveSet(s.nodes);
        RelabelCounter(s1, b, n, i, p, m);
        RelabelReleases(s2, ids, i, p, m);
        RelabelUnregister(RefAllLk(s2, ids), b, i, p, m);
        RefLkUnfold(s, b, n);
        RefLkUnfold(v, b, n);
      }
    }
  }

  lemma CounterAt(s: State, b: Id, n: int)
    requires b < |s.nodes|
    ensures var t := AddRefs(s, b, n); |t.nodes| == |s.nodes| && t.nodes[b] == s.nodes[b].(refs := s.nodes[b].refs + n)
  {
  }

  lemma DetachSize(s: State, b: Id)
    requires b < |s.nodes|
    ensures |Detach(s, b).nodes| == |s.nodes|
  {
  }

  lemma {:induction false} RelabelReleases(s: State, ids: seq<Id>, i: Id, p: Phase, m: multiset<Id>)
    requires i < |s.nodes|
    ensures RefAllLk(Relabel(s, i, p, m), ids) == Relabel(RefAllLk(s, ids), i, p, m)
    decreases AliveSet(s.nodes), |ids| + 1
  {
    hide RefLk, Relabel;
    if ids != [] {
      RelabelRelease(s, ids[0], -1, i, p, m);
      RelabelReleases(RefLk(s, ids[0], -1), ids[1..], i, p, m);
    }
  }

  lemma RelabelIdle(s: State, b: Id, i: Id, p: Phase, m: multiset<Id>)
    requires i < |s.nodes| && (b < |s.nodes| ==> s.nodes[b].disposed || s.nodes[b].closed)
    ensures CloseLk(Relabel(s, i, p, m), b) == Relabel(CloseLk(s, b), i, p, m)
  {
    hide RefLk, CloseBody;
  }

  /** A close asks neither for phases nor for borrowed references. */
  lemma {:induction false} RelabelClose(s: State, b: Id, i: Id, p: Phase, m: multiset<Id>)
    requires i < |s.nodes|
    ensures CloseLk(Relabel(s, i, p, m), b) == Relabel(CloseLk(s, b), i, p, m)
    decreases OpenSet(s.nodes), 0, 0
  {
    hide RefLk, CloseBody, MarkClosed, CloseLk, Relabel;
    if b >= |s.nodes| || s.nodes[b].disposed || s.nodes[b].closed {
      RelabelIdle(s, b, i, p, m);
    } else {
      var v := Relabel(s, i, p, m);
      MarkSets(s, b);
      RelabelSets(s, i, p, m);
      RelabelAt(s, b, i, p, m);
      RelabelCounter(s, b, 0, i, p, m);
      RelabelBody(MarkClosed(s, b), b, i, p, m);
      RelabelRelease(CloseBody(MarkClosed(s, b), b), b, -1, i, p, m);
      CloseLkOpen(s, b);
      CloseLkOpen(v, b);
    }
  }

  lemma MarkSets(s: State, b: Id)
    requires b < |s.nodes| && !s.nodes[b].closed
    ensures |MarkClosed(s, b).nodes| == |s.nodes| && b in OpenSet(s.nodes)
    ensures OpenSet(MarkClosed(s, b).nodes) == OpenSet(s.nodes) - {b}
  {
  }

  lemma {:induction false} RelabelBody(s: State, b: Id, i: Id, p: Phase, m: multiset<Id>)
    requires i < |s.nodes| && b < |s.nodes|
    ensures CloseBody(Relabel(s, i, p, m), b) == Relabel(CloseBody(s, b), i, p, m)
    decreases OpenSet(s.nodes), 2, 0
  {
    hide WalkLk, CloseRoomSlot, Unlink, Relabel;
    var v := Relabel(s, i, p, m);
    RelabelSets(s, i, p, m);
    RelabelAt(s, b, i, p, m);
    match s.nodes[b].kind {
      case Router =>
        var s1 := CloseRoomSlot(s, b);
        var s2 := WalkLk(s1, b, Transport, First(ListOf(s1, b, Transport)));
        RelabelSlot(s, b, i, p, m);
        RelabelFirst(s1, b, Transport, i, p, m);
        RelabelWalk(s1, b, Transport, First(ListOf(s1, b, Transport)), i, p, m);
        RelabelFirst(s2, b, Observer, i, p, m);
        RelabelWalk(s2, b, Observer, First(ListOf(s2, b, Observer)), i, p, m);
      case Transport =>
        var s1 := WalkLk(s, b, Producer, First(ListOf(s, b, Producer)));
        RelabelFirst(s, b, Producer, i, p, m);
        RelabelWalk(s, b, Producer, First(ListOf(s, b, Producer)), i, p, m);
        RelabelFirst(s1, b, Consumer, i, p, m);
        RelabelWalk(s1, b, Consumer, First(ListOf(s1, b, Consumer)), i, p, m);
      case Producer =>
        RelabelFirst(s, b, Consumer, i, p, m);
        RelabelWalk(s, b, Consumer, First(ListOf(s, b, Consumer)), i, p, m);
      case Room =>
        RelabelFirst(s, b, Member, i, p, m);
        RelabelWalk(s, b, Member, First(ListOf(s, b, Member)), i, p, m);
      case Member => RelabelLists(s, Unlink(s.lists, s.nodes[b].up, Member, b), i, p, m);
      case _ =>
    }
  }

  lemma RelabelFirst(s: State, t: Id, k: Kind, i: Id, p: Phase, m: multiset<Id>)
    requires i < |s.nodes|
    ensures First(ListOf(Relabel(s, i, p, m), t, k)) == First(ListOf(s, t, k))
    ensures ListOf(Relabel(s, i, p, m), t, k) == ListOf(s, t, k)
  {
  }

  lemma RelabelLists(s: State, l: seq<Lists>, i: Id, p: Phase, m: multiset<Id>)
    requires i < |s.nodes|
    ensures Relabel(s, i, p, m).(lists := l) == Relabel(s.(lists := l), i, p, m)
    ensures Relabel(s, i, p, m).lists == s.lists
  {
  }

  lemma {:induction false} RelabelSlot(s: State, b: Id, i: Id, p: Phase, m: multiset<Id>)
    requires i < |s.nodes|
    ensures CloseRoomSlot(Relabel(s, i, p, m), b) == Relabel(CloseRoomSlot(s, b), i, p, m)
    decreases OpenSet(s.nodes), 1, 0
  {
    hide CloseLk;
    var slot := ListOf(s, b, Room);
    if slot != [] { RelabelClose(s, slot[0], i, p, m); }
  }

  lemma {:induction false} RelabelWalk(s: State, t: Id, k: Kind, q: Option<Id>, i: Id, p: Phase, m: multiset<Id>)
    requires i < |s.nodes|
    ensures WalkLk(Relabel(s, i, p, m), t, k, q) == Relabel(WalkLk(s, t, k, q), i, p, m)
    decreases OpenSet(s.nodes), 1, Remaining(s, t, k, q)
  {
    hide CloseLk;
    if q.Some? {
      RelabelClose(s, q.value, i, p, m);
      RelabelWalk(CloseLk(s, q.value), t, k, Next(ListOf(s, t, k), q.value), i, p, m);
    }
  }

  // ---------------------------------------------------------------- closing what was given up

  predicate GivenUp(s: State, x: Id) {
    Alive(s, x) && s.nodes[x].phase == Failed
  }

  /** Phases and borrowed references stand in the ledger only. */
  lemma RelabelFrame(s: State, i: Id, p: Phase, m: multiset<Id>)
    requires Inv(s) && i < |s.nodes| && s.nodes[i].kind !in {Room, Member}
    ensures var t := Relabel(s, i, p, m);
      Shape(t) && Links(t) && Registry(t, {}) && Owners(t) && Settled(t, multiset{}) && Slots(t) && PositiveBut(t, {}) && !t.fault
  {
    var t := Relabel(s, i, p, m);
    SameGraphFrame(s, t, {});
    forall r | 0 <= r < |t.lists| ensures SlotAt(t, r) { assert SlotAt(s, r); }
  }

  /** A thread that holds a given-up resource might as well have made it: the reference is then
      its main one. */
  lemma LentInv(u: State, i: Id, m: multiset<Id>)
    requires Inv(u) && GivenUp(u, i) && u.borrows == m + multiset{i}
    ensures Inv(Relabel(u, i, Live, m))
  {
    hide Settled, Slots, Links, Registry, Owners, In, IdMap, UuidMap, LoadMap, GaugeMap;
    assert ShapeAt(u.nodes, i);
    RelabelFrame(u, i, Live, m);
    var v := Relabel(u, i, Live, m);
    RelabelBalanced(u, i, Live, m);
  }

  lemma RelabelBalanced(s: State, i: Id, p: Phase, m: multiset<Id>)
    requires Balanced(s, multiset{}) && i < |s.nodes| && m <= s.borrows
    requires s.nodes[i].Main() + s.borrows[i] == s.nodes[i].(phase := p).Main() + m[i]
    requires forall x :: x != i ==> m[x] == s.borrows[x]
    ensures Balanced(Relabel(s, i, p, m), multiset{})
  {
    hide In;
    var t := Relabel(s, i, p, m);
    forall x | 0 <= x < |t.nodes| ensures BalancedAt(t, multiset{}, x) {
      assert BalancedAt(s, multiset{}, x);
      InSame(s.nodes, t.nodes, x);
    }
  }

  lemma BuriedInv(t: State, i: Id)
    requires Inv(t) && i < |t.nodes| && t.nodes[i].disposed && t.nodes[i].closed && t.nodes[i].phase == Live
    requires t.nodes[i].kind !in {Room, Member}
    ensures Inv(Relabel(t, i, Failed, t.borrows))
  {
    hide Settled, Slots, Links, Registry, Owners, In, IdMap, UuidMap, LoadMap, GaugeMap;
    RelabelFrame(t, i, Failed, t.borrows);
    RelabelBalanced(t, i, Failed, t.borrows);
  }

  lemma {:induction false} LastsSame(s: State, v: State, C: set<Id>, x: Id)
    requires |s.nodes| == |v.nodes| && s.borrows == v.borrows
    requires forall h :: 0 <= h < |s.nodes| ==>
      && v.nodes[h] == s.nodes[h].(refs := v.nodes[h].refs, phase := v.nodes[h].phase)
      && AfterClose(v, C, h).Main() == AfterClose(s, C, h).Main()
    ensures Lasts(s, C, x) <==> Lasts(v, C, x)
    decreases if x < |s.nodes| then 5 - Rank(s.nodes[x].kind) else 0
  {
    if x < |s.nodes| {
      forall h | 0 <= h < |s.nodes| && Rank(s.nodes[h].kind) > Rank(s.nodes[x].kind)
        ensures (Lasts(s, C, h) <==> Lasts(v, C, h)) && s.nodes[h].Holds(x) == v.nodes[h].Holds(x)
      {
        LastsSame(s, v, C, h);
      }
    }
  }

  /** The state in which the look-up's reference counts as the main one. */
  function Lent(s: State, i: Id): State
    requires i < |Borrow(s, i).nodes|
  {
    Relabel(Borrow(s, i), i, Live, s.borrows)
  }

  ghost predicate OnlyItself(s: State, i: Id) {
    GivenUp(s, i) && forall x :: GivenUp(s, x) && Below(s.nodes, i, x) ==> x == i
  }

  lemma GivenUpKind(s: State, i: Id)
    requires Inv(s) && GivenUp(s, i)
    ensures i in s.byId && s.nodes[i].kind !in {Room, Member} && !s.nodes[i].closed
  {
    assert ShapeAt(s.nodes, i);
    assert Registered(s, {}, i);
  }

  lemma LentIs(s: State, i: Id)
    requires Inv(s) && OnlyItself(s, i)
    ensures |Borrow(s, i).nodes| == |s.nodes|
    ensures var v := Lent(s, i);
      && Inv(v) && |v.nodes| == |s.nodes| && v.borrows == s.borrows && Alive(v, i) && v.nodes[i].phase == Live
      && v.nodes[i].kind == s.nodes[i].kind && s.nodes[i].kind !in {Room, Member} && NoFailedBelow(v, i)
      && Relabel(v, i, Failed, s.borrows + multiset{i}) == Borrow(s, i)
      && (Remains(v, i, i) <==> Remains(s, i, i))
  {
    hide GoodBut, Settled, Slots, Borrow, Remains;
    var u := Borrow(s, i);
    InvIsGood(s);
    GivenUpKind(s, i);
    BorrowInv(s, i);
    BorrowGood(s, multiset{}, i);
    OnlyRefsNode(s, u, i);
    LentInv(u, i, s.borrows);
    var v := Lent(s, i);
    assert Relabel(v, i, Failed, s.borrows + multiset{i}).nodes == u.nodes;
    LentRemains(s, u, i);
    LentBelow(s, u, i);
  }

  lemma OnlyRefsNode(s: State, t: State, i: Id)
    requires OnlyRefs(s, t) && i < |s.nodes|
    ensures |t.nodes| == |s.nodes| && t.nodes[i] == s.nodes[i].(refs := t.nodes[i].refs)
  {
  }

  lemma LentRemains(s: State, u: State, i: Id)
    requires OnlyRefs(s, u) && GivenUp(s, i)
    ensures |u.nodes| == |s.nodes|
    ensures Remains(Relabel(u, i, Live, s.borrows), i, i) <==> Remains(s, i, i)
  {
    var v := Relabel(u, i, Live, s.borrows);
    var C := BelowOf(s, i);
    forall h | 0 <= h < |s.nodes|
      ensures v.nodes[h] == s.nodes[h].(refs := v.nodes[h].refs, phase := v.nodes[h].phase)
      ensures AfterClose(v, C, h).Main() == AfterClose(s, C, h).Main()
      ensures Below(s.nodes, i, h) <==> Below(v.nodes, i, h)
    {
      BelowSame(s.nodes, v.nodes, i, h);
    }
    assert BelowOf(v, i) == C;
    LastsSame(s, v, C, i);
  }

  lemma LentBelow(s: State, u: State, i: Id)
    requires OnlyRefs(s, u) && OnlyItself(s, i)
    ensures |u.nodes| == |s.nodes| && NoFailedBelow(Relabel(u, i, Live, s.borrows), i)
  {
    var v := Relabel(u, i, Live, s.borrows);
    forall x | 0 <= x < |v.nodes| && !v.nodes[x].disposed && Below(v.nodes, i, x) ensures v.nodes[x].phase != Failed {
      BelowSame(s.nodes, v.nodes, i, x);
      if x != i { assert !GivenUp(s, x); }
    }
  }

  /** A given-up resource is closed by its id, all but the last release: as if the thread that
      looked it up had made it. */
  ghost predicate Paid(s: State, i: Id) {
    && GivenUp(s, i) && |Borrow(s, i).nodes| == |s.nodes|
    && var t := CloseLk(Lent(s, i), i);
      && Inv(t) && |t.nodes| == |s.nodes| && t.borrows == s.borrows && t.nodes[i].closed && t.nodes[i].phase == Live
      && t.nodes[i].kind == s.nodes[i].kind && ClosesDown(Lent(s, i), t, i)
      && CloseLk(Borrow(s, i), i) == Relabel(t, i, Failed, s.borrows + multiset{i})
      && (Alive(t, i) <==> Remains(s, i, i))
  }

  lemma PaidParts(s: State, i: Id)
    requires Inv(s) && OnlyItself(s, i)
    ensures Paid(s, i)
  {
    hide Inv, CloseLk, Borrow, Lent, Closes, Relabel, Remains, ClosesDown;
    LentIs(s, i);
    var v := Lent(s, i);
    CloseLkInv(v, i);
    ClosesDownIs(v, i);
    DownAt(v, CloseLk(v, i), i, i);
    RelabelClose(v, i, i, Failed, s.borrows + multiset{i});
    RemainsExactly(v, i, i);
  }

  lemma PaidClose(s: State, i: Id)
    requires Inv(s) && Paid(s, i)
    ensures |Borrow(s, i).nodes| == |s.nodes| && |CloseLk(Lent(s, i), i).nodes| == |s.nodes|
    ensures var t := CloseLk(Lent(s, i), i);
      Close(s, i) == if Remains(s, i, i) then Release(Relabel(t, i, Failed, s.borrows + multiset{i}), i)
                     else Relabel(t, i, Failed, s.borrows)
  {
    hide Inv, CloseLk, Borrow, Lent, Remains, Release;
    GivenUpKind(s, i);
    assert s.borrows + multiset{i} - multiset{i} == s.borrows;
  }

  /** Nobody goes on holding it, so it goes away. */
  lemma PaidInv(s: State, i: Id)
    requires Inv(s) && Paid(s, i) && !Remains(s, i, i)
    ensures Inv(Close(s, i))
  {
    hide Inv, CloseLk, Borrow, Lent, Remains, Release, Close, Relabel;
    GivenUpKind(s, i);
    PaidClose(s, i);
    BuriedInv(CloseLk(Lent(s, i), i), i);
  }

  // ---------------------------------------------------------------- small facts

  lemma ById(s: State)
    requires Inv(s)
    ensures forall i :: i in s.byId <==> Alive(s, i)
  {
    forall i: Id ensures i in s.byId <==> Alive(s, i) { assert i in s.byId <==> Registered(s, {}, i); }
  }

  lemma FoundIfAlive(s: State, i: Id)
    requires Inv(s) && Alive(s, i)
    ensures Found(s, i, s.nodes[i].kind)
  {
    assert Registered(s, {}, i);
  }

  lemma GivenUpIsOpen(s: State, b: Id)
    requires Good(s) && Alive(s, b) && s.nodes[b].phase == Failed
    ensures !s.nodes[b].closed
  {
  }

  lemma {:induction false} NothingBelowLeaf(s: State, b: Id, x: Id)
    requires Shape(s) && b < |s.nodes| && s.nodes[b].kind in {Consumer, Observer} && x < |s.nodes| && Below(s.nodes, b, x)
    ensures x == b
    decreases x
  {
    if x != b {
      assert ShapeAt(s.nodes, x);
      var j := if s.nodes[x].up[0] < x && Below(s.nodes, b, s.nodes[x].up[0]) then 0 else 1;
      NothingBelowLeaf(s, b, s.nodes[x].up[j]);
    }
  }

  /** Nobody may release the main reference of a resource that was given up. */
  lemma ReleasedFailed(u: State, b: Id)
    requires Shape(u) && Alive(u, b) && u.nodes[b].phase == Failed && u.nodes[b].closed && OthersOn(u, b) >= 1
    ensures !Good(RefLk(u, b, -1))
  {
    hide RefLk;
    var t := RefLk(u, b, -1);
    RefLkFrame(u, b, -1);
    assert FrameAt(u, t, b);
    HoldersStay(u, b, -1);
    assert EvolvesTo(u.nodes[b], t.nodes[b]);
    if t.nodes[b].disposed {
      assert !BalancedAt(t, multiset{}, b);
    } else {
      assert !NoHazard(t);
    }
  }
}
