/**
 Closing above a resource that its creator has given up. Unless the closed resource is a router
 the close is bound to reach it, so such a close keeps things in order exactly if there is no
 such resource below.
 */
module RctGivenUpBelow {
  import opened RctState
  import opened RctRefs
  import opened RctInvariant
  import opened RctRelease
  import opened RctClose
  import opened RctCascade
  import opened RctSteps
  import opened RctCreation
  import opened RctProtocol
  import opened RctRooms
  import opened RctRollback
  import opened RctHistory
  import opened RctSurvival
  import opened RctGivenUp

  // ---------------------------------------------------------------- states in the middle of a cascade

  /** Whatever stands in a list is a child of the right kind. */
  ghost predicate KindLists(s: State) {
    forall p: Id, k: Kind, x: Id :: p < |s.lists| && x in s.lists[p].Get(k) ==> ChildOf(s, p, k, x)
  }

  predicate ChildOf(s: State, p: Id, k: Kind, x: Id) {
    x < |s.nodes| && s.nodes[x].kind == k && p in s.nodes[x].up
  }

  /** What holds throughout a cascade, whether or not it has gone wrong. */
  ghost predicate Under(s: State, x: Id, p: nat) {
    Shape(s) && KindLists(s) && Fate(s, x, p)
  }

  lemma KindListsStart(s: State)
    requires Shape(s) && Links(s)
    ensures KindLists(s)
  {
    forall p: Id, k: Kind, x: Id | p < |s.lists| && x in s.lists[p].Get(k) ensures ChildOf(s, p, k, x) {
      if k == Room {
        assert RoomAt(s, p);
      } else {
        assert ListAt(s, p, k);
        assert Child(s.nodes, p, k, x);
      }
    }
  }

  lemma KindListsStay(s: State, t: State)
    requires KindLists(s) && Later(s, t) && Shrinks(s, t) && |t.nodes| == |s.nodes|
    ensures KindLists(t)
  {
    forall p: Id, k: Kind, x: Id | p < |t.lists| && x in t.lists[p].Get(k) ensures ChildOf(t, p, k, x) {
      assert Subset(t.lists[p].Get(k), s.lists[p].Get(k));
      assert ChildOf(s, p, k, x);
      assert LaterNode(s.nodes[x], t.nodes[x]);
    }
  }

  lemma CloseUnder(s: State, b: Id, x: Id, p: nat)
    requires Under(s, x, p)
    ensures Under(CloseLk(s, b), x, p) && Tracks(s, CloseLk(s, b)) && Later(s, CloseLk(s, b))
  {
    hide CloseLk, KindLists, Shape, Fate, Later, Shrinks;
    var t := CloseLk(s, b);
    CloseFate(s, b, x, p);
    CloseLkLater(s, b);
    CloseLkShrinks(s, b);
    KindListsStay(s, t);
  }

  lemma WalkUnder(s: State, t: Id, k: Kind, q: Option<Id>, x: Id, p: nat)
    requires Under(s, x, p)
    ensures Under(WalkLk(s, t, k, q), x, p) && Tracks(s, WalkLk(s, t, k, q)) && Later(s, WalkLk(s, t, k, q))
  {
    hide WalkLk, KindLists, Shape, Fate, Later, Shrinks;
    var r := WalkLk(s, t, k, q);
    WalkFate(s, t, k, q, x, p);
    WalkLater(s, t, k, q);
    WalkShrinks(s, t, k, q);
    KindListsStay(s, r);
  }

  lemma MarkUnder(s: State, b: Id, x: Id, p: nat)
    requires Under(s, x, p) && b < |s.nodes| && !s.nodes[b].disposed && !s.nodes[b].closed
    ensures var t := MarkClosed(s, b);
      && Under(t, x, p + Own(b, x)) && Tracks(s, t) && t.lists == s.lists
      && t.nodes == s.nodes[b := s.nodes[b].(closed := true)]
    ensures b in OpenSet(s.nodes) && OpenSet(MarkClosed(s, b).nodes) == OpenSet(s.nodes) - {b}
  {
    hide KindLists, Shape, Fate, Later, Shrinks;
    MarkTracks(s, b);
    MarkFate(s, b, x, p);
    MarkLater(s, b);
    SameListsShrink(s, MarkClosed(s, b));
    KindListsStay(s, MarkClosed(s, b));
  }

  lemma ChildKind(s: State, t: Id, k: Kind, x: Id)
    requires KindLists(s) && x in ListOf(s, t, k)
    ensures ChildOf(s, t, k, x)
  {
  }

  // ---------------------------------------------------------------- members are out of reach

  predicate BelowMembers(k: Kind) {
    k in {Transport, Producer, Consumer, Observer}
  }

  lemma MembersTwice(s: State, t: State, u: State)
    requires MembersKept(s, t) && MembersKept(t, u)
    ensures MembersKept(s, u)
  {
  }

  lemma {:induction false} CloseMembers(s: State, b: Id, x: Id, p: nat)
    requires Under(s, x, p) && b < |s.nodes| && BelowMembers(s.nodes[b].kind)
    ensures MembersKept(s, CloseLk(s, b))
    decreases OpenSet(s.nodes), 0, 0
  {
    hide RefLk, CloseBody, Under, Untouched, Tracks, Later;
    MembersSame(s);
    if s.nodes[b].disposed || s.nodes[b].closed {
      MembersStill(s, CloseLk(s, b));
    } else {
      var s1 := MarkClosed(s, b);
      var s2 := CloseBody(s1, b);
      MarkUnder(s, b, x, p);
      MarkMembers(s, b);
      BodyMembers(s1, b, x, p + Own(b, x));
      LastRelease(s2, b, x, p + Own(b, x));
      MembersTwice(s, s1, s2);
      MembersTwice(s, s2, CloseLk(s, b));
    }
  }

  lemma MembersSame(s: State)
    ensures MembersKept(s, s)
  {
  }

  lemma MembersStill(s: State, t: State)
    requires t.nodes == s.nodes
    ensures MembersKept(s, t)
  {
  }

  lemma MarkMembers(s: State, b: Id)
    requires b < |s.nodes| && BelowMembers(s.nodes[b].kind)
    ensures MembersKept(s, MarkClosed(s, b))
  {
  }

  lemma LastRelease(s: State, b: Id, x: Id, p: nat)
    requires Under(s, x, p) && b < |s.nodes| && BelowMembers(s.nodes[b].kind)
    ensures MembersKept(s, RefLk(s, b, -1))
  {
    hide RefLk;
    RefLkFrame(s, b, -1);
    assert FrameAt(s, RefLk(s, b, -1), b);
  }

  lemma {:induction false} BodyMembers(s: State, b: Id, x: Id, p: nat)
    requires Under(s, x, p) && b < |s.nodes| && BelowMembers(s.nodes[b].kind)
    ensures MembersKept(s, CloseBody(s, b)) && Under(CloseBody(s, b), x, p)
    ensures b < |CloseBody(s, b).nodes| && CloseBody(s, b).nodes[b].kind == s.nodes[b].kind
    decreases OpenSet(s.nodes), 2, 0
  {
    hide WalkLk, Under, Untouched, Tracks, Later;
    MembersSame(s);
    match s.nodes[b].kind {
      case Transport =>
        var s1 := WalkLk(s, b, Producer, First(ListOf(s, b, Producer)));
        FirstKind(s, b, Producer, x, p);
        WalkMembers(s, b, Producer, First(ListOf(s, b, Producer)), x, p);
        WalkUnder(s, b, Producer, First(ListOf(s, b, Producer)), x, p);
        KindAfter(s, s1, b);
        FirstKind(s1, b, Consumer, x, p);
        WalkMembers(s1, b, Consumer, First(ListOf(s1, b, Consumer)), x, p);
        WalkUnder(s1, b, Consumer, First(ListOf(s1, b, Consumer)), x, p);
        KindAfter(s1, CloseBody(s, b), b);
        MembersTwice(s, s1, CloseBody(s, b));
      case Producer =>
        FirstKind(s, b, Consumer, x, p);
        WalkMembers(s, b, Consumer, First(ListOf(s, b, Consumer)), x, p);
        WalkUnder(s, b, Consumer, First(ListOf(s, b, Consumer)), x, p);
        KindAfter(s, CloseBody(s, b), b);
      case _ =>
    }
  }

  lemma KindAfter(s: State, t: State, b: Id)
    requires Later(s, t) && b < |s.nodes|
    ensures b < |t.nodes| && t.nodes[b].kind == s.nodes[b].kind && t.nodes[b].up == s.nodes[b].up
  {
    assert LaterNode(s.nodes[b], t.nodes[b]);
  }

  lemma FirstKind(s: State, t: Id, k: Kind, x: Id, p: nat)
    requires Under(s, x, p)
    ensures var q := First(ListOf(s, t, k)); q.Some? ==> q.value in ListOf(s, t, k) && ChildOf(s, t, k, q.value)
  {
    var l := ListOf(s, t, k);
    if l != [] {
      assert l[0] in l;
      ChildKind(s, t, k, l[0]);
    }
  }

  lemma NextKind(s: State, t: Id, k: Kind, y: Id, x: Id, p: nat)
    requires Under(s, x, p)
    ensures var n := Next(ListOf(s, t, k), y); n.Some? ==> ChildOf(s, t, k, n.value)
  {
    var n := Next(ListOf(s, t, k), y);
    if n.Some? { ChildKind(s, t, k, n.value); }
  }

  lemma {:induction false} WalkMembers(s: State, t: Id, k: Kind, q: Option<Id>, x: Id, p: nat)
    requires Under(s, x, p) && BelowMembers(k) && (q.Some? ==> ChildOf(s, t, k, q.value))
    ensures MembersKept(s, WalkLk(s, t, k, q))
    decreases OpenSet(s.nodes), 1, Remaining(s, t, k, q)
  {
    hide CloseLk, Under, Untouched, Tracks, Later;
    MembersSame(s);
    if q.Some? {
      var n := Next(ListOf(s, t, k), q.value);
      var s1 := CloseLk(s, q.value);
      NextKind(s, t, k, q.value, x, p);
      CloseMembers(s, q.value, x, p);
      CloseUnder(s, q.value, x, p);
      if n.Some? { KindAfter(s, s1, n.value); }
      WalkMembers(s1, t, k, n, x, p);
      MembersTwice(s, s1, WalkLk(s, t, k, q));
    }
  }

  /** A given-up consumer can only be held by members and threads, so a close below members
      leaves it in place until it reaches it. */
  lemma GivenUpConsumer(s: State, b: Id, x: Id)
    requires Inv(s) && Alive(s, b) && BelowMembers(s.nodes[b].kind) && GivenUp(s, x)
    requires s.nodes[x].kind == Consumer && Below(s.nodes, b, x)
    ensures !Sound(CloseLk(s, b))
  {
    hide GoodBut, Settled, Slots, CloseLk, Fate, In, Shape, Links, KindLists;
    var t := CloseLk(s, b);
    InvIsGood(s);
    GoodParts(s, multiset{});
    KindListsStart(s);
    StartFate(s, x);
    GivenUpIsGone(s, b, x);
    CloseMembers(s, b, x, 0);
    CloseFate(s, b, x, 0);
    StartHeld(s, x);
    if s.borrows[x] == 0 {
      var h := InWitness(s.nodes, x);
      HolderRank(s, h, x);
      assert t.nodes[h] == s.nodes[h];
      InAtLeast(t.nodes, h, x);
    }
    HeldIsThere(t, x);
  }

  lemma StartHeld(s: State, x: Id)
    requires Good(s) && GivenUp(s, x)
    ensures OthersOn(s, x) >= 1
  {
    AliveIffHeld(s, x);
  }

  lemma HeldIsThere(t: State, x: Id)
    requires x < |t.nodes| && OthersOn(t, x) >= 1
    ensures Sound(t) ==> !t.nodes[x].disposed
  {
    if Good(t) { AliveIffHeld(t, x); }
  }

  // ---------------------------------------------------------------- producers do not disturb each other

  /** `b` still has what `a` has, `y` apart, and in order. */
  ghost predicate Stays(a: seq<Id>, b: seq<Id>, y: Id) {
    (Ordered(Producer, a) ==> Ordered(Producer, b)) && forall z :: z in a && z != y ==> z in b
  }

  /** Of the producers only `y` was touched. */
  ghost predicate OnlyProducer(s: State, t: State, y: Id) {
    && |t.nodes| == |s.nodes| && |t.lists| == |s.lists|
    && (forall z :: 0 <= z < |s.nodes| && s.nodes[z].kind == Producer && z != y ==> t.nodes[z] == s.nodes[z])
    && (forall q :: 0 <= q < |s.lists| ==> Stays(s.lists[q].producers, t.lists[q].producers, y))
  }

  lemma OnlyProducerTwice(s: State, t: State, u: State, y: Id)
    requires OnlyProducer(s, t, y) && OnlyProducer(t, u, y)
    ensures OnlyProducer(s, u, y)
  {
    forall q | 0 <= q < |s.lists| ensures Stays(s.lists[q].producers, u.lists[q].producers, y) {
      assert Stays(s.lists[q].producers, t.lists[q].producers, y);
      assert Stays(t.lists[q].producers, u.lists[q].producers, y);
    }
  }

  lemma SameProducers(s: State, t: State, y: Id)
    requires |t.nodes| == |s.nodes| && |t.lists| == |s.lists|
    requires forall z :: 0 <= z < |s.nodes| && s.nodes[z].kind == Producer && z != y ==> t.nodes[z] == s.nodes[z]
    requires forall q :: 0 <= q < |s.lists| ==> t.lists[q].producers == s.lists[q].producers
    ensures OnlyProducer(s, t, y)
  {
    forall q | 0 <= q < |s.lists| ensures Stays(s.lists[q].producers, t.lists[q].producers, y) {}
  }

  /** Releasing transports and routers changes no list of producers. */
  predicate Low(s: State, b: Id) {
    b < |s.nodes| ==> Rank(s.nodes[b].kind) <= 1
  }

  lemma {:induction false} LowRelease(s: State, b: Id, y: Id)
    requires Shape(s) && Low(s, b)
    ensures OnlyProducer(s, RefLk(s, b, -1), y) && Shape(RefLk(s, b, -1)) && Later(s, RefLk(s, b, -1))
    decreases AliveSet(s.nodes), 1
  {
    hide OnlyProducer, Later;
    RefLkLater(s, b, -1);
    if b >= |s.nodes| || s.nodes[b].disposed {
      FaultShape(s);
      SameProducers(s, s.(fault := true), y);
    } else if s.nodes[b].refs >= 2 {
      CounterShape(s, b);
      SameProducers(s, AddRefs(s, b, -1), y);
    } else {
      RefLkUnfold(s, b, -1);
      LowDispose(s, b, y);
    }
  }

  lemma CounterShape(s: State, b: Id)
    requires Shape(s) && b < |s.nodes|
    ensures Shape(AddRefs(s, b, -1))
  {
    var t := AddRefs(s, b, -1);
    forall i | 0 <= i < |t.nodes| ensures ShapeAt(t.nodes, i) { assert ShapeAt(s.nodes, i); }
  }

  lemma DetachProducers(s: State, b: Id, y: Id)
    requires Shape(s) && b < |s.nodes| && !s.nodes[b].disposed && s.nodes[b].kind != Producer
    ensures OnlyProducer(s, Detach(AddRefs(s, b, -1), b), y)
  {
    hide Unlink;
    var t := Detach(AddRefs(s, b, -1), b);
    UnlinkProducers(s.lists, s.nodes[b].up, s.nodes[b].kind, b);
    assert t.nodes == s.nodes[b := s.nodes[b].(refs := s.nodes[b].refs - 1, disposed := true)];
    SameProducers(s, t, y);
  }

  lemma UnlinkProducers(lists: seq<Lists>, up: seq<Id>, k: Kind, b: Id)
    ensures UnlinkedByDispose(k) && k != Producer ==>
      forall q :: 0 <= q < |lists| ==> Unlink(lists, up, k, b)[q].producers == lists[q].producers
  {
    hide Remove;
  }

  lemma {:induction false} LowDispose(s: State, b: Id, y: Id)
    requires Shape(s) && b < |s.nodes| && Rank(s.nodes[b].kind) <= 1 && !s.nodes[b].disposed && s.nodes[b].refs < 2
    ensures var t := Unregister(RefAllLk(Detach(AddRefs(s, b, -1), b), s.nodes[b].Releases()), b);
      OnlyProducer(s, t, y) && Shape(t)
    decreases AliveSet(s.nodes), 0
  {
    hide RefAllLk, Detach, Unregister, OnlyProducer, Tracks, Shape, Later;
    var s2 := Detach(AddRefs(s, b, -1), b);
    var ids := s.nodes[b].Releases();
    var s3 := RefAllLk(s2, ids);
    DetachTracks(s, b);
    TracksShape(s, s2);
    DetachProducers(s, b, y);
    ReleasesRank(s, b);
    DetachFrame(s, b, -1);
    assert b in AliveSet(s.nodes);
    forall i | i in ids ensures Low(s2, i) { assert Rank(s.nodes[i].kind) < Rank(s.nodes[b].kind); }
    LowReleases(s2, ids, y);
    UnregisterShape(s3, b);
    SameProducers(s3, Unregister(s3, b), y);
    OnlyProducerTwice(s, s2, s3, y);
    OnlyProducerTwice(s, s3, Unregister(s3, b), y);
  }

  lemma UnregisterShape(s: State, b: Id)
    requires Shape(s) && b < |s.nodes|
    ensures var t := Unregister(s, b); Shape(t) && t.nodes == s.nodes && t.lists == s.lists
  {
    UnregisterFrame(s, b);
    var t := Unregister(s, b);
    forall i | 0 <= i < |t.nodes| ensures ShapeAt(t.nodes, i) { assert ShapeAt(s.nodes, i); }
  }

  lemma {:induction false} LowReleases(s: State, ids: seq<Id>, y: Id)
    requires Shape(s) && forall i :: i in ids ==> Low(s, i)
    ensures OnlyProducer(s, RefAllLk(s, ids), y) && Shape(RefAllLk(s, ids)) && |RefAllLk(s, ids).nodes| == |s.nodes|
    decreases AliveSet(s.nodes), |ids| + 1
  {
    hide RefLk, OnlyProducer, Shape, Later;
    if ids == [] {
      SameProducers(s, s, y);
    } else {
      var t := RefLk(s, ids[0], -1);
      assert ids[0] in ids;
      LowRelease(s, ids[0], y);
      forall i | i in ids[1..] ensures Low(t, i) {
        assert i in ids;
        if i < |s.nodes| { KindAfter(s, t, i); }
      }
      LowReleases(t, ids[1..], y);
      OnlyProducerTwice(s, t, RefAllLk(s, ids), y);
    }
  }

  /** Releasing a producer touches no other producer. */
  lemma ProducerRelease(s: State, y: Id)
    requires Shape(s) && y < |s.nodes| && s.nodes[y].kind == Producer
    ensures OnlyProducer(s, RefLk(s, y, -1), y) && Shape(RefLk(s, y, -1)) && Later(s, RefLk(s, y, -1))
  {
    hide OnlyProducer, Later, RefAllLk, Detach, Unregister, Tracks, Unlink;
    RefLkLater(s, y, -1);
    if s.nodes[y].disposed {
      FaultShape(s);
      SameProducers(s, s.(fault := true), y);
    } else if s.nodes[y].refs >= 2 {
      CounterShape(s, y);
      SameProducers(s, AddRefs(s, y, -1), y);
    } else {
      RefLkUnfold(s, y, -1);
      var s2 := Detach(AddRefs(s, y, -1), y);
      var ids := s.nodes[y].Releases();
      var s3 := RefAllLk(s2, ids);
      DetachTracks(s, y);
      TracksShape(s, s2);
      DetachOwnList(s, y);
      ReleasesRank(s, y);
      forall i | i in ids ensures Low(s2, i) { assert Rank(s.nodes[i].kind) < Rank(s.nodes[y].kind); }
      LowReleases(s2, ids, y);
      UnregisterShape(s3, y);
      SameProducers(s3, Unregister(s3, y), y);
      OnlyProducerTwice(s, s2, s3, y);
      OnlyProducerTwice(s, s3, Unregister(s3, y), y);
    }
  }

  lemma DetachOwnList(s: State, y: Id)
    requires Shape(s) && y < |s.nodes| && !s.nodes[y].disposed && s.nodes[y].kind == Producer
    ensures OnlyProducer(s, Detach(AddRefs(s, y, -1), y), y)
  {
    hide Remove, Stays;
    var t := Detach(AddRefs(s, y, -1), y);
    forall q | 0 <= q < |s.lists| ensures Stays(s.lists[q].producers, t.lists[q].producers, y) {
      RemoveStays(s.lists[q].producers, y);
    }
  }

  lemma RemoveStays(l: seq<Id>, y: Id)
    ensures Stays(l, Remove(l, y), y) && Stays(l, l, y)
  {
    if Ordered(Producer, l) { RemoveOrdered(Producer, l, y); }
  }

  /** Releasing a consumer touches no producer but its own. */
  lemma ConsumerRelease(s: State, c: Id, y: Id)
    requires Shape(s) && c < |s.nodes| && s.nodes[c].kind == Consumer && y in s.nodes[c].up
    requires y < |s.nodes| && s.nodes[y].kind == Producer
    ensures OnlyProducer(s, RefLk(s, c, -1), y) && Shape(RefLk(s, c, -1))
  {
    hide OnlyProducer, Later, RefAllLk, RefLk, Detach, Unregister, Tracks;
    if s.nodes[c].disposed {
      FaultShape(s);
      SameProducers(s, s.(fault := true), y);
      DisposedRelease(s, c);
    } else if s.nodes[c].refs >= 2 {
      CounterShape(s, c);
      SameProducers(s, AddRefs(s, c, -1), y);
      Small(s, c, -1);
    } else {
      RefLkUnfold(s, c, -1);
      assert ShapeAt(s.nodes, c);
      var s2 := Detach(AddRefs(s, c, -1), c);
      DetachTracks(s, c);
      TracksShape(s, s2);
      DetachProducers(s, c, y);
      var w := s.nodes[c].up[1];
      assert s.nodes[c].Releases() == [y, w];
      var s3 := RefLk(s2, y, -1);
      var s4 := RefLk(s3, w, -1);
      TwoReleases(s2, y, w);
      ProducerRelease(s2, y);
      KindAfter(s2, s3, w);
      LowRelease(s3, w, y);
      UnregisterShape(s4, c);
      SameProducers(s4, Unregister(s4, c), y);
      OnlyProducerTwice(s, s2, s3, y);
      OnlyProducerTwice(s, s3, s4, y);
      OnlyProducerTwice(s, s4, Unregister(s4, c), y);
    }
  }

  lemma DisposedRelease(s: State, c: Id)
    requires c < |s.nodes| && s.nodes[c].disposed
    ensures RefLk(s, c, -1) == s.(fault := true)
  {
  }

  lemma TwoReleases(s: State, y: Id, w: Id)
    ensures RefAllLk(s, [y, w]) == RefLk(RefLk(s, y, -1), w, -1)
  {
    hide RefLk;
    var t := RefLk(s, y, -1);
    var u := RefLk(t, w, -1);
    assert [y, w][1..] == [w] && [w][1..] == [];
    assert RefAllLk(u, []) == u;
    assert RefAllLk(t, [w]) == RefAllLk(u, []);
  }

  // ---------------------------------------------------------------- a transport reaches its producers

  lemma CloseOnlyConsumer(s: State, c: Id, y: Id, x: Id, p: nat)
    requires Under(s, x, p) && ChildOf(s, y, Consumer, c) && y < |s.nodes| && s.nodes[y].kind == Producer
    ensures OnlyProducer(s, CloseLk(s, c), y)
  {
    hide RefLk, OnlyProducer, Under;
    UnderShape(s, x, p);
    if s.nodes[c].disposed || s.nodes[c].closed {
      SameProducers(s, CloseLk(s, c), y);
    } else {
      var s1 := MarkClosed(s, c);
      MarkUnder(s, c, x, p);
      UnderShape(s1, x, p + Own(c, x));
      SameProducers(s, s1, y);
      CloseLkOpen(s, c);
      assert CloseBody(s1, c) == s1;
      ConsumerRelease(s1, c, y);
      OnlyProducerTwice(s, s1, CloseLk(s, c), y);
    }
  }

  lemma UnderShape(s: State, x: Id, p: nat)
    requires Under(s, x, p)
    ensures Shape(s) && KindLists(s)
  {
  }

  lemma {:induction false} WalkOnlyConsumers(s: State, y: Id, q: Option<Id>, x: Id, p: nat)
    requires Under(s, x, p) && y < |s.nodes| && s.nodes[y].kind == Producer
    requires q.Some? ==> ChildOf(s, y, Consumer, q.value)
    ensures OnlyProducer(s, WalkLk(s, y, Consumer, q), y)
    decreases OpenSet(s.nodes), Remaining(s, y, Consumer, q)
  {
    hide CloseLk, OnlyProducer, Under, Later, Tracks;
    SameProducers(s, s, y);
    if q.Some? {
      var n := Next(ListOf(s, y, Consumer), q.value);
      var s1 := CloseLk(s, q.value);
      NextKind(s, y, Consumer, q.value, x, p);
      CloseOnlyConsumer(s, q.value, y, x, p);
      CloseUnder(s, q.value, x, p);
      KindAfter(s, s1, y);
      if n.Some? { KindAfter(s, s1, n.value); }
      WalkOnlyConsumers(s1, y, n, x, p);
      OnlyProducerTwice(s, s1, WalkLk(s, y, Consumer, q), y);
    }
  }

  /** Closing a producer touches no other producer. */
  lemma CloseOnlyProducer(s: State, y: Id, x: Id, p: nat)
    requires Under(s, x, p) && y < |s.nodes| && s.nodes[y].kind == Producer
    ensures OnlyProducer(s, CloseLk(s, y), y)
  {
    hide RefLk, OnlyProducer, Under, WalkLk, Later, Tracks, CloseLk;
    UnderShape(s, x, p);
    if s.nodes[y].disposed || s.nodes[y].closed {
      ClosedStill(s, y);
      SameProducers(s, CloseLk(s, y), y);
    } else {
      var s1 := MarkClosed(s, y);
      var p1 := p + Own(y, x);
      MarkUnder(s, y, x, p);
      SameProducers(s, s1, y);
      FirstKind(s1, y, Consumer, x, p1);
      var q := First(ListOf(s1, y, Consumer));
      var s2 := WalkLk(s1, y, Consumer, q);
      WalkOnlyConsumers(s1, y, q, x, p1);
      WalkUnder(s1, y, Consumer, q, x, p1);
      UnderShape(s2, x, p1);
      KindAfter(s1, s2, y);
      CloseLkOpen(s, y);
      CloseBodyParent(s1, y, Consumer);
      ProducerRelease(s2, y);
      OnlyProducerTwice(s, s1, s2, y);
      OnlyProducerTwice(s, s2, CloseLk(s, y), y);
    }
  }

  lemma ClosedStill(s: State, y: Id)
    requires y < |s.nodes| && (s.nodes[y].disposed || s.nodes[y].closed)
    ensures CloseLk(s, y).nodes == s.nodes && CloseLk(s, y).lists == s.lists
  {
  }

  /** The walk has not come to `x` yet. */
  ghost predicate Ahead(s: State, t: Id, y: Id, x: Id) {
    var l := ListOf(s, t, Producer);
    && Ordered(Producer, l) && y in l && x in l && (x == y || Before(Producer, y, x))
    && Alive(s, x) && s.nodes[x].kind == Producer
  }

  lemma AheadNext(s: State, s1: State, t: Id, y: Id, x: Id)
    requires Ahead(s, t, y, x) && x != y && OnlyProducer(s, s1, y) && t < |s.lists|
    ensures var n := Next(ListOf(s, t, Producer), y); n.Some? && Ahead(s1, t, n.value, x)
  {
    var l := ListOf(s, t, Producer);
    NextIs(Producer, l, y);
    assert Stays(s.lists[t].producers, s1.lists[t].producers, y);
  }

  /** A walk over producers closes each of them, even where the books are wrong. */
  lemma {:induction false} WalkReaches(s: State, t: Id, y: Id, x: Id, p: nat)
    requires Under(s, x, p) && t < |s.nodes| && Ahead(s, t, y, x)
    ensures var r := WalkLk(s, t, Producer, Some(y)); x < |r.nodes| && r.nodes[x].closed
    decreases OpenSet(s.nodes), Remaining(s, t, Producer, Some(y))
  {
    hide CloseLk, OnlyProducer, Under, Later, Tracks, Ahead, Shape, KindLists;
    UnderShape(s, x, p);
    SizesEqual(s);
    var n := Next(ListOf(s, t, Producer), y);
    var s1 := CloseLk(s, y);
    var r := WalkLk(s1, t, Producer, n);
    assert WalkLk(s, t, Producer, Some(y)) == r;
    CloseUnder(s, y, x, p);
    if x == y {
      AheadAlive(s, t, y, x);
      CloseMarks(s, x);
      WalkLater(s1, t, Producer, n);
      LaterClosed(s1, r, x);
    } else {
      AheadProducer(s, t, y, x);
      CloseOnlyProducer(s, y, x, p);
      AheadNext(s, s1, t, y, x);
      TracksShape2(s, s1);
      WalkReaches(s1, t, n.value, x, p);
    }
  }

  lemma TracksShape2(s: State, t: State)
    requires Tracks(s, t)
    ensures |t.nodes| == |s.nodes|
  {
  }

  lemma SizesEqual(s: State)
    requires Shape(s)
    ensures |s.lists| == |s.nodes|
  {
  }

  lemma AheadAlive(s: State, t: Id, y: Id, x: Id)
    requires Ahead(s, t, y, x)
    ensures Alive(s, x)
  {
  }

  lemma AheadProducer(s: State, t: Id, y: Id, x: Id)
    requires Ahead(s, t, y, x) && KindLists(s)
    ensures y < |s.nodes| && s.nodes[y].kind == Producer
  {
    ChildKind(s, t, Producer, y);
  }

  lemma InvUnder(s: State, x: Id)
    requires Inv(s) && GivenUp(s, x)
    ensures Links(s) && Under(s, x, 0)
  {
    hide GoodBut, Settled, Slots, Fate, Shape, Links, KindLists;
    InvIsGood(s);
    GoodParts(s, multiset{});
    KindListsStart(s);
    StartFate(s, x);
  }

  /** A given-up producer is reached by the close of its transport. */
  lemma ReachedProducer(s: State, b: Id, x: Id)
    requires Links(s) && Under(s, x, 0) && Alive(s, b) && s.nodes[b].kind == Transport && !s.nodes[b].closed
    requires GivenUp(s, x) && s.nodes[x].kind == Producer && b in s.nodes[x].up
    ensures Fate(CloseLk(s, b), x, 0) && CloseLk(s, b).nodes[x].closed
  {
    hide CloseLk, Fate, Shape, Links, KindLists, WalkLk, RefLk, Later, Tracks, CloseBody, Under;
    UnderShape(s, x, 0);
    var s1 := MarkClosed(s, b);
    MarkUnder(s, b, x, 0);
    AheadStart(s, b, x);
    var l := ListOf(s1, b, Producer);
    var s2 := WalkLk(s1, b, Producer, First(l));
    WalkReaches(s1, b, l[0], x, Own(b, x));
    WalkUnder(s1, b, Producer, First(l), x, Own(b, x));
    var s3 := WalkLk(s2, b, Consumer, First(ListOf(s2, b, Consumer)));
    WalkLater(s2, b, Consumer, First(ListOf(s2, b, Consumer)));
    CloseBodyTransport(s1, b);
    CloseLkOpen(s, b);
    RefLkLater(s3, b, -1);
    LaterClosed(s2, s3, x);
    LaterClosed(s3, CloseLk(s, b), x);
    CloseUnder(s, b, x, 0);
    UnderFate(CloseLk(s, b), x);
  }

  lemma UnderFate(s: State, x: Id)
    requires Under(s, x, 0)
    ensures Fate(s, x, 0)
  {
  }

  lemma GivenUpProducer(s: State, b: Id, x: Id)
    requires Inv(s) && Alive(s, b) && s.nodes[b].kind == Transport && !s.nodes[b].closed
    requires GivenUp(s, x) && s.nodes[x].kind == Producer && b in s.nodes[x].up
    ensures !Good(CloseLk(s, b))
  {
    hide Inv, Good, CloseLk, Fate, Under, Links;
    InvUnder(s, x);
    ReachedProducer(s, b, x);
    DebtShows(CloseLk(s, b), x);
  }

  lemma AheadStart(s: State, b: Id, x: Id)
    requires Shape(s) && Links(s) && Alive(s, b) && GivenUp(s, x) && s.nodes[x].kind == Producer && b in s.nodes[x].up
    requires s.nodes[b].kind == Transport
    ensures var s1 := MarkClosed(s, b); var l := ListOf(s1, b, Producer); l != [] && Ahead(s1, b, l[0], x)
  {
    assert ListAt(s, b, Producer);
    assert Child(s.nodes, b, Producer, x);
    var l := ListOf(s, b, Producer);
    assert x in l;
    var j :| 0 <= j < |l| && l[j] == x;
    assert l[0] in l;
  }

  // ---------------------------------------------------------------- exactly

  /** Where a given-up resource can stand below another one that is not a router. */
  lemma GivenUpPlace(s: State, b: Id, x: Id)
    requires Shape(s) && Alive(s, b) && s.nodes[b].kind != Router && GivenUp(s, x) && Below(s.nodes, b, x) && x != b
    ensures s.nodes[b].kind in {Transport, Producer}
    ensures s.nodes[x].kind == Consumer || (s.nodes[x].kind == Producer && s.nodes[b].kind == Transport && b in s.nodes[x].up)
  {
    assert ShapeAt(s.nodes, x);
    BelowRank(s, b, x);
    match s.nodes[b].kind {
      case Room => BelowRoomKind(s, b, x);
      case Member => MemberAlone(s, b);
      case Consumer => NothingBelowLeaf(s, b, x);
      case Observer => NothingBelowLeaf(s, b, x);
      case Transport => if s.nodes[x].kind != Consumer { ProducerParent(s, b, x); }
      case Producer =>
    }
  }

  lemma InvShape(s: State)
    requires Inv(s)
    ensures Shape(s)
  {
  }

  lemma ProducerParent(s: State, b: Id, x: Id)
    requires Shape(s) && b < |s.nodes| && s.nodes[b].kind == Transport && x < |s.nodes| && x != b
    requires Rank(s.nodes[x].kind) > 1 && s.nodes[x].kind != Consumer && s.nodes[x].kind != Member && Below(s.nodes, b, x)
    ensures s.nodes[x].kind == Producer && b in s.nodes[x].up
  {
    assert ShapeAt(s.nodes, x);
    var y := s.nodes[x].up[0];
    assert Below(s.nodes, b, y);
    BelowRank(s, b, y);
  }

  lemma OpenAbove(s: State, b: Id, x: Id)
    requires Inv(s) && Alive(s, b) && GivenUp(s, x) && Below(s.nodes, b, x)
    ensures !s.nodes[b].closed
  {
    hide GoodBut, Settled, Slots;
    InvIsGood(s);
    GivenUpIsOpen(s, x);
    if s.nodes[b].closed { ClosedBelow(s, b, x); }
  }

  lemma GivenUpReached(s: State, b: Id, x: Id)
    requires Inv(s) && Alive(s, b) && s.nodes[b].kind != Router && GivenUp(s, x) && Below(s.nodes, b, x)
    ensures !Sound(CloseLk(s, b))
  {
    hide Inv, Good, Settled, CloseLk;
    if x == b {
      GivenUpItself(s, b);
    } else {
      InvShape(s);
      GivenUpPlace(s, b, x);
      if s.nodes[x].kind == Consumer {
        GivenUpConsumer(s, b, x);
      } else {
        OpenAbove(s, b, x);
        GivenUpProducer(s, b, x);
      }
    }
  }

  /** Closing a resource that is not a router leaves everything in order exactly if nothing at or
      below it was given up by its creator. */
  lemma CloseOtherExactly(s: State, b: Id)
    requires Inv(s) && Alive(s, b) && s.nodes[b].kind != Router
    ensures Sound(CloseLk(s, b)) <==> NoFailedBelow(s, b)
  {
    hide GoodBut, Settled, Slots, CloseLk, Sound;
    if NoFailedBelow(s, b) {
      CloseIsSound(s, b);
    } else {
      var x :| 0 <= x < |s.nodes| && !s.nodes[x].disposed && Below(s.nodes, b, x) && s.nodes[x].phase == Failed;
      assert GivenUp(s, x);
      GivenUpReached(s, b, x);
    }
  }

  lemma NotGoodNotSound(t: State)
    requires !Good(t)
    ensures !Sound(t)
  {
  }

  lemma CloseIsSound(s: State, b: Id)
    requires Inv(s) && Alive(s, b) && NoFailedBelow(s, b)
    ensures Sound(CloseLk(s, b))
  {
    hide GoodBut, Settled, CloseLk;
    InvIsGood(s);
    GoodParts(s, multiset{});
    SlotsAlive(s, b);
    assert InFlight(s, multiset{});
    CloseLkSteady(s, multiset{}, b);
  }

  // ---------------------------------------------------------------- by id

  lemma TracksParts(s: State, t: State)
    requires Tracks(s, t)
    ensures |t.nodes| == |s.nodes| && t.borrows == s.borrows
  {
  }

  lemma BorrowsShape(t: State, v: State)
    requires Shape(t) && v == t.(borrows := v.borrows)
    ensures Shape(v)
  {
    forall j | 0 <= j < |v.nodes| ensures ShapeAt(v.nodes, j) { assert ShapeAt(t.nodes, j); }
  }

  lemma BorrowFate(t: State, i: Id, x: Id)
    requires Fate(t, x, 0) && i in t.borrows
    ensures Fate(t.(borrows := t.borrows - multiset{i}), x, Own(i, x))
  {
  }

  lemma BorrowedSame(s: State, u: State, i: Id, x: Id)
    requires OnlyRefs(s, u) && Alive(s, i) && GivenUp(s, x) && Below(s.nodes, i, x)
    ensures Alive(u, i) && GivenUp(u, x) && Below(u.nodes, i, x)
  {
    BelowSame(s.nodes, u.nodes, i, x);
  }

  /** What `_resource_close` does after the close. */
  function Last(t: State, i: Id): State {
    if i < |t.nodes| && t.nodes[i].disposed then t.(borrows := t.borrows - multiset{i}) else Release(t, i)
  }

  lemma CloseIsLast(s: State, i: Id)
    requires i in s.byId
    ensures Close(s, i) == Last(CloseLk(Borrow(s, i), i), i)
  {
    hide CloseLk, Borrow, Release;
  }

  /** The last release of a resource pays no other one's debt. */
  lemma LastFate(t: State, i: Id, x: Id)
    requires Under(t, x, 0) && i in t.borrows && x != i && i < |t.nodes| && BelowMembers(t.nodes[i].kind)
    ensures var r := Last(t, i);
      Fate(r, x, 0) && Later(t, r) && |r.nodes| == |t.nodes| && MembersKept(t, r) && r.borrows == t.borrows - multiset{i}
  {
    hide RefLk, Later, Tracks, KindLists, Fate, Shape;
    var v := t.(borrows := t.borrows - multiset{i});
    SameNodesLater(t, v);
    BorrowsShape(t, v);
    BorrowFate(t, i, x);
    if !t.nodes[i].disposed {
      ReleaseFate(v, i, x, 0);
      ReleaseLater(t, i);
      TracksParts(v, Release(t, i));
      SameListKinds(t, v);
      LastRelease(v, i, x, 0);
    }
  }

  lemma SameListKinds(t: State, v: State)
    requires KindLists(t) && v == t.(borrows := v.borrows)
    ensures KindLists(v)
  {
    forall p: Id, k: Kind, x: Id | p < |v.lists| && x in v.lists[p].Get(k) ensures ChildOf(v, p, k, x) {
      assert ChildOf(t, p, k, x);
    }
  }

  /** Where the close by id stands before its last release. */
  lemma ByIdStart(s: State, i: Id, x: Id)
    requires Inv(s) && i in s.byId && Alive(s, i) && GivenUp(s, x) && Below(s.nodes, i, x) && x != i
    requires BelowMembers(s.nodes[i].kind)
    ensures var u := Borrow(s, i); var t := CloseLk(u, i);
      && Inv(u) && Alive(u, i) && GivenUp(u, x) && Below(u.nodes, i, x) && u.nodes[i].kind == s.nodes[i].kind
      && Under(t, x, 0) && Later(u, t) && |t.nodes| == |u.nodes| && t.borrows == u.borrows && i in t.borrows
      && MembersKept(u, t) && t.nodes[i].closed && u.borrows == s.borrows + multiset{i} && u.nodes[x].kind == s.nodes[x].kind
      && u.nodes[x].up == s.nodes[x].up
  {
    hide GoodBut, Settled, Slots, CloseLk, Borrow, Fate, Shape, Links, KindLists, Later, OnlyRefs, Untouched;
    var u := Borrow(s, i);
    InvIsGood(s);
    BorrowInv(s, i);
    BorrowGood(s, multiset{}, i);
    BorrowedSame(s, u, i, x);
    OnlyRefsNode(s, u, i);
    OnlyRefsNode(s, u, x);
    InvIsGood(u);
    GoodParts(u, multiset{});
    KindListsStart(u);
    StartFate(u, x);
    CloseMembers(u, i, x, 0);
    CloseUnder(u, i, x, 0);
    CloseMarks(u, i);
    TracksParts(u, CloseLk(u, i));
  }

  /** A close by id above a given-up resource, routers aside, leaves something wrong. */
  lemma ByIdReached(s: State, i: Id, x: Id)
    requires Inv(s) && i in s.byId && i < |s.nodes| && s.nodes[i].kind !in {Router, Room}
    requires GivenUp(s, x) && Below(s.nodes, i, x) && x != i
    ensures !Inv(Close(s, i))
  {
    hide GoodBut, Settled, Slots, CloseLk, Borrow, Last, Fate, Shape, Links, KindLists, Later, Untouched, Close, Below, In;
    InvIsGood(s);
    ById(s);
    InvShape(s);
    GivenUpPlace(s, i, x);
    var u := Borrow(s, i);
    var t := CloseLk(u, i);
    var r := Last(t, i);
    ByIdStart(s, i, x);
    KindAfter(u, t, i);
    CloseIsLast(s, i);
    LastFate(t, i, x);
    LaterTrans(u, t, r);
    LaterClosed(t, r, i);
    LaterBelow(u, r, i, x);
    MembersTwice(u, t, r);
    if s.nodes[x].kind == Consumer {
      ConsumerStays(u, r, x);
      HeldIsThere(r, x);
    } else {
      OpenAbove(u, i, x);
      InvUnder(u, x);
      ReachedProducer(u, i, x);
      LaterClosed(t, r, x);
    }
    if r.nodes[x].closed { DebtShows(r, x); }
    if Sound(r) { ClosedBelow(r, i, x); }
  }

  lemma ConsumerStays(u: State, r: State, x: Id)
    requires Inv(u) && GivenUp(u, x) && u.nodes[x].kind == Consumer && MembersKept(u, r)
    requires |r.nodes| == |u.nodes| && (x in u.borrows ==> x in r.borrows)
    ensures OthersOn(r, x) >= 1
  {
    hide GoodBut, Settled, Slots, In, Shape, Links;
    InvIsGood(u);
    GoodParts(u, multiset{});
    StartHeld(u, x);
    if u.borrows[x] == 0 {
      var h := InWitness(u.nodes, x);
      HolderRank(u, h, x);
      assert r.nodes[h] == u.nodes[h];
      InAtLeast(r.nodes, h, x);
    }
  }

  /** What is given up and closed by its id, but goes on being held, is in debt. */
  lemma ByIdHeld(s: State, i: Id)
    requires Inv(s) && Paid(s, i) && Remains(s, i, i)
    ensures !Inv(Close(s, i))
  {
    hide Inv, CloseLk, Borrow, Lent, Remains, ClosesDown, Close, RefLk, Good, In;
    GivenUpKind(s, i);
    PaidClose(s, i);
    var t := CloseLk(Lent(s, i), i);
    var v := Relabel(t, i, Failed, s.borrows);
    RemainderHeld(t, i);
    InSame(t.nodes, v.nodes, i);
    assert s.borrows + multiset{i} - multiset{i} == s.borrows;
    assert Release(Relabel(t, i, Failed, s.borrows + multiset{i}), i) == RefLk(v, i, -1);
    ReleasedFailed(v, i);
    InvNotGood(Close(s, i));
  }

  lemma InvNotGood(t: State)
    ensures Inv(t) ==> Good(t)
  {
  }

  lemma RemainderHeld(t: State, i: Id)
    requires Inv(t) && Alive(t, i) && t.nodes[i].closed && t.nodes[i].phase == Live && t.nodes[i].kind !in {Room, Member}
    ensures OthersOn(t, i) >= 1 && Shape(Relabel(t, i, Failed, t.borrows))
  {
    hide GoodBut, Settled, Slots, In, Shape, Links;
    InvIsGood(t);
    AliveIffHeld(t, i);
    RelabelFrame(t, i, Failed, t.borrows);
  }
}
