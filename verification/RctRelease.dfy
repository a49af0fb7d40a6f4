/**
 The upward cascade: releasing a reference keeps the invariant and disposes a resource only
 when nobody holds it any more.
 */
module RctRelease {
  import opened RctState
  import opened RctRefs
  import opened RctInvariant

  // ---------------------------------------------------------------- one resource detached

  /** `b` has no holder left, whatever its counter says; everything else is in order. */
  ghost predicate Ripe(s: State, P: multiset<Id>, D: set<Id>, b: Id) {
    && b < |s.nodes| && !s.nodes[b].disposed && Shape(s) && Holders(s, P, b) == 0
    && (forall i :: 0 <= i < |s.nodes| && i != b ==> BalancedAt(s, P, i))
    && (forall i :: i in s.borrows ==> i < |s.nodes|)
    && PositiveBut(s, {b}) && NoHazardBut(s, b)
    && Links(s) && Registry(s, D) && Owners(s) && !s.fault
  }

  ghost predicate NoHazardBut(s: State, b: Id) {
    forall i :: 0 <= i < |s.nodes| && i != b && !s.nodes[i].disposed && s.nodes[i].phase == Failed ==> !s.nodes[i].closed
  }

  lemma DetachBalanced(s: State, P: multiset<Id>, b: Id)
    requires Shape(s) && b < |s.nodes| && !s.nodes[b].disposed && Holders(s, P, b) == 0
    requires forall i :: 0 <= i < |s.nodes| && i != b ==> BalancedAt(s, P, i)
    requires forall i :: i in s.borrows ==> i < |s.nodes|
    ensures Balanced(Detach(s, b), P + multiset(s.nodes[b].Releases()))
  {
    var n := s.nodes[b];
    var t := Detach(s, b);
    var Q := P + multiset(n.Releases());
    assert multiset(n.Releases()) == multiset(n.owned) + multiset(n.up);
    forall i | 0 <= i < |t.nodes| ensures BalancedAt(t, Q, i) {
      InUpdate(s.nodes, b, n.(disposed := true), i);
      if i == b {
        assert In(s.nodes, b) == 0;
        InAtLeast(s.nodes, b, b);
      } else {
        assert BalancedAt(s, P, i);
      }
    }
  }

  lemma DetachShape(s: State, b: Id)
    requires Shape(s) && b < |s.nodes|
    ensures Shape(Detach(s, b))
  {
    var t := Detach(s, b);
    forall i | 0 <= i < |t.nodes| ensures ShapeAt(t.nodes, i) {
      assert ShapeAt(s.nodes, i);
    }
  }

  lemma {:induction false} RemoveOrdered(k: Kind, l: seq<Id>, x: Id)
    requires Ordered(k, l)
    ensures Ordered(k, Remove(l, x)) && x !in Remove(l, x)
  {
    if l != [] {
      assert Ordered(k, l[1..]);
      RemoveOrdered(k, l[1..], x);
      var r := Remove(l[1..], x);
      if l[0] == x {
        assert forall j :: 1 <= j < |l| ==> Before(k, l[0], l[j]);
      } else {
        forall y | y in r ensures Before(k, l[0], y) {
          assert y in l[1..];
        }
      }
    }
  }

  lemma {:induction false} DetachListAt(s: State, b: Id, p: Id, k: Kind)
    requires Shape(s) && ListAt.requires(s, p, k) && ListAt(s, p, k) && IsListKind(k)
    requires b < |s.nodes| && !s.nodes[b].disposed
    requires s.nodes[b].kind == Member ==> s.nodes[b].closed
    ensures ListAt(Detach(s, b), p, k)
  {
    var n := s.nodes[b];
    var t := Detach(s, b);
    assert forall x :: x != b ==> (Child(s.nodes, p, k, x) <==> Child(t.nodes, p, k, x));
    assert !Child(t.nodes, p, k, b);
    if UnlinkedByDispose(n.kind) && p in n.up && k == n.kind {
      RemoveOrdered(k, s.lists[p].Get(k), b);
      assert t.lists[p].Get(k) == Remove(s.lists[p].Get(k), b);
    } else {
      assert t.lists[p].Get(k) == s.lists[p].Get(k);
      assert !Child(s.nodes, p, k, b);
    }
  }

  lemma DetachLinks(s: State, b: Id)
    requires Shape(s) && Links(s)
    requires b < |s.nodes| && !s.nodes[b].disposed && s.nodes[b].Main() == 0
    ensures Links(Detach(s, b))
  {
    var t := Detach(s, b);
    assert ShapeAt(s.nodes, b);
    forall p, k | 0 <= p < |t.lists| && IsListKind(k) ensures ListAt(t, p, k) {
      assert ListAt(s, p, k);
      DetachListAt(s, b, p, k);
    }
    forall r | 0 <= r < |t.lists| ensures RoomAt(t, r) {
      assert RoomAt(s, r);
    }
    forall x | 0 <= x < |t.nodes| ensures OpenRoomAt(t, x) {
      assert OpenRoomAt(s, x);
    }
  }

  lemma DetachOwners(s: State, b: Id)
    requires Owners(s) && b < |s.nodes| && !s.nodes[b].disposed
    ensures Owners(Detach(s, b))
  {
    var n := s.nodes[b];
    var t := Detach(s, b);
    forall r | r in t.owner
      ensures t.owner[r] < |t.nodes| && !t.nodes[t.owner[r]].disposed && r in t.nodes[t.owner[r]].owned
    {
      assert r in s.owner && t.owner[r] == s.owner[r] && r !in n.owned;
      assert s.owner[r] != b;
    }
    forall m, r | 0 <= m < |t.nodes| && !t.nodes[m].disposed && r in t.nodes[m].owned
      ensures r in t.owner && t.owner[r] == m
    {
      assert m != b && s.owner[r] == m;
      assert r !in n.owned;
    }
  }

  /** The registry sees only kinds, uuids, workers and who is disposed. */
  lemma RegistryFrame(s: State, t: State, D: set<Id>, E: set<Id>)
    requires Registry(s, D)
    requires |t.nodes| == |s.nodes| && t.byId == s.byId && t.byUuid == s.byUuid
    requires t.load == s.load && t.gauges == s.gauges
    requires forall i :: 0 <= i < |s.nodes| ==>
      t.nodes[i].kind == s.nodes[i].kind && t.nodes[i].uuid == s.nodes[i].uuid && t.nodes[i].wid == s.nodes[i].wid
    requires forall i :: Registered(t, E, i) <==> Registered(s, D, i)
    requires forall i :: i in E ==> i < |t.nodes| && t.nodes[i].disposed
    ensures Registry(t, E)
  {
    assert IdMap(t, E);
    assert UuidMap(t);
    forall w ensures CarriedBy(t.nodes, t.byId, w) == CarriedBy(s.nodes, s.byId, w) {}
    forall g ensures CountedBy(t.nodes, t.byId, g) == CountedBy(s.nodes, s.byId, g) {}
  }

  lemma DetachRegistry(s: State, D: set<Id>, b: Id)
    requires Registry(s, D) && b < |s.nodes| && !s.nodes[b].disposed
    ensures Registry(Detach(s, b), D + {b})
  {
    RegistryFrame(s, Detach(s, b), D, D + {b});
  }

  /** Taking apart a resource that nobody holds is clean. */
  lemma DetachGood(s: State, P: multiset<Id>, D: set<Id>, b: Id)
    requires Ripe(s, P, D, b)
    ensures GoodBut(Detach(s, b), P + multiset(s.nodes[b].Releases()), D + {b}, {})
  {
    DetachBalanced(s, P, b);
    DetachShape(s, b);
    DetachLinks(s, b);
    DetachOwners(s, b);
    DetachRegistry(s, D, b);
  }

  // ---------------------------------------------------------------- one resource unregistered

  lemma UnregisterLoad(s: State, b: Id)
    requires LoadMap(s) && b < |s.nodes| && b in s.byId
    ensures LoadMap(Unregister(s, b))
  {
    var t := Unregister(s, b);
    forall w | w != 0 ensures LoadOf(t.load, w) == |CarriedBy(t.nodes, t.byId, w)| {
      var c := CarriedBy(s.nodes, s.byId, w);
      assert CarriedBy(t.nodes, t.byId, w) == c - {b};
      assert b in c <==> s.nodes[b].wid == w;
    }
  }

  lemma UnregisterGauges(s: State, b: Id)
    requires GaugeMap(s) && b < |s.nodes| && b in s.byId
    ensures GaugeMap(Unregister(s, b))
  {
    var t := Unregister(s, b);
    forall g ensures g in t.gauges && t.gauges[g] == |CountedBy(t.nodes, t.byId, g)| {
      var c := CountedBy(s.nodes, s.byId, g);
      assert CountedBy(t.nodes, t.byId, g) == c - {b};
      assert b in c <==> GaugeOf(s.nodes[b].kind) == Some(g);
    }
  }

  lemma UnregisterMaps(s: State, D: set<Id>, b: Id)
    requires IdMap(s, D + {b}) && UuidMap(s) && b !in D && b < |s.nodes| && s.nodes[b].disposed
    ensures b in s.byId && IdMap(Unregister(s, b), D) && UuidMap(Unregister(s, b))
  {
    assert Registered(s, D + {b}, b);
    var t := Unregister(s, b);
    assert t.byId == s.byId - {b} && t.nodes == s.nodes && t.byUuid == s.byUuid - {s.nodes[b].uuid};
    forall i ensures i in t.byId <==> Registered(t, D, i) {
      assert i in s.byId <==> Registered(s, D + {b}, i);
    }
  }

  lemma UnregisterGood(s: State, P: multiset<Id>, D: set<Id>, b: Id)
    requires GoodBut(s, P, D + {b}, {}) && b !in D && b < |s.nodes| && s.nodes[b].disposed
    ensures GoodBut(Unregister(s, b), P, D, {})
  {
    UnregisterMaps(s, D, b);
    UnregisterLoad(s, b);
    UnregisterGauges(s, b);
    var t := Unregister(s, b);
    GraphFrame(s, t, P, {});
  }

  /** Everything but the registry looks at the nodes, the lists, the owners and the borrows. */
  lemma GraphFrame(s: State, t: State, P: multiset<Id>, z: set<Id>)
    requires Shape(s) && Balanced(s, P) && PositiveBut(s, z) && NoHazard(s) && Links(s) && Owners(s)
    requires t.nodes == s.nodes && t.lists == s.lists && t.owner == s.owner && t.borrows == s.borrows
    ensures Shape(t) && Balanced(t, P) && PositiveBut(t, z) && NoHazard(t) && Links(t) && Owners(t)
  {
    forall i | 0 <= i < |t.nodes| ensures BalancedAt(t, P, i) {
      assert BalancedAt(s, P, i);
    }
    LinksFrame(s, t);
  }

  lemma LinksFrame(s: State, t: State)
    requires Links(s) && t.nodes == s.nodes && t.lists == s.lists
    ensures Links(t)
  {
    forall p, k | 0 <= p < |t.lists| && IsListKind(k) ensures ListAt(t, p, k) {
      assert ListAt(s, p, k);
    }
    forall r | 0 <= r < |t.lists| ensures RoomAt(t, r) {
      assert RoomAt(s, r);
    }
    forall x | 0 <= x < |t.nodes| ensures OpenRoomAt(t, x) {
      assert OpenRoomAt(s, x);
    }
  }

  // ---------------------------------------------------------------- the cascade

  /** Nothing but counters and phases changed. */
  ghost predicate SameGraph(s: State, t: State) {
    && |t.nodes| == |s.nodes| && t.lists == s.lists && t.owner == s.owner
    && t.byId == s.byId && t.byUuid == s.byUuid && t.load == s.load && t.gauges == s.gauges
    && forall i :: 0 <= i < |s.nodes| ==> SameNode(s.nodes[i], t.nodes[i])
  }

  ghost predicate SameNode(a: Node, b: Node) {
    && b.kind == a.kind && b.up == a.up && b.owned == a.owned && b.uuid == a.uuid && b.wid == a.wid
    && b.disposed == a.disposed && b.closed == a.closed && (a.kind in {Room, Member} ==> b.phase == a.phase)
  }

  lemma ShapeSame(s: State, t: State)
    requires Shape(s) && SameGraph(s, t)
    ensures Shape(t)
  {
    forall i | 0 <= i < |t.nodes| ensures ShapeAt(t.nodes, i) {
      assert ShapeAt(s.nodes, i);
      assert SameNode(s.nodes[i], t.nodes[i]);
    }
  }

  lemma LinksSame(s: State, t: State)
    requires Links(s) && SameGraph(s, t)
    ensures Links(t)
  {
    forall p, k | 0 <= p < |t.lists| && IsListKind(k) ensures ListAt(t, p, k) {
      assert ListAt(s, p, k);
      assert forall x :: Child(s.nodes, p, k, x) <==> Child(t.nodes, p, k, x);
    }
    forall r | 0 <= r < |t.lists| ensures RoomAt(t, r) {
      assert RoomAt(s, r);
    }
    forall x | 0 <= x < |t.nodes| ensures OpenRoomAt(t, x) {
      assert OpenRoomAt(s, x);
    }
  }

  lemma OwnersSame(s: State, t: State)
    requires Owners(s) && SameGraph(s, t)
    ensures Owners(t)
  {
    assert forall i :: 0 <= i < |s.nodes| ==> SameNode(s.nodes[i], t.nodes[i]);
  }

  lemma RegistrySame(s: State, t: State, D: set<Id>)
    requires Registry(s, D) && SameGraph(s, t)
    ensures Registry(t, D)
  {
    assert forall i :: 0 <= i < |s.nodes| ==> SameNode(s.nodes[i], t.nodes[i]);
    RegistryFrame(s, t, D, D);
  }

  lemma SameGraphFrame(s: State, t: State, D: set<Id>)
    requires Shape(s) && Links(s) && Registry(s, D) && Owners(s) && SameGraph(s, t)
    ensures Shape(t) && Links(t) && Registry(t, D) && Owners(t)
  {
    ShapeSame(s, t);
    LinksSame(s, t);
    RegistrySame(s, t, D);
    OwnersSame(s, t);
  }

  lemma AddRefsBalanced(s: State, P: multiset<Id>, b: Id)
    requires Balanced(s, P + multiset{b}) && b < |s.nodes|
    ensures !s.nodes[b].disposed && Balanced(AddRefs(s, b, -1), P)
  {
    var t := AddRefs(s, b, -1);
    assert BalancedAt(s, P + multiset{b}, b);
    forall i | 0 <= i < |t.nodes| ensures BalancedAt(t, P, i) {
      assert BalancedAt(s, P + multiset{b}, i);
      InUpdate(s.nodes, b, t.nodes[b], i);
    }
  }

  lemma AddRefsGood(s: State, P: multiset<Id>, D: set<Id>, b: Id)
    requires GoodBut(s, P + multiset{b}, D, {}) && b < |s.nodes|
    ensures !s.nodes[b].disposed && GoodBut(AddRefs(s, b, -1), P, D, {b})
  {
    AddRefsBalanced(s, P, b);
    SameGraphFrame(s, AddRefs(s, b, -1), D);
  }

  lemma ReleasesInRange(s: State, b: Id)
    requires Shape(s) && b < |s.nodes|
    ensures forall x :: x in s.nodes[b].Releases() ==> x < |s.nodes|
  {
    var n := s.nodes[b];
    assert ShapeAt(s.nodes, b);
    forall x | x in n.Releases() ensures x < |s.nodes| {
      assert x in Reverse(n.owned) || x in n.up;
      if x in Reverse(n.owned) {
        assert x in multiset(Reverse(n.owned));
        assert x in n.owned;
      }
    }
  }

  /** A balanced counter below one means that nobody holds the resource. */
  lemma BelowOneIsRipe(s: State, P: multiset<Id>, D: set<Id>, b: Id)
    requires GoodBut(s, P, D, {b}) && b < |s.nodes| && !s.nodes[b].disposed && s.nodes[b].refs < 1
    ensures Ripe(s, P, D, b)
  {
    assert BalancedAt(s, P, b);
  }

  /** Once the new counter agrees with the holders, the rest of the call keeps the invariant. */
  lemma {:induction false} RefLkGood(s: State, P: multiset<Id>, D: set<Id>, b: Id, n: int)
    requires b < |s.nodes| && !s.nodes[b].disposed && GoodBut(AddRefs(s, b, n), P, D, {b})
    ensures GoodBut(RefLk(s, b, n), P, D, {})
    decreases AliveSet(s.nodes), 1
  {
    if s.nodes[b].refs + n < 1 {
      BelowOneIsRipe(AddRefs(s, b, n), P, D, b);
      DisposeGood(s, P, D, b, n);
    }
  }

  /** Disposing a resource that nobody holds keeps the invariant, all the way up. */
  lemma {:induction false} DisposeGood(s: State, P: multiset<Id>, D: set<Id>, b: Id, n: int)
    requires b < |s.nodes| && Ripe(AddRefs(s, b, n), P, D, b) && s.nodes[b].refs + n < 1
    ensures GoodBut(RefLk(s, b, n), P, D, {}) && RefLk(s, b, n).nodes[b].disposed
    decreases AliveSet(s.nodes), 0
  {
    hide GoodBut, Ripe, Evolves, SameClosed, Untouched, RefLk, RefAllLk, Detach, Unregister;
    var s1 := AddRefs(s, b, n);
    var s2 := Detach(s1, b);
    var ids := s.nodes[b].Releases();
    var s3 := RefAllLk(s2, ids);
    RipeParts(s1, P, D, b);
    RefLkUnfold(s, b, n);
    DetachFrame(s, b, n);
    DetachGood(s1, P, D, b);
    assert b in AliveSet(s.nodes);
    ReleasesInRange(s1, b);
    SameSize(s, s2);
    RefAllLkGood(s2, P, D + {b}, ids);
    AddRefsShape(s, b, n);
    RefAllReleases(s, b, n);
    StaysDisposed(s2, s3, b);
    UnregisterGood(s3, P, D, b);
    UnregisterFrame(s3, b);
  }

  lemma AddRefsShape(s: State, b: Id, n: int)
    requires b < |s.nodes| && Shape(AddRefs(s, b, n))
    ensures Shape(s)
  {
    EvolvesShape(AddRefs(s, b, n), s);
  }

  lemma RipeParts(s: State, P: multiset<Id>, D: set<Id>, b: Id)
    requires Ripe(s, P, D, b)
    ensures b < |s.nodes| && !s.nodes[b].disposed && Shape(s) && b !in D
  {
  }

  lemma SameSize(s: State, t: State)
    requires Evolves(s, t)
    ensures |t.nodes| == |s.nodes|
  {
  }

  lemma StaysDisposed(s: State, t: State, b: Id)
    requires Evolves(s, t) && b < |s.nodes| && s.nodes[b].disposed
    ensures b < |t.nodes| && t.nodes[b].disposed
  {
    assert EvolvesTo(s.nodes[b], t.nodes[b]);
  }

  lemma {:induction false} RefAllLkGood(s: State, P: multiset<Id>, D: set<Id>, ids: seq<Id>)
    requires GoodBut(s, P + multiset(ids), D, {})
    requires forall x :: x in ids ==> x < |s.nodes|
    ensures GoodBut(RefAllLk(s, ids), P, D, {})
    decreases AliveSet(s.nodes), |ids| + 1
  {
    if ids == [] {
      assert P + multiset(ids) == P;
    } else {
      assert ids == [ids[0]] + ids[1..];
      var Q := P + multiset(ids[1..]);
      assert P + multiset(ids) == Q + multiset{ids[0]};
      assert ids[0] in ids && forall x :: x in ids[1..] ==> x in ids;
      AddRefsGood(s, Q, D, ids[0]);
      RefLkGood(s, Q, D, ids[0], -1);
      RefAllLkGood(RefLk(s, ids[0], -1), P, D, ids[1..]);
    }
  }

  // ---------------------------------------------------------------- what the cascade leaves alone

  /** The distance from the router; a resource only holds resources of smaller rank. */
  function Rank(k: Kind): nat {
    match k
    case Router => 0
    case Room => 1
    case Transport => 1
    case Observer => 1
    case Producer => 2
    case Consumer => 3
    case Member => 4
  }

  ghost predicate EvolvesTo(a: Node, b: Node) {
    && b == a.(refs := b.refs, closed := b.closed, disposed := b.disposed)
    && (a.disposed ==> b.disposed) && (a.closed ==> b.closed)
  }

  /** Nothing is created, reopened or revived, and nobody else's references change. */
  ghost predicate Evolves(s: State, t: State) {
    && |t.nodes| == |s.nodes| && |t.lists| == |s.lists| && t.borrows == s.borrows
    && forall i :: 0 <= i < |s.nodes| ==> EvolvesTo(s.nodes[i], t.nodes[i])
  }

  ghost predicate SameClosed(s: State, t: State) {
    |t.nodes| == |s.nodes| && forall i :: 0 <= i < |s.nodes| ==> t.nodes[i].closed == s.nodes[i].closed
  }

  lemma EvolvesTrans(s: State, t: State, u: State)
    requires Evolves(s, t) && Evolves(t, u)
    ensures Evolves(s, u)
  {
    forall i | 0 <= i < |s.nodes| ensures EvolvesTo(s.nodes[i], u.nodes[i]) {
      assert EvolvesTo(s.nodes[i], t.nodes[i]) && EvolvesTo(t.nodes[i], u.nodes[i]);
    }
  }

  lemma EvolvesShape(s: State, t: State)
    requires Shape(s) && Evolves(s, t)
    ensures Shape(t)
  {
    forall i | 0 <= i < |t.nodes| ensures ShapeAt(t.nodes, i) {
      assert ShapeAt(s.nodes, i);
      assert forall j :: 0 <= j < |s.nodes| ==> EvolvesTo(s.nodes[j], t.nodes[j]);
    }
  }

  ghost predicate Untouched(s: State, t: State, r: nat) {
    |t.nodes| == |s.nodes| && forall x :: 0 <= x < |s.nodes| && Rank(s.nodes[x].kind) >= r ==> t.nodes[x] == s.nodes[x]
  }

  lemma ReleasesRank(s: State, b: Id)
    requires Shape(s) && b < |s.nodes|
    ensures forall x :: x in s.nodes[b].Releases() ==> x < |s.nodes| && Rank(s.nodes[x].kind) < Rank(s.nodes[b].kind)
  {
    var n := s.nodes[b];
    assert ShapeAt(s.nodes, b);
    ReleasesInRange(s, b);
    forall x | x in n.Releases() ensures Rank(s.nodes[x].kind) < Rank(n.kind) {
      ReleasedFrom(n, x);
      if x in n.up {
        var j :| 0 <= j < |n.up| && n.up[j] == x;
      } else {
        assert x in n.owned;
      }
    }
  }

  lemma ReleasedFrom(n: Node, x: Id)
    requires x in n.Releases()
    ensures x in n.up || x in n.owned
  {
    if x !in n.up {
      assert x in Reverse(n.owned);
      assert x in multiset(Reverse(n.owned));
      assert x in multiset(n.owned);
    }
  }

  lemma DetachFrame(s: State, b: Id, n: int)
    requires b < |s.nodes|
    ensures Evolves(s, Detach(AddRefs(s, b, n), b)) && SameClosed(s, Detach(AddRefs(s, b, n), b))
    ensures forall x :: 0 <= x < |s.nodes| && x != b ==> Detach(AddRefs(s, b, n), b).nodes[x] == s.nodes[x]
    ensures var t := Detach(AddRefs(s, b, n), b); AliveSet(t.nodes) == AliveSet(s.nodes) - {b} && |t.nodes| == |s.nodes| && t.nodes[b].disposed
  {
  }

  lemma UnregisterFrame(s: State, b: Id)
    requires b < |s.nodes|
    ensures var t := Unregister(s, b); t.nodes == s.nodes && t.lists == s.lists && t.borrows == s.borrows
  {
  }

  /** From `s` to `t` only `b` and resources of smaller rank changed, and nothing was closed. */
  ghost predicate FrameAt(s: State, t: State, b: Id)
    requires b < |s.nodes|
  {
    && Evolves(s, t) && SameClosed(s, t)
    && forall x :: 0 <= x < |s.nodes| && x != b && Rank(s.nodes[x].kind) >= Rank(s.nodes[b].kind) ==>
         t.nodes[x] == s.nodes[x]
  }

  lemma ComposeFrame(s: State, s2: State, s3: State, t: State, b: Id)
    requires b < |s.nodes| && Evolves(s, s2) && SameClosed(s, s2)
    requires forall x :: 0 <= x < |s.nodes| && x != b ==> s2.nodes[x] == s.nodes[x]
    requires Evolves(s2, s3) && SameClosed(s2, s3) && Untouched(s2, s3, Rank(s.nodes[b].kind))
    requires t.nodes == s3.nodes && t.lists == s3.lists && t.borrows == s3.borrows
    ensures FrameAt(s, t, b)
  {
    EvolvesTrans(s, s2, s3);
  }

  lemma {:induction false} RefLkFrame(s: State, b: Id, n: int)
    requires Shape(s) && b < |s.nodes|
    ensures FrameAt(s, RefLk(s, b, n), b)
    decreases AliveSet(s.nodes), 1
  {
    if !s.nodes[b].disposed && s.nodes[b].refs + n < 1 {
      RefLkUnfold(s, b, n);
      var s2 := Detach(AddRefs(s, b, n), b);
      var s3 := RefAllLk(s2, s.nodes[b].Releases());
      RefAllReleases(s, b, n);
      UnregisterFrame(s3, b);
      DetachFrame(s, b, n);
      ComposeFrame(s, s2, s3, RefLk(s, b, n), b);
    }
  }

  lemma {:induction false} RefAllReleases(s: State, b: Id, n: int)
    requires Shape(s) && b < |s.nodes| && !s.nodes[b].disposed
    ensures
      var s2 := Detach(AddRefs(s, b, n), b);
      var s3 := RefAllLk(s2, s.nodes[b].Releases());
      Evolves(s2, s3) && SameClosed(s2, s3) && Untouched(s2, s3, Rank(s.nodes[b].kind))
    decreases AliveSet(s.nodes), 0
  {
    var s2 := Detach(AddRefs(s, b, n), b);
    DetachFrame(s, b, n);
    EvolvesShape(s, s2);
    ReleasesRank(s, b);
    assert b in AliveSet(s.nodes);
    forall x | x in s.nodes[b].Releases() ensures Rank(s2.nodes[x].kind) < Rank(s.nodes[b].kind) {
      assert EvolvesTo(s.nodes[x], s2.nodes[x]);
    }
    RefAllLkFrame(s2, s.nodes[b].Releases(), Rank(s.nodes[b].kind));
  }

  lemma RefLkUnfold(s: State, b: Id, n: int)
    requires b < |s.nodes| && !s.nodes[b].disposed && s.nodes[b].refs + n < 1
    ensures RefLk(s, b, n) == Unregister(RefAllLk(Detach(AddRefs(s, b, n), b), s.nodes[b].Releases()), b)
  {
  }

  lemma {:induction false} RefAllLkFrame(s: State, ids: seq<Id>, r: nat)
    requires Shape(s) && forall x :: x in ids ==> x < |s.nodes| && Rank(s.nodes[x].kind) < r
    ensures Evolves(s, RefAllLk(s, ids)) && SameClosed(s, RefAllLk(s, ids))
    ensures Untouched(s, RefAllLk(s, ids), r)
    decreases AliveSet(s.nodes), |ids| + 1
  {
    if ids != [] {
      assert ids[0] in ids && forall x :: x in ids[1..] ==> x in ids;
      var t := RefLk(s, ids[0], -1);
      RefLkFrame(s, ids[0], -1);
      assert FrameAt(s, t, ids[0]);
      EvolvesShape(s, t);
      assert forall i :: 0 <= i < |s.nodes| ==> EvolvesTo(s.nodes[i], t.nodes[i]);
      RefAllLkFrame(t, ids[1..], r);
      EvolvesTrans(s, t, RefAllLk(s, ids));
    }
  }
}
