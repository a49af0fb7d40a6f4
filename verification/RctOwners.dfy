/**
 The owner index (src/rct/rct_room.c): what a close event does to it, and that it never
 mentions a disposed resource or member.
 */
module RctOwners {
  import opened RctState
  import opened RctRefs
  import opened RctInvariant
  import opened RctRelease
  import opened RctClose
  import opened RctCascade
  import opened RctSteps
  import opened RctCreation
  import opened RctProtocol

  // ---------------------------------------------------------------- cascades below members

  lemma {:induction false} RefLkOwner(s: State, b: Id, n: int)
    requires Shape(s) && b < |s.nodes| && s.nodes[b].kind != Member
    ensures RefLk(s, b, n).owner == s.owner
    decreases AliveSet(s.nodes), 1
  {
    if !s.nodes[b].disposed && s.nodes[b].refs + n < 1 {
      RefLkUnfold(s, b, n);
      DisposeOwner(s, b, n);
    }
  }

  lemma {:induction false} DisposeOwner(s: State, b: Id, n: int)
    requires Shape(s) && b < |s.nodes| && s.nodes[b].kind != Member && !s.nodes[b].disposed
    ensures Unregister(RefAllLk(Detach(AddRefs(s, b, n), b), s.nodes[b].Releases()), b).owner == s.owner
    decreases AliveSet(s.nodes), 0
  {
    hide RefAllLk, RefLk, Evolves, Detach, Unregister, Shape;
    var s2 := Detach(AddRefs(s, b, n), b);
    var s3 := RefAllLk(s2, s.nodes[b].Releases());
    DetachFrame(s, b, n);
    EvolvesShape(s, s2);
    ReleasesRank(s, b);
    DetachOwner(s, b, n);
    assert b in AliveSet(s.nodes);
    forall x | x in s.nodes[b].Releases() ensures s2.nodes[x].kind != Member {
      EvolvesAt(s, s2, x);
      assert Rank(s.nodes[x].kind) < Rank(s.nodes[b].kind) <= 4;
    }
    RefAllLkOwner(s2, s.nodes[b].Releases());
    UnregisterOwner(s3, b);
  }

  lemma DetachOwner(s: State, b: Id, n: int)
    requires Shape(s) && b < |s.nodes| && s.nodes[b].kind != Member
    ensures Detach(AddRefs(s, b, n), b).owner == s.owner
  {
    hide Unlink;
    assert ShapeAt(s.nodes, b);
    assert s.nodes[b].owned == [];
  }

  lemma UnregisterOwner(s: State, b: Id)
    requires b < |s.nodes|
    ensures Unregister(s, b).owner == s.owner
  {
  }

  lemma {:induction false} RefAllLkOwner(s: State, ids: seq<Id>)
    requires Shape(s) && forall x :: x in ids ==> x < |s.nodes| && s.nodes[x].kind != Member
    ensures RefAllLk(s, ids).owner == s.owner
    decreases AliveSet(s.nodes), |ids| + 1
  {
    if ids != [] {
      var t := RefLk(s, ids[0], -1);
      assert ids[0] in ids && forall x :: x in ids[1..] ==> x in ids;
      RefLkOwner(s, ids[0], -1);
      RefLkFrame(s, ids[0], -1);
      assert FrameAt(s, t, ids[0]);
      EvolvesShape(s, t);
      assert forall i :: 0 <= i < |s.nodes| ==> EvolvesTo(s.nodes[i], t.nodes[i]);
      RefAllLkOwner(t, ids[1..]);
    }
  }

  // ---------------------------------------------------------------- dropping one resource

  /** Neither side of the index mentions `r`. */
  ghost predicate NotMentioned(s: State, r: Id) {
    r !in s.owner && forall m :: 0 <= m < |s.nodes| && !s.nodes[m].disposed ==> r !in s.nodes[m].owned
  }

  /** Every member keeps what it owned, apart from `gone`. */
  ghost predicate OthersKept(s: State, t: State, gone: set<Id>) {
    && |t.nodes| == |s.nodes| && t.owner == s.owner - gone
    && forall m :: 0 <= m < |s.nodes| && s.nodes[m].kind == Member ==>
         t.nodes[m].disposed == s.nodes[m].disposed
         && forall x :: x !in gone ==> multiset(t.nodes[m].owned)[x] == multiset(s.nodes[m].owned)[x]
  }

  ghost predicate SameKinds(s: State, t: State) {
    |t.nodes| == |s.nodes| && forall i :: 0 <= i < |s.nodes| ==> t.nodes[i].kind == s.nodes[i].kind
  }

  lemma DropPrepare(s: State, r: Id)
    requires Inv(s) && r in s.owner
    ensures
      var m := s.owner[r];
      && Found(s, m, Member) && !s.nodes[m].disposed && r < |s.nodes| && Ownable(s.nodes[r].kind)
      && var u := SetOwned(s, m, Without(s.nodes[m].owned, r), s.owner - {r});
         var ids := Copies(r, multiset(s.nodes[m].owned)[r]);
         DropOwner(s, r) == RefAllLk(u, ids) && GoodBut(u, multiset(ids), {}, {}) && Settled(u, multiset{}) && Slots(u)
  {
    hide GoodBut, Settled, Slots, RefAllLk, SetOwned, Without, Copies;
    var m := s.owner[r];
    GoodParts(s, multiset{});
    OwnerIsMember(s, r);
    var l := Without(s.nodes[m].owned, r);
    var ids := Copies(r, multiset(s.nodes[m].owned)[r]);
    WithoutOwned(s, m, r);
    DropOwnersAgree(s, m, r, l);
    SetOwnedGood(s, multiset{}, m, l, s.owner - {r}, multiset(ids));
    SetOwnedInv(s, m, l, s.owner - {r});
    DropOwnerIs(s, r);
  }

  lemma {:induction false} WithoutMembers(l: seq<Id>, x: Id)
    ensures forall y :: y in Without(l, x) ==> y in l
  {
    if l != [] { WithoutMembers(l[1..], x); }
  }

  lemma OwnerIsMember(s: State, r: Id)
    requires Shape(s) && Owners(s) && IdMap(s, {}) && r in s.owner
    ensures var m := s.owner[r];
      && Found(s, m, Member) && !s.nodes[m].disposed && r < |s.nodes| && Ownable(s.nodes[r].kind) && r in s.nodes[m].owned
  {
    var m := s.owner[r];
    assert r in s.nodes[m].owned;
    assert ShapeAt(s.nodes, m);
    assert Registered(s, {}, m);
  }

  lemma WithoutOwned(s: State, m: Id, r: Id)
    requires Shape(s) && m < |s.nodes|
    ensures var n := s.nodes[m]; var l := Without(n.owned, r); var ids := Copies(r, multiset(n.owned)[r]);
      && (forall x :: x in l ==> x in n.owned && x < |s.nodes| && Ownable(s.nodes[x].kind))
      && multiset{} + multiset(n.owned) == multiset(ids) + multiset(l)
  {
    hide Without, Copies;
    var n := s.nodes[m];
    var l := Without(n.owned, r);
    var ids := Copies(r, multiset(n.owned)[r]);
    assert ShapeAt(s.nodes, m);
    forall x | x in l ensures x in n.owned {
      assert multiset(l)[x] >= 1;
      assert multiset(n.owned)[x] >= 1;
    }
    forall x ensures (multiset{} + multiset(n.owned))[x] == (multiset(ids) + multiset(l))[x] {
      if x != r { assert x !in ids; }
    }
  }

  lemma DropOwnerIs(s: State, r: Id)
    requires r in s.owner && Found(s, s.owner[r], Member)
    ensures var m := s.owner[r];
      DropOwner(s, r) == RefAllLk(SetOwned(s, m, Without(s.nodes[m].owned, r), s.owner - {r}),
                                  Copies(r, multiset(s.nodes[m].owned)[r]))
  {
  }

  lemma DropOwnersAgree(s: State, m: Id, r: Id, l: seq<Id>)
    requires Owners(s) && r in s.owner && m == s.owner[r] && r !in l
    requires forall x :: x in l ==> x in s.nodes[m].owned
    requires forall x :: x != r && x in s.nodes[m].owned ==> multiset(l)[x] >= 1
    ensures Owners(SetOwned(s, m, l, s.owner - {r}))
  {
    var t := SetOwned(s, m, l, s.owner - {r});
    forall x | x in t.owner
      ensures t.owner[x] < |t.nodes| && !t.nodes[t.owner[x]].disposed && x in t.nodes[t.owner[x]].owned
    {
      assert x in s.owner && t.owner[x] == s.owner[x];
      if s.owner[x] == m { assert x in multiset(l); }
    }
  }

  /** A close event for `r` takes it out of both sides of the index and touches nobody else's
      entries, even when the released reference was the last one. */
  lemma {:induction false} DropOwnerInv(s: State, r: Id)
    requires Inv(s)
    ensures var t := DropOwner(s, r); Inv(t) && NotMentioned(t, r) && OthersKept(s, t, {r}) && t.borrows == s.borrows
    ensures SameKinds(s, DropOwner(s, r))
  {
    hide GoodBut, Settled, Slots, RefAllLk, DropOwner, SetOwned;
    if r in s.owner {
      DropPrepare(s, r);
      var m := s.owner[r];
      var u := SetOwned(s, m, Without(s.nodes[m].owned, r), s.owner - {r});
      var ids := Copies(r, multiset(s.nodes[m].owned)[r]);
      DropCascade(s, u, ids, m, r);
    } else {
      DropNothing(s, r);
    }
  }

  lemma DropNothing(s: State, r: Id)
    requires Inv(s) && r !in s.owner
    ensures DropOwner(s, r) == s && NotMentioned(s, r) && OthersKept(s, s, {r})
  {
    assert s.owner - {r} == s.owner;
  }

  lemma {:induction false} DropCascade(s: State, u: State, ids: seq<Id>, m: Id, r: Id)
    requires Inv(s) && GoodBut(u, multiset(ids), {}, {}) && Settled(u, multiset{}) && Slots(u)
    requires m < |s.nodes| && s.nodes[m].kind == Member && r < |s.nodes| && Ownable(s.nodes[r].kind)
    requires u == SetOwned(s, m, Without(s.nodes[m].owned, r), s.owner - {r})
    requires forall x :: x in ids ==> x == r
    ensures var t := RefAllLk(u, ids);
      && Inv(t) && NotMentioned(t, r) && OthersKept(s, t, {r}) && t.borrows == s.borrows
      && SameKinds(s, t)
  {
    hide GoodBut, Settled, Slots, RefAllLk, SetOwned;
    var t := RefAllLk(u, ids);
    assert multiset{} + multiset(ids) == multiset(ids);
    SetOwnedSize(s, m, Without(s.nodes[m].owned, r), s.owner - {r});
    GoodParts(u, multiset(ids));
    RefAllLkGood(u, multiset{}, {}, ids);
    RefAllLkFrame(u, ids, Rank(Member));
    RefAllLkOwner(u, ids);
    RefAllLkRooms(u, ids);
    CascadeInvFrom(u, t);
    DropKept(s, u, t, m, r);
  }

  lemma SetOwnedSize(s: State, m: Id, l: seq<Id>, owner: map<Id, Id>)
    requires m < |s.nodes|
    ensures var u := SetOwned(s, m, l, owner);
      && |u.nodes| == |s.nodes| && u.owner == owner && u.borrows == s.borrows && |u.lists| == |s.lists|
      && (forall i :: 0 <= i < |s.nodes| ==>
            u.nodes[i].kind == s.nodes[i].kind && u.nodes[i].disposed == s.nodes[i].disposed
            && u.nodes[i].owned == if i == m then l else s.nodes[i].owned)
  {
  }

  lemma CascadeInvFrom(u: State, t: State)
    requires Settled(u, multiset{}) && Slots(u) && Good(t) && Evolves(u, t) && SameClosed(u, t) && RoomsShrink(u, t)
    ensures Inv(t)
  {
    assert forall i :: 0 <= i < |u.nodes| ==> EvolvesTo(u.nodes[i], t.nodes[i]);
    SlotsKept(u, t);
  }

  /** An index that does not mention `r` agrees with member lists that do not either. */
  lemma UnindexedNotMentioned(t: State, r: Id)
    requires Good(t) && r !in t.owner
    ensures NotMentioned(t, r)
  {
  }

  lemma DropKept(s: State, u: State, t: State, m: Id, r: Id)
    requires Good(t) && m < |s.nodes|
    requires u == SetOwned(s, m, Without(s.nodes[m].owned, r), s.owner - {r})
    requires Evolves(u, t) && Untouched(u, t, Rank(Member)) && t.owner == u.owner
    ensures NotMentioned(t, r) && OthersKept(s, t, {r}) && SameKinds(s, t)
  {
    hide GoodBut, NotMentioned, SetOwned;
    SetOwnedSize(s, m, Without(s.nodes[m].owned, r), s.owner - {r});
    UnindexedNotMentioned(t, r);
    assert forall i :: 0 <= i < |u.nodes| ==> EvolvesTo(u.nodes[i], t.nodes[i]);
    forall k | 0 <= k < |s.nodes| && s.nodes[k].kind == Member
      ensures t.nodes[k].disposed == s.nodes[k].disposed
      ensures forall x :: x != r ==> multiset(t.nodes[k].owned)[x] == multiset(s.nodes[k].owned)[x]
    {
      assert t.nodes[k] == u.nodes[k];
    }
  }

  // ---------------------------------------------------------------- the whole event

  /** _collect_dependent_resource_ids_lk for a list of producers. */
  function CollectProducers(s: State, l: seq<Id>): seq<Id> {
    if l == [] then [] else [l[0]] + ListOf(s, l[0], Consumer) + CollectProducers(s, l[1..])
  }

  function CollectTransports(s: State, l: seq<Id>): seq<Id> {
    if l == [] then []
    else [l[0]] + CollectProducers(s, ListOf(s, l[0], Producer)) + CollectTransports(s, l[1..])
  }

  /** The resource itself and what _collect_dependent_resource_ids_lk finds below it. */
  function Collect(s: State, r: Id): seq<Id> {
    if r !in s.byId || r >= |s.nodes| then [r]
    else match s.nodes[r].kind
      case Router => [r] + CollectTransports(s, ListOf(s, r, Transport)) + ListOf(s, r, Room)
      case Transport => [r] + CollectProducers(s, ListOf(s, r, Producer))
      case Producer => [r] + ListOf(s, r, Consumer)
      case _ => [r]
  }

  function Elements(ids: seq<Id>): set<Id> {
    set x | x in ids
  }

  function DropAll(s: State, ids: seq<Id>): State
    decreases |ids|
  {
    if ids == [] then s else DropAll(DropOwner(s, ids[0]), ids[1..])
  }

  /** _on_resource_closed without anybody else in between. */
  function OnResourceClosed(s: State, r: Id): State {
    DropAll(s, Collect(s, r))
  }

  lemma NotMentionedKept(s: State, t: State, r: Id, gone: set<Id>)
    requires NotMentioned(s, r) && OthersKept(s, t, gone) && Good(t)
    ensures NotMentioned(t, r)
  {
    UnindexedNotMentioned(t, r);
  }

  lemma KeptTwice(s: State, t: State, u: State, g: set<Id>, h: set<Id>)
    requires OthersKept(s, t, g) && OthersKept(t, u, h)
    requires SameKinds(s, t)
    ensures OthersKept(s, u, g + h)
  {
    assert u.owner == s.owner - (g + h);
  }

  lemma {:induction false} DropAllInv(s: State, ids: seq<Id>)
    requires Inv(s)
    ensures var t := DropAll(s, ids);
      Inv(t) && OthersKept(s, t, Elements(ids)) && forall x :: x in ids ==> NotMentioned(t, x)
    decreases |ids|
  {
    hide GoodBut, Settled, Slots, DropOwner, NotMentioned, OthersKept;
    if ids == [] {
      KeptSame(s);
      var all := Elements(ids);
      assert all == {};
    } else {
      var t := DropOwner(s, ids[0]);
      DropOwnerInv(s, ids[0]);
      DropAllInv(t, ids[1..]);
      var rest := Elements(ids[1..]);
      var all := Elements(ids);
      KeptTwice(s, t, DropAll(s, ids), {ids[0]}, rest);
      assert {ids[0]} + rest == all by { assert ids == [ids[0]] + ids[1..]; }
      NotMentionedKept(t, DropAll(s, ids), ids[0], rest);
      forall x | x in ids ensures NotMentioned(DropAll(s, ids), x) {
        if x != ids[0] { assert x in ids[1..]; }
      }
    }
  }

  lemma KeptSame(s: State)
    ensures OthersKept(s, s, {})
  {
    assert s.owner - {} == s.owner;
  }

  /** A close event for `r`: afterwards neither side of the index mentions `r` or anything that
      was collected below it, and all other entries are as before. */
  lemma OnResourceClosedInv(s: State, r: Id)
    requires Inv(s)
    ensures var t := OnResourceClosed(s, r);
      Inv(t) && OthersKept(s, t, Elements(Collect(s, r))) && NotMentioned(t, r)
      && forall x :: x in Collect(s, r) ==> NotMentioned(t, x)
  {
    DropAllInv(s, Collect(s, r));
    assert r in Collect(s, r);
  }

  lemma {:induction false} CollectProducersHas(s: State, l: seq<Id>, x: Id)
    ensures x in CollectProducers(s, l) <==> x in l || exists p :: p in l && x in ListOf(s, p, Consumer)
  {
    if l != [] { CollectProducersHas(s, l[1..], x); }
  }

  /** Below a transport, collection finds its producers and their consumers: the consumers that
      merely receive on the transport are not part of it. */
  lemma CollectTransport(s: State, r: Id, x: Id)
    requires Good(s) && Found(s, r, Transport) && x < |s.nodes| && !s.nodes[x].disposed
    ensures x in Collect(s, r) <==>
      || x == r
      || (s.nodes[x].kind == Producer && r in s.nodes[x].up)
      || (exists p :: p in s.nodes[x].up && p < |s.nodes| && s.nodes[p].kind == Producer && r in s.nodes[p].up)
  {
    var l := ListOf(s, r, Producer);
    CollectProducersHas(s, l, x);
    assert ListAt(s, r, Producer);
    assert ShapeAt(s.nodes, x);
    if s.nodes[x].kind == Consumer {
      var p := s.nodes[x].up[0];
      HeldIsAlive(s, multiset{}, x, p);
      assert ListAt(s, p, Consumer);
      assert Child(s.nodes, p, Consumer, x);
      assert s.nodes[p].kind == Producer;
      assert Child(s.nodes, r, Producer, p) <==> r in s.nodes[p].up;
    }
    forall p | p in s.nodes[x].up && p < |s.nodes| && s.nodes[p].kind == Producer && r in s.nodes[p].up
      ensures p in l && x in ListOf(s, p, Consumer)
    {
      var j :| 0 <= j < |s.nodes[x].up| && s.nodes[x].up[j] == p;
      assert s.nodes[p].kind == ParentKinds(s.nodes[x].kind)[j];
    }
    forall p | p in l && x in ListOf(s, p, Consumer)
      ensures p in s.nodes[x].up && p < |s.nodes| && s.nodes[p].kind == Producer && r in s.nodes[p].up
    {
      assert Child(s.nodes, r, Producer, p);
      assert ListAt(s, p, Consumer);
      assert Child(s.nodes, p, Consumer, x);
    }
  }

  /** The index never mentions anything that was disposed. */
  lemma IndexIsAlive(s: State, r: Id)
    requires Good(s) && r in s.owner
    ensures r < |s.nodes| && !s.nodes[r].disposed && s.owner[r] < |s.nodes| && !s.nodes[s.owner[r]].disposed
    ensures s.nodes[s.owner[r]].kind == Member
  {
    var m := s.owner[r];
    assert ShapeAt(s.nodes, m);
    assert r in s.nodes[m].owned;
    HeldIsAlive(s, multiset{}, m, r);
  }
}
