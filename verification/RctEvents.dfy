/**
 The close event of src/rct/rct_room.c in terms of the graph alone: which resources the members
 stop owning when a resource is closed, and that nothing else changes.
 */
module RctEvents {
  import opened RctState
  import opened RctRefs
  import opened RctInvariant
  import opened RctRelease
  import opened RctClose
  import opened RctCascade
  import opened RctSteps
  import opened RctCreation
  import opened RctProtocol
  import opened RctOwners
  import opened RctSurvival

  // ---------------------------------------------------------------- what depends on a resource

  predicate IsOpenRoom(s: State, r: Id, x: Id) {
    Alive(s, x) && s.nodes[x].kind == Room && s.nodes[x].up == [r] && !s.nodes[x].closed
  }

  predicate IsTransport(s: State, r: Id, x: Id) {
    Alive(s, x) && s.nodes[x].kind == Transport && s.nodes[x].up == [r]
  }

  predicate Sends(s: State, t: Id, x: Id) {
    Alive(s, x) && s.nodes[x].kind == Producer && s.nodes[x].up == [t]
  }

  /** `x` receives what the producer `p` sends, on whatever transport. */
  predicate Receives(s: State, p: Id, x: Id) {
    Alive(s, x) && s.nodes[x].kind == Consumer && s.nodes[x].up != [] && s.nodes[x].up[0] == p
  }

  ghost predicate OfTransport(s: State, t: Id, x: Id) {
    Sends(s, t, x) || exists p: Id :: Sends(s, t, p) && Receives(s, p, x)
  }

  /** A router takes with it its open room, its transports and what they carry, a transport its producers
      and their consumers, a producer its consumers; any other resource, or one that is disposed already,
      only itself. */
  ghost predicate Dependent(s: State, r: Id, x: Id) {
    || x == r
    || (Alive(s, r) && match s.nodes[r].kind
        case Router => IsOpenRoom(s, r, x) || IsTransport(s, r, x) || exists t: Id :: IsTransport(s, r, t) && OfTransport(s, t, x)
        case Transport => OfTransport(s, r, x)
        case Producer => Receives(s, r, x)
        case _ => false)
  }

  // ---------------------------------------------------------------- the lists

  lemma ListIs(s: State, p: Id, k: Kind, x: Id)
    requires Links(s) && Shape(s) && IsListKind(k) && p < |s.nodes|
    ensures x in ListOf(s, p, k) <==> Child(s.nodes, p, k, x)
  {
    assert ListAt(s, p, k);
  }

  lemma TransportsAre(s: State, r: Id, x: Id)
    requires Links(s) && Shape(s) && r < |s.nodes|
    ensures x in ListOf(s, r, Transport) <==> IsTransport(s, r, x)
  {
    hide Links;
    ListIs(s, r, Transport, x);
    if x < |s.nodes| { assert ShapeAt(s.nodes, x); }
  }

  lemma ProducersAre(s: State, r: Id, x: Id)
    requires Links(s) && Shape(s) && r < |s.nodes|
    ensures x in ListOf(s, r, Producer) <==> Sends(s, r, x)
  {
    hide Links;
    ListIs(s, r, Producer, x);
    if x < |s.nodes| { assert ShapeAt(s.nodes, x); }
  }

  lemma ConsumersAre(s: State, p: Id, x: Id)
    requires Links(s) && Shape(s) && p < |s.nodes| && s.nodes[p].kind == Producer
    ensures x in ListOf(s, p, Consumer) <==> Receives(s, p, x)
  {
    hide Links;
    ListIs(s, p, Consumer, x);
    if x < |s.nodes| { assert ShapeAt(s.nodes, x); }
  }

  lemma RoomIs(s: State, r: Id, x: Id)
    requires Links(s) && Slots(s) && Shape(s) && r < |s.nodes|
    ensures x in ListOf(s, r, Room) <==> IsOpenRoom(s, r, x)
  {
    assert RoomAt(s, r) && SlotAt(s, r);
    if IsOpenRoom(s, r, x) { assert OpenRoomAt(s, x); }
  }

  lemma {:induction false} TransportsHave(s: State, l: seq<Id>, x: Id)
    ensures x in CollectTransports(s, l) <==>
      x in l || exists t: Id :: t in l && x in CollectProducers(s, ListOf(s, t, Producer))
  {
    if l != [] { TransportsHave(s, l[1..], x); }
  }

  /** What is collected below a transport. */
  lemma BelowTransport(s: State, t: Id, x: Id)
    requires Links(s) && Shape(s) && t < |s.nodes|
    ensures x in CollectProducers(s, ListOf(s, t, Producer)) <==> OfTransport(s, t, x)
  {
    hide Links, Shape;
    var l := ListOf(s, t, Producer);
    CollectProducersHas(s, l, x);
    ProducersAre(s, t, x);
    forall p: Id ensures p in l && x in ListOf(s, p, Consumer) <==> Sends(s, t, p) && Receives(s, p, x) {
      ProducersAre(s, t, p);
      if p in l { ConsumersAre(s, p, x); }
    }
  }

  /** Collection finds the dependents and nothing else. */
  lemma CollectIs(s: State, r: Id, x: Id)
    requires Inv(s)
    ensures x in Collect(s, r) <==> Dependent(s, r, x)
  {
    hide Links, Shape, Slots, OfTransport, Balanced, PositiveBut, NoHazard, Registry, Owners, Settled;
    ById(s);
    if Alive(s, r) {
      match s.nodes[r].kind {
        case Router =>
          RoomIs(s, r, x);
          TransportsAre(s, r, x);
          TransportsHave(s, ListOf(s, r, Transport), x);
          forall t: Id ensures t in ListOf(s, r, Transport) && x in CollectProducers(s, ListOf(s, t, Producer))
            <==> IsTransport(s, r, t) && OfTransport(s, t, x)
          {
            TransportsAre(s, r, t);
            if IsTransport(s, r, t) { BelowTransport(s, t, x); }
          }
        case Transport => BelowTransport(s, r, x);
        case Producer => ConsumersAre(s, r, x);
        case _ =>
      }
    }
  }

  // ---------------------------------------------------------------- the event

  /** No resource changes but in its counter, its disposal and what it owns. */
  ghost predicate OnlyOwned(s: State, t: State) {
    && |t.nodes| == |s.nodes| && t.borrows == s.borrows
    && forall i :: 0 <= i < |s.nodes| ==>
         && t.nodes[i] == s.nodes[i].(refs := t.nodes[i].refs, disposed := t.nodes[i].disposed, owned := t.nodes[i].owned)
         && (s.nodes[i].disposed ==> t.nodes[i].disposed)
  }

  lemma DropOnlyOwned(s: State, r: Id)
    requires Inv(s)
    ensures OnlyOwned(s, DropOwner(s, r))
  {
    hide GoodBut, Settled, Slots, RefAllLk, DropOwner, SetOwned, Without, Copies;
    if r in s.owner {
      DropPrepare(s, r);
      var m := s.owner[r];
      var l := Without(s.nodes[m].owned, r);
      var u := SetOwned(s, m, l, s.owner - {r});
      var ids := Copies(r, multiset(s.nodes[m].owned)[r]);
      SetOwnedKeeps(s, m, l, s.owner - {r});
      GoodParts(u, multiset(ids));
      assert forall x :: x in ids ==> x == r;
      DropRank(s, u, r);
      RefAllLkFrame(u, ids, Rank(Member));
      var t := RefAllLk(u, ids);
      assert forall i :: 0 <= i < |u.nodes| ==> EvolvesTo(u.nodes[i], t.nodes[i]);
    } else {
      DropNothing(s, r);
    }
  }

  lemma DropRank(s: State, u: State, r: Id)
    requires r < |s.nodes| && Ownable(s.nodes[r].kind) && OnlyOwned(s, u)
    ensures r < |u.nodes| && Rank(u.nodes[r].kind) < Rank(Member)
  {
  }

  lemma SetOwnedKeeps(s: State, m: Id, l: seq<Id>, owner: map<Id, Id>)
    requires m < |s.nodes|
    ensures OnlyOwned(s, SetOwned(s, m, l, owner))
  {
  }

  lemma OnlyOwnedTwice(s: State, t: State, u: State)
    requires OnlyOwned(s, t) && OnlyOwned(t, u)
    ensures OnlyOwned(s, u)
  {
  }

  lemma {:induction false} DropAllOnlyOwned(s: State, ids: seq<Id>)
    requires Inv(s)
    ensures OnlyOwned(s, DropAll(s, ids))
    decreases |ids|
  {
    hide Inv, OnlyOwned, DropOwner;
    if ids == [] {
      SameOnlyOwned(s);
    } else {
      DropOwnerInv(s, ids[0]);
      DropOnlyOwned(s, ids[0]);
      DropAllOnlyOwned(DropOwner(s, ids[0]), ids[1..]);
      OnlyOwnedTwice(s, DropOwner(s, ids[0]), DropAll(s, ids));
    }
  }

  lemma SameOnlyOwned(s: State)
    ensures OnlyOwned(s, s)
  {
  }

  /** Who owned `x` goes on owning it, as often as before. */
  ghost predicate Keeps(s: State, t: State, x: Id) {
    && (x in t.owner <==> x in s.owner) && (x in s.owner ==> t.owner[x] == s.owner[x])
    && forall m: Id :: Alive(s, m) && s.nodes[m].kind == Member && m < |t.nodes| ==>
         Alive(t, m) && multiset(t.nodes[m].owned)[x] == multiset(s.nodes[m].owned)[x]
  }

  /** A close event takes exactly the dependents of the closed resource out of both sides of the owner
      index. All other entries stay, nobody's references change apart from the owners', and the
      invariant holds. */
  lemma CloseEventExactly(s: State, r: Id)
    requires Inv(s)
    ensures var t := OnResourceClosed(s, r);
      && Inv(t) && OnlyOwned(s, t)
      && (forall x: Id :: Dependent(s, r, x) ==> NotMentioned(t, x))
      && (forall x: Id :: !Dependent(s, r, x) ==> Keeps(s, t, x) && (NotMentioned(t, x) <==> NotMentioned(s, x)))
  {
    hide Inv, Dependent, Collect, DropAll, OnlyOwned, NotMentioned, Keeps, OthersKept;
    var ids := Collect(s, r);
    var t := OnResourceClosed(s, r);
    OnResourceClosedInv(s, r);
    DropAllOnlyOwned(s, ids);
    forall x: Id ensures x in ids <==> Dependent(s, r, x) { CollectIs(s, r, x); }
    forall x: Id | !Dependent(s, r, x) ensures Keeps(s, t, x) && (NotMentioned(t, x) <==> NotMentioned(s, x)) {
      NotTaken(s, t, Elements(ids), x);
    }
  }

  lemma NotTaken(s: State, t: State, gone: set<Id>, x: Id)
    requires Inv(s) && Inv(t) && OthersKept(s, t, gone) && x !in gone
    ensures Keeps(s, t, x) && (NotMentioned(t, x) <==> NotMentioned(s, x))
  {
    hide Settled, Slots, Shape, Balanced, PositiveBut, NoHazard, Links, Registry;
    MentionedIs(s, x);
    MentionedIs(t, x);
  }

  lemma MentionedIs(s: State, x: Id)
    requires Owners(s)
    ensures NotMentioned(s, x) <==> x !in s.owner
  {
  }
}
