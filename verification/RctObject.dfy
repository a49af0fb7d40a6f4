/**
 The resource graph as the running program keeps it: fields that the lock-held functions of
 src/rct update in place. Every method is proved to make exactly the transition that the
 functions of `RctRefs`, `RctClose` and `RctSteps` describe.
 */
module RctObject {
  import opened RctState
  import opened RctRefs
  import opened RctInvariant
  import opened RctRelease
  import opened RctClose
  import opened RctSteps
  import opened RctOwners
  import opened RctHistory
  import opened RctProtocol
  import opened RctRooms
  import opened RctRollback
  import opened RctRuns

  class Rct {
    var nodes: seq<Node>
    var lists: seq<Lists>
    var byId: set<Id>
    var byUuid: map<Uuid, Id>
    var load: map<Wid, int>
    var gauges: map<Gauge, nat>
    var owner: map<Id, Id>
    var fault: bool
    ghost var borrows: multiset<Id>

    ghost function Model(): State reads this {
      State(nodes, lists, byId, byUuid, load, gauges, owner, borrows, fault)
    }

    constructor ()
      ensures Model() == EMPTY
    {
      nodes, lists, byId, byUuid, load, owner, fault := [], [], {}, map[], map[], map[], false;
      gauges := map[Rooms := 0, RoomUsers := 0, Streams := 0];
      borrows := multiset{};
    }

    // -------------------------------------------------------------- registry

    /** rct_resource_get_number_of_type_lk: a walk over the id map, in any order. */
    method NumberOf(g: Gauge) returns (num: nat)
      ensures num == |CountedBy(nodes, byId, g)|
    {
      num := 0;
      var rest := byId;
      assert CountedBy(nodes, byId - rest, g) == {};
      while rest != {}
        invariant rest <= byId
        invariant num == |CountedBy(nodes, byId - rest, g)|
        decreases |rest|
      {
        hide CountedBy;
        var i :| i in rest;
        CountOneMore(nodes, byId - rest, g, i);
        assert byId - (rest - {i}) == (byId - rest) + {i};
        if i < |nodes| && GaugeOf(nodes[i].kind) == Some(g) {
          num := num + 1;
        }
        rest := rest - {i};
      }
      assert byId - rest == byId;
    }

    /** _resource_gauge_update_lk */
    method GaugeUpdateLk(k: Kind)
      modifies this`gauges
      ensures Model() == Publish(old(Model()), k)
    {
      var g := GaugeOf(k);
      if g.Some? {
        var num := NumberOf(g.value);
        gauges := gauges[g.value := num];
      }
    }

    method AdjustLoadScore(w: Wid, delta: int)
      modifies this`load
      ensures Model() == AdjustLoad(old(Model()), w, delta)
    {
      if w != 0 { load := load[w := LoadOf(load, w) + delta]; }
    }

    /** rct_resource_register_lk */
    method RegisterLk(b: Id)
      requires b < |nodes|
      modifies this`byId, this`byUuid, this`load, this`gauges
      ensures Model() == Register(old(Model()), b)
    {
      byUuid := byUuid[nodes[b].uuid := b];
      byId := byId + {b};
      AdjustLoadScore(nodes[b].wid, 1);
      GaugeUpdateLk(nodes[b].kind);
    }

    /** _resource_unregister_lk */
    method UnregisterLk(b: Id)
      requires Shape(Model()) && b < |nodes|
      modifies this`byId, this`byUuid, this`load, this`gauges
      ensures Model() == Unregister(old(Model()), b) && Shape(Model())
    {
      if b in byId {
        byId := byId - {b};
        byUuid := byUuid - {nodes[b].uuid};
        AdjustLoadScore(nodes[b].wid, -1);
        GaugeUpdateLk(nodes[b].kind);
      }
      SameKindsShape(old(Model()), Model());
    }

    // -------------------------------------------------------------- lists

    /** The pointer walk that takes `b` out of one list of `p`. */
    method UnlinkFrom(p: Id, k: Kind, b: Id)
      requires p < |lists|
      modifies this`lists
      ensures lists == old(lists)[p := old(lists[p]).Put(k, Remove(old(lists[p].Get(k)), b))]
    {
      var l := lists[p].Get(k);
      var i := 0;
      while i < |l| && l[i] != b
        invariant 0 <= i <= |l| && b !in l[..i]
      {
        i := i + 1;
      }
      RemoveAt(l, b, i);
      if i < |l| {
        lists := lists[p := lists[p].Put(k, l[..i] + l[i + 1..])];
      } else {
        assert lists[p].Put(k, l) == lists[p];
      }
    }

    /** Unlinks `b` from each of its parents. */
    method UnlinkAll(up: seq<Id>, k: Kind, b: Id)
      requires forall j :: 0 <= j < |up| ==> up[j] < |lists|
      requires forall i, j :: 0 <= i < j < |up| ==> up[i] != up[j]
      modifies this`lists
      ensures lists == Unlink(old(lists), up, k, b)
    {
      ghost var l0 := lists;
      assert Unlink(l0, [], k, b) == l0;
      for j := 0 to |up|
        invariant |lists| == |l0| && lists == Unlink(l0, up[..j], k, b)
      {
        UnlinkMore(l0, up, j, k, b);
        UnlinkFrom(up[j], k, b);
      }
      assert up[..|up|] == up;
    }

    // -------------------------------------------------------------- references

    /** rct_resource_ref_lk */
    method RefLk(b: Id, n: int)
      requires Shape(Model())
      modifies this
      ensures Model() == RctRefs.RefLk(old(Model()), b, n) && Shape(Model())
      decreases AliveSet(nodes), 1
    {
      if b >= |nodes| || nodes[b].disposed {
        fault := true;
        SameKindsShape(old(Model()), Model());
      } else {
        nodes := nodes[b := nodes[b].(refs := nodes[b].refs + n)];
        SameKindsShape(old(Model()), Model());
        assert AliveSet(nodes) == AliveSet(old(nodes));
        if nodes[b].refs < 1 {
          RefLkUnfold(old(Model()), b, n);
          DisposeLk(b);
        }
      }
    }

    /** _resource_dispose_lk and the dispose functions of the kinds */
    method DisposeLk(b: Id)
      requires Shape(Model()) && b < |nodes| && !nodes[b].disposed
      modifies this
      ensures Model() == Unregister(RefAllLk(Detach(old(Model()), b), old(nodes[b]).Releases()), b)
      ensures Shape(Model())
      decreases AliveSet(nodes), 0
    {
      hide RefAllLk, Detach, Unregister;
      var owned, up := nodes[b].owned, nodes[b].up;
      ghost var s := Model();
      DetachLk(b);
      ghost var s2 := Model();
      assert b in AliveSet(s.nodes);
      ReleaseOwned(owned);
      ReleaseParents(up);
      RefAllLkAppend(s2, Reverse(owned), up);
      UnregisterLk(b);
    }

    method DetachLk(b: Id)
      requires Shape(Model()) && b < |nodes|
      modifies this
      ensures Model() == Detach(old(Model()), b) && Shape(Model()) && |nodes| == |old(nodes)|
      ensures AliveSet(nodes) == AliveSet(old(nodes)) - {b}
    {
      var n := nodes[b];
      DistinctParents(Model(), b);
      nodes := nodes[b := n.(disposed := true)];
      if UnlinkedByDispose(n.kind) {
        UnlinkAll(n.up, n.kind, b);
      }
      ForgetOwned(n.owned);
      SameKindsShape(old(Model()), Model());
    }

    /** Releases the resources of a member, last one first. */
    method ReleaseOwned(ids: seq<Id>)
      requires Shape(Model())
      modifies this
      ensures Model() == RefAllLk(old(Model()), Reverse(ids)) && Shape(Model()) && |nodes| == |old(nodes)|
      decreases AliveSet(nodes), 2
    {
      ghost var s := Model();
      var i := |ids|;
      assert ids[..i] == ids;
      while i > 0
        invariant 0 <= i <= |ids| && Shape(Model()) && |nodes| == |s.nodes| && AliveSet(nodes) <= AliveSet(s.nodes)
        invariant RefAllLk(s, Reverse(ids)) == RefAllLk(Model(), Reverse(ids[..i]))
      {
        i := i - 1;
        ReverseLast(ids, i);
        RefLk(ids[i], -1);
      }
    }

    method ReleaseParents(up: seq<Id>)
      requires Shape(Model())
      modifies this
      ensures Model() == RefAllLk(old(Model()), up) && Shape(Model()) && |nodes| == |old(nodes)|
      decreases AliveSet(nodes), 2
    {
      ghost var s := Model();
      var j := 0;
      while j < |up|
        invariant 0 <= j <= |up| && Shape(Model()) && |nodes| == |s.nodes| && AliveSet(nodes) <= AliveSet(s.nodes)
        invariant RefAllLk(s, up) == RefAllLk(Model(), up[j..])
      {
        assert up[j..] == [up[j]] + up[j + 1..];
        RefLk(up[j], -1);
        j := j + 1;
      }
    }

    /** A disposed member takes its resources out of the owner index, last one first. */
    method ForgetOwned(owned: seq<Id>)
      modifies this`owner
      ensures owner == old(owner) - (set r | r in owned)
    {
      var i := |owned|;
      while i > 0
        invariant 0 <= i <= |owned|
        invariant owner == old(owner) - (set r | r in owned[i..])
      {
        i := i - 1;
        assert owned[i..] == [owned[i]] + owned[i + 1..];
        owner := owner - {owned[i]};
      }
      assert owned[0..] == owned;
    }

    // -------------------------------------------------------------- close

    /** rct_resource_close_lk */
    method CloseLk(b: Id)
      requires Shape(Model())
      modifies this
      ensures Model() == RctClose.CloseLk(old(Model()), b) && Shape(Model()) && |nodes| == |old(nodes)|
      decreases OpenSet(nodes), 0, 0
    {
      if b >= |nodes| || nodes[b].disposed {
        fault := true;
        SameKindsShape(old(Model()), Model());
      } else if !nodes[b].closed {
        nodes := nodes[b := nodes[b].(closed := true)];
        SameKindsShape(old(Model()), Model());
        assert OpenSet(nodes) == OpenSet(old(nodes)) - {b};
        assert b in OpenSet(old(nodes));
        CloseDependents(b);
        RefLk(b, -1);
      }
    }

    /** The close functions of the kinds. */
    method CloseDependents(b: Id)
      requires Shape(Model()) && b < |nodes|
      modifies this
      ensures Model() == CloseBody(old(Model()), b) && Shape(Model()) && |nodes| == |old(nodes)|
      decreases OpenSet(nodes), 2, 0
    {
      hide WalkLk, CloseRoomSlot;
      match nodes[b].kind {
        case Router =>
          CloseRoom(b);
          CloseEach(b, Transport);
          CloseEach(b, Observer);
        case Transport =>
          CloseEach(b, Producer);
          CloseEach(b, Consumer);
        case Producer => CloseEach(b, Consumer);
        case Room => CloseEach(b, Member);
        case Member =>
          DistinctParents(Model(), b);
          UnlinkAll(nodes[b].up, Member, b);
          SameKindsShape(old(Model()), Model());
        case Consumer =>
        case Observer =>
      }
    }

    method CloseRoom(b: Id)
      requires Shape(Model()) && b < |nodes|
      modifies this
      ensures Model() == CloseRoomSlot(old(Model()), b) && Shape(Model()) && |nodes| == |old(nodes)|
      ensures OpenSet(nodes) <= OpenSet(old(nodes))
      decreases OpenSet(nodes), 1, 0
    {
      if lists[b].room != [] {
        CloseLk(lists[b].room[0]);
        ghost var s := Model();
        lists := lists[b := lists[b].(room := [])];
        SameKindsShape(s, Model());
      }
    }

    /** The walk over a child list; the successor is read before the child is closed. */
    method CloseEach(t: Id, k: Kind)
      requires Shape(Model()) && t < |nodes|
      modifies this
      ensures Model() == WalkLk(old(Model()), t, k, First(ListOf(old(Model()), t, k)))
      ensures Shape(Model()) && |nodes| == |old(nodes)| && OpenSet(nodes) <= OpenSet(old(nodes))
      decreases OpenSet(nodes), 1, 0
    {
      hide Shape, RctClose.CloseLk;
      ghost var s := Model();
      ShapeSizes(s);
      var p := First(lists[t].Get(k));
      while p.Some?
        invariant Shape(Model()) && |nodes| == |s.nodes| && OpenSet(nodes) <= OpenSet(s.nodes)
        invariant WalkLk(s, t, k, First(ListOf(s, t, k))) == WalkLk(Model(), t, k, p)
        decreases OpenSet(nodes), Remaining(Model(), t, k, p)
      {
        ShapeSizes(Model());
        var n := Next(lists[t].Get(k), p.value);
        CloseLk(p.value);
        p := n;
      }
    }

    // -------------------------------------------------------------- borrowing

    /** rct_resource_by_id_locked */
    method BorrowById(i: Id) returns (found: bool)
      requires Shape(Model())
      modifies this
      ensures found == (i in old(byId)) && (!found ==> Model() == old(Model()))
      ensures Model() == Borrow(old(Model()), i) && Shape(Model()) && |nodes| == |old(nodes)|
    {
      found := i in byId;
      if found {
        GrabOneRef(i);
        HoldRef(i);
      }
    }

    method GrabOneRef(i: Id)
      requires Shape(Model())
      modifies this
      ensures Model() == Grab(old(Model()), [i]) && Shape(Model()) && |nodes| == |old(nodes)|
    {
      GrabSingle(Model(), i);
      RefLk(i, 1);
    }

    method HoldRef(i: Id)
      requires Shape(Model())
      modifies this`borrows
      ensures Model() == Hold(old(Model()), [i]) && Shape(Model())
    {
      borrows := borrows + multiset([i]);
      SameKindsShape(old(Model()), Model());
    }

    /** rct_resource_unlock */
    method ReleaseRef(i: Id)
      requires Shape(Model())
      modifies this
      ensures Model() == Release(old(Model()), i) && Shape(Model()) && |nodes| == |old(nodes)|
    {
      borrows := borrows - multiset{i};
      SameKindsShape(old(Model()), Model());
      RefLk(i, -1);
    }

    /** _resource_close */
    method CloseById(i: Id)
      requires Shape(Model())
      modifies this
      ensures Model() == Close(old(Model()), i) && Shape(Model())
    {
      hide RctClose.CloseLk, Borrow, Release;
      var found := BorrowById(i);
      if found {
        CloseLk(i);
        if i < |nodes| && nodes[i].disposed {
          ghost var s := Model();
          borrows := borrows - multiset{i};
          SameKindsShape(s, Model());
        } else {
          ReleaseRef(i);
        }
      }
    }

    // -------------------------------------------------------------- creation

    method GrabAll(ids: seq<Id>)
      requires Shape(Model())
      modifies this
      ensures Model() == Grab(old(Model()), ids) && Shape(Model()) && |nodes| == |old(nodes)|
    {
      ghost var s := Model();
      var j := 0;
      while j < |ids|
        invariant 0 <= j <= |ids| && Shape(Model()) && |nodes| == |s.nodes|
        invariant Grab(s, ids) == Grab(Model(), ids[j..])
      {
        assert ids[j..] == [ids[j]] + ids[j + 1..];
        RefLk(ids[j], 1);
        j := j + 1;
      }
      assert ids[j..] == [];
    }

    method HoldAll(ids: seq<Id>)
      requires Shape(Model())
      modifies this`borrows
      ensures Model() == Hold(old(Model()), ids) && Shape(Model())
    {
      borrows := borrows + multiset(ids);
      SameKindsShape(old(Model()), Model());
    }

    /** Puts a new resource into the lists of its parents: members at the end, a room into the
        slot of its router, everything else in front. */
    method LinkLk(n: Node)
      requires Shape(Model()) && Fits(Model(), n)
      modifies this`nodes, this`lists
      ensures Model() == Append(old(Model()), n) && Shape(Model()) && |nodes| == |old(nodes)| + 1
    {
      ghost var l0 := lists;
      var id := |nodes|;
      var j := 0;
      while j < |n.up|
        invariant 0 <= j <= |n.up| && |lists| == |l0| && nodes == old(nodes)
        invariant lists == LinkNew(l0, n.(up := n.up[..j]), id)
      {
        var p := n.up[j];
        LinkMore(l0, n, j, id);
        if n.kind == Member {
          lists := lists[p := lists[p].Put(Member, lists[p].members + [id])];
        } else if n.kind == Room {
          lists := lists[p := lists[p].Put(Room, [id])];
        } else {
          lists := lists[p := lists[p].Put(n.kind, [id] + lists[p].Get(n.kind))];
        }
        j := j + 1;
      }
      assert n.up[..j] == n.up;
      assert n.(up := n.up) == n;
      nodes := nodes + [n];
      lists := lists + [NO_LISTS];
      FitsShape(old(Model()), n);
    }

    /** The first section of a creator. */
    method BeginCreate(k: Kind, up: seq<Id>, uuid: Uuid, own: Wid) returns (c: Option<Id>)
      requires Shape(Model()) && k !in {Room, Member}
      modifies this
      ensures Model() == Begin(old(Model()), k, up, uuid, own) && Shape(Model())
      ensures c.None? <==> !ParentsFound(old(Model()), k, up)
      ensures c.Some? ==> c.value == |old(nodes)|
    {
      hide Grab, Append, Register;
      if !ParentsHere(k, up) { return None; }
      ghost var s := Model();
      var wid := WidHere(k, up, own);
      GrabAll(up);
      HoldAll(up);
      GrabAll(up);
      var n := Node(k, uuid, wid, 0, INIT_REFS, false, false, Building, up, []);
      TwiceKeeps(s, up);
      c := Some(|nodes|);
      FoundFits(s, Model(), n);
      LinkLk(n);
      ghost var t := Model();
      RegisterLk(c.value);
      RegisterShape(t, c.value);
    }

    predicate ParentsHere(k: Kind, up: seq<Id>)
      reads this
      ensures ParentsHere(k, up) == ParentsFound(Model(), k, up)
    {
      && |up| == |ParentKinds(k)|
      && forall j :: 0 <= j < |up| ==> up[j] in byId && up[j] < |nodes| && nodes[up[j]].kind == ParentKinds(k)[j]
    }

    function WidHere(k: Kind, up: seq<Id>, own: Wid): (w: Wid)
      reads this
      ensures w == WidOf(Model(), k, up, own)
    {
      if k == Router then own
      else if k in {Transport, Producer, Consumer} && up != [] && up[0] < |nodes| then nodes[up[0]].wid
      else 0
    }

    /** The end of a creator: one reference stays after a success, none after a failure. */
    method FinishCreate(c: Id, ok: bool)
      requires Shape(Model()) && UnderConstruction(Model(), c) && nodes[c].kind !in {Room, Member}
      modifies this
      ensures Model() == if ok then FinishOk(old(Model()), c) else FinishFail(old(Model()), c)
      ensures Shape(Model())
    {
      hide RctRefs.RefLk;
      nodes := nodes[c := nodes[c].(phase := if ok then Live else Failed)];
      PhaseShape(old(Model()), c, if ok then Live else Failed);
      RefLk(c, if ok then -INIT_REFS + 1 else -INIT_REFS);
    }

    // -------------------------------------------------------------- owner references

    /** A handler hands `r` to member `m`. */
    method AddOwnerRef(m: Id, r: Id, front: bool)
      requires Shape(Model())
      requires m < |nodes| && nodes[m].kind == Member && r < |nodes| && Ownable(nodes[r].kind)
      modifies this
      ensures Model() == AddOwner(old(Model()), m, r, front) && Shape(Model())
    {
      if r in byId {
        ghost var s := Model();
        RefLk(r, 1);
        RefLkFrame(s, r, 1);
        KindsAt(s, Model(), m);
        KindsAt(s, Model(), r);
        ghost var t := Model();
        var n := nodes[m];
        nodes := nodes[m := n.(owned := if front then [r] + n.owned else n.owned + [r])];
        owner := owner[r := m];
        OwnedShape(t, Model(), m);
      }
    }

    /** One round of _on_resource_closed. */
    method DropOwnerRef(r: Id)
      requires Shape(Model())
      modifies this
      ensures Model() == DropOwner(old(Model()), r) && Shape(Model())
    {
      hide RefAllLk;
      if r in owner {
        var m := owner[r];
        owner := owner - {r};
        if m in byId && m < |nodes| && nodes[m].kind == Member {
          ghost var s := Model();
          var l := nodes[m].owned;
          var kept, found := TakeOut(l, r);
          nodes := nodes[m := nodes[m].(owned := kept)];
          WithoutMembers(l, r);
          OwnedShape(s, Model(), m);
          ReleaseParents(Copies(r, found));
        } else {
          SameKindsShape(old(Model()), Model());
        }
      }
    }

    /** The loop over `resource_refs` that removes the entries of `r`. */
    method TakeOut(l: seq<Id>, r: Id) returns (kept: seq<Id>, found: nat)
      ensures kept == Without(l, r) && found == multiset(l)[r]
    {
      kept, found := l, 0;
      var i := 0;
      while i < |kept|
        invariant 0 <= i <= |kept|
        invariant Without(l, r) == kept[..i] + Without(kept[i..], r)
        invariant multiset(l)[r] == found + multiset(kept[i..])[r]
        decreases |kept| - i
      {
        if kept[i] == r {
          TakeStep(kept, i, r);
          kept := kept[..i] + kept[i + 1..];
          found := found + 1;
        } else {
          KeepStep(kept, i, r);
          i := i + 1;
        }
      }
      assert kept[i..] == [] && kept[..i] == kept;
    }

    /** The part of _collect_dependent_resource_ids_lk for a transport. */
    method CollectOfTransport(l: seq<Id>) returns (ids: seq<Id>)
      ensures ids == CollectProducers(Model(), l)
    {
      hide CollectProducers, ListOf;
      ids := [];
      Whole(l, CollectProducers(Model(), l));
      var i := 0;
      while i < |l|
        invariant 0 <= i <= |l|
        invariant CollectProducers(Model(), l) == ids + CollectProducers(Model(), l[i..])
      {
        CollectMore(Model(), l, i);
        var more := [l[i]] + (if l[i] < |lists| then lists[l[i]].consumers else []);
        Regroup(ids, more, CollectProducers(Model(), l[i + 1..]));
        ids := ids + more;
        i := i + 1;
      }
      CollectNone(Model(), l[i..]);
      Whole(ids, []);
    }

    method CollectOfRouter(l: seq<Id>) returns (ids: seq<Id>)
      ensures ids == CollectTransports(Model(), l)
    {
      hide CollectTransports, CollectProducers, ListOf;
      ids := [];
      Whole(l, CollectTransports(Model(), l));
      var i := 0;
      while i < |l|
        invariant 0 <= i <= |l|
        invariant CollectTransports(Model(), l) == ids + CollectTransports(Model(), l[i..])
      {
        CollectMoreTransports(Model(), l, i);
        var below := CollectOfTransport(if l[i] < |lists| then lists[l[i]].producers else []);
        var more := [l[i]] + below;
        Regroup(ids, more, CollectTransports(Model(), l[i + 1..]));
        ids := ids + more;
        i := i + 1;
      }
      CollectNoTransports(Model(), l[i..]);
      Whole(ids, []);
    }

    /** The id list of _on_resource_closed. */
    method CollectIds(r: Id) returns (ids: seq<Id>)
      requires |lists| == |nodes|
      ensures ids == Collect(Model(), r)
    {
      ids := [r];
      if r in byId && r < |nodes| {
        if nodes[r].kind == Router {
          var below := CollectOfRouter(lists[r].transports);
          ids := ids + below + lists[r].room;
        } else if nodes[r].kind == Transport {
          var below := CollectOfTransport(lists[r].producers);
          ids := ids + below;
        } else if nodes[r].kind == Producer {
          ids := ids + lists[r].consumers;
        }
      }
    }

    /** _on_resource_closed */
    method OnClosedEvent(r: Id)
      requires Shape(Model())
      modifies this
      ensures Model() == OnResourceClosed(old(Model()), r) && Shape(Model())
    {
      hide DropOwner;
      ghost var s := Model();
      var ids := CollectIds(r);
      var i := 0;
      while i < |ids|
        invariant 0 <= i <= |ids| && Shape(Model())
        invariant DropAll(s, ids) == DropAll(Model(), ids[i..])
      {
        assert ids[i..] == [ids[i]] + ids[i + 1..];
        DropOwnerRef(ids[i]);
        i := i + 1;
      }
    }

    // -------------------------------------------------------------- rooms

    method CloseOther(m: Option<Id>)
      requires Shape(Model())
      modifies this
      ensures Model() == CloseIfSome(old(Model()), m) && Shape(Model()) && |nodes| == |old(nodes)|
    {
      if m.Some? { CloseLk(m.value); }
    }

    /** The walk over the members of a room that looks for `user`. */
    method FindMember(room: Id, user: int) returns (r: Option<Id>)
      requires |lists| == |nodes|
      ensures r == MemberOf(nodes, ListOf(Model(), room, Member), user)
    {
      hide MemberOf;
      var l := if room < |lists| then lists[room].members else [];
      assert l == ListOf(Model(), room, Member);
      var i := 0;
      MemberFrom(nodes, l, user, 0);
      assert l[0..] == l;
      while i < |l|
        invariant 0 <= i <= |l|
        invariant MemberOf(nodes, l, user) == MemberOf(nodes, l[i..], user)
      {
        MemberFrom(nodes, l, user, i);
        if l[i] < |nodes| && nodes[l[i]].user == user { return Some(l[i]); }
        i := i + 1;
      }
      MemberFrom(nodes, l, user, i);
      r := None;
    }

    method AddNode(n: Node)
      requires Shape(Model()) && Fits(Model(), n)
      modifies this
      ensures Model() == Register(Append(old(Model()), n), |old(nodes)|) && Shape(Model()) && |nodes| == |old(nodes)| + 1
    {
      hide Append, Register;
      LinkLk(n);
      ghost var t := Model();
      RegisterLk(|nodes| - 1);
      RegisterShape(t, |nodes| - 1);
    }

    /** _rct_room_join_lk */
    method JoinRoom(room: Id, prev: Option<Id>, uuid: Uuid, user: int)
      requires Shape(Model())
      modifies this
      ensures Model() == Join(old(Model()), room, prev, uuid, user) && Shape(Model())
    {
      hide RctClose.CloseLk, Borrow, Release, Grab, Append, Register, CloseIfSome;
      if prev.Some? && prev.value in byId && prev.value < |nodes| && nodes[prev.value].kind == Member {
        CloseLk(prev.value);
      }
      if room in byId && room < |nodes| && nodes[room].kind == Room {
        ghost var s1 := Model();
        var found := BorrowById(room);
        var same := FindMember(room, user);
        ghost var s2 := Model();
        CloseOther(same);
        ghost var s3 := Model();
        GrabOneRef(room);
        RoomStays(s1, s2, s3, same, room);
        var n := Node(Member, uuid, 0, user, 1, false, false, Live, [room], []);
        AddNode(n);
        ReleaseRef(room);
      }
    }

    /** _rct_room_create */
    method CreateRoomLk(router: Id, prev: Option<Id>, roomUuid: Uuid, uuid: Uuid, user: int)
      requires Shape(Model())
      modifies this
      ensures Model() == CreateRoom(old(Model()), router, prev, roomUuid, uuid, user) && Shape(Model())
    {
      hide RctClose.CloseLk, Borrow, Release, Grab, Append, Register, CloseIfSome, Join;
      if router in byId && router < |nodes| && nodes[router].kind == Router {
        ghost var s := Model();
        var found := BorrowById(router);
        ghost var s1 := Model();
        var present := First(lists[router].room);
        CloseOther(present);
        ghost var s2 := Model();
        GrabOneRef(router);
        RoomStays(s, s1, s2, present, router);
        var room := |nodes|;
        AddNode(Node(Room, roomUuid, 0, 0, 1, false, false, Live, [router], []));
        JoinRoom(room, prev, uuid, user);
        ReleaseRef(router);
      }
    }

    // -------------------------------------------------------------- giving up early

    method ReleaseHeld(ids: seq<Id>)
      requires Shape(Model())
      modifies this
      ensures Model() == ReleaseAll(old(Model()), ids) && Shape(Model())
    {
      hide Release;
      ghost var s := Model();
      var j := 0;
      while j < |ids|
        invariant 0 <= j <= |ids| && Shape(Model())
        invariant ReleaseAll(s, ids) == ReleaseAll(Model(), ids[j..])
      {
        assert ids[j..] == [ids[j]] + ids[j + 1..];
        ReleaseRef(ids[j]);
        j := j + 1;
      }
      assert ids[j..] == [];
    }

    method CountFound(k: Kind, up: seq<Id>) returns (n: nat)
      ensures n == FoundFirst(Model(), k, up, |up|)
    {
      hide FoundFirst;
      FoundStep(Model(), k, up, 0);
      n := 0;
      for j := 0 to |up|
        invariant n == FoundFirst(Model(), k, up, j)
      {
        FoundStep(Model(), k, up, j + 1);
        if n == j && j < |ParentKinds(k)| && up[j] in byId && up[j] < |nodes| && nodes[up[j]].kind == ParentKinds(k)[j] {
          n := n + 1;
        }
      }
    }

    /** A creator that fails before its resource is linked. */
    method RefuseCreation(k: Kind, up: seq<Id>, uuid: Uuid, own: Wid)
      requires Shape(Model()) && k !in {Room, Member}
      modifies this
      ensures Model() == FailEarly(old(Model()), k, up, uuid, own) && Shape(Model())
    {
      if ParentsHere(k, up) {
        AbandonCreation(k, up, uuid, own);
      } else {
        hide Grab, ReleaseAll, FoundFirst, Reverse;
        var n := CountFound(k, up);
        var ids := up[..n];
        GrabAll(ids);
        HoldAll(ids);
        ReleaseHeld(Reverse(ids));
      }
    }

    /** The parents are there, but something else goes wrong. */
    method AbandonCreation(k: Kind, up: seq<Id>, uuid: Uuid, own: Wid)
      requires Shape(Model()) && k !in {Room, Member} && ParentsFound(Model(), k, up)
      modifies this
      ensures Model() == FailEarly(old(Model()), k, up, uuid, own) && Shape(Model())
    {
      hide Grab, RctRefs.RefLk, ReleaseAll, FoundFirst, Reverse, FinishFail, Shape;
      ghost var s := Model();
      var wid := WidHere(k, up, own);
      GrabAll(up);
      HoldAll(up);
      GrabAll(up);
      var n := Node(k, uuid, wid, 0, INIT_REFS, false, false, Building, up, []);
      TwiceKeeps(s, up);
      FoundFits(s, Model(), n);
      GapShape(Model(), n);
      nodes := nodes + [n];
      lists := lists + [NO_LISTS];
      FinishCreate(|nodes| - 1, false);
      ReleaseHeld(Reverse(up));
    }

    // -------------------------------------------------------------- one step of a run

    /** Any step of any run, made on the object: it is the step of the model, and the invariant
        of all runs is kept. */
    method Perform(st: Step)
      requires Inv(Model()) && DistinctUsers(Model()) && Assumed(Model(), st) && Disciplined(Model(), st)
      modifies this
      ensures Model() == Apply(old(Model()), st) && Inv(Model()) && DistinctUsers(Model())
    {
      hide Inv, DistinctUsers, Begin, FailEarly, FinishOk, FinishFail, Borrow, Release, Close, AddOwner, DropOwner, Join, CreateRoom;
      ghost var s := Model();
      StepInv(s, st);
      InvShape(s);
      match st {
        case BeginCreate(k, up, uuid, own) => var c := BeginCreate(k, up, uuid, own);
        case CreationRefused(k, up, uuid, own) => RefuseCreation(k, up, uuid, own);
        case CreatorSucceeds(c) => FinishIfBuilding(c, true);
        case CreatorFails(c) => FinishIfBuilding(c, false);
        case BorrowRef(i) => var found := BorrowById(i);
        case ReleaseRef(i) => ReleaseRef(i);
        case CloseById(i) => CloseById(i);
        case OwnerAdded(m, r, front) =>
          if r in byId { AddOwnerRef(m, r, front); } else { NoOwnerAdded(s, m, r, front); }
        case OwnerDropped(r) => DropOwnerRef(r);
        case MemberJoins(room, prev, uuid, user) => JoinRoom(room, prev, uuid, user);
        case RoomCreated(router, prev, ru, mu, user) => CreateRoomLk(router, prev, ru, mu, user);
      }
    }

    method FinishIfBuilding(c: Id, ok: bool)
      requires Shape(Model())
      modifies this
      ensures Model() ==
        if !UnderConstruction(old(Model()), c) then old(Model())
        else if ok then FinishOk(old(Model()), c) else FinishFail(old(Model()), c)
    {
      if c < |nodes| && !nodes[c].disposed && nodes[c].phase == Building {
        assert ShapeAt(nodes, c);
        FinishCreate(c, ok);
      }
    }
  }

  // ---------------------------------------------------------------- what the loops need

  lemma {:induction false} RefAllLkAppend(s: State, a: seq<Id>, b: seq<Id>)
    ensures RefAllLk(s, a + b) == RefAllLk(RefAllLk(s, a), b)
    decreases |a|
  {
    if a == [] {
      assert a + b == b;
    } else {
      assert (a + b)[1..] == a[1..] + b;
      RefAllLkAppend(RctRefs.RefLk(s, a[0], -1), a[1..], b);
    }
  }

  lemma {:induction false} RemoveAt(l: seq<Id>, x: Id, i: nat)
    requires i <= |l| && x !in l[..i] && (i < |l| ==> l[i] == x)
    ensures i < |l| ==> Remove(l, x) == l[..i] + l[i + 1..]
    ensures i == |l| ==> Remove(l, x) == l
  {
    if i == |l| {
      assert l[..i] == l;
    } else if i == 0 {
      assert l[..0] + l[1..] == l[1..];
    } else {
      var t := l[1..];
      assert l[0] == l[..i][0];
      assert t[..i - 1] == l[..i][1..];
      RemoveAt(t, x, i - 1);
      assert [l[0]] + (t[..i - 1] + t[i..]) == l[..i] + l[i + 1..];
    }
  }

  lemma UnlinkMore(lists: seq<Lists>, up: seq<Id>, j: nat, k: Kind, b: Id)
    requires j < |up| && up[j] < |lists| && up[j] !in up[..j]
    ensures var m := Unlink(lists, up[..j], k, b);
      Unlink(lists, up[..j + 1], k, b) == m[up[j] := m[up[j]].Put(k, Remove(m[up[j]].Get(k), b))]
  {
    assert up[..j + 1] == up[..j] + [up[j]];
  }

  lemma DistinctParents(s: State, b: Id)
    requires Shape(s) && b < |s.nodes|
    ensures forall j :: 0 <= j < |s.nodes[b].up| ==> s.nodes[b].up[j] < |s.lists|
    ensures forall i, j :: 0 <= i < j < |s.nodes[b].up| ==> s.nodes[b].up[i] != s.nodes[b].up[j]
  {
    assert ShapeAt(s.nodes, b);
  }

  lemma ReverseLast(l: seq<Id>, i: nat)
    requires i < |l|
    ensures Reverse(l[..i + 1]) == [l[i]] + Reverse(l[..i])
  {
    ReverseAppend(l[..i], l[i]);
    assert l[..i + 1] == l[..i] + [l[i]];
  }

  lemma ReverseStep(l: seq<Id>, r: seq<Id>)
    requires l != [] && r == Reverse(l[1..])
    ensures Reverse(l) == r + [l[0]]
  {
  }

  lemma {:induction false} ReverseAppend(l: seq<Id>, x: Id)
    ensures Reverse(l + [x]) == [x] + Reverse(l)
  {
    hide Reverse;
    if l == [] {
      assert l + [x] == [x] && [x][1..] == [];
      ReverseStep([x], Reverse([]));
      ReverseNone();
    } else {
      assert (l + [x])[1..] == l[1..] + [x];
      ReverseAppend(l[1..], x);
      ReverseStep(l + [x], [x] + Reverse(l[1..]));
      ReverseStep(l, Reverse(l[1..]));
    }
  }

  lemma ReverseNone()
    ensures Reverse<Id>([]) == []
  {
  }

  lemma SameKindsShape(s: State, t: State)
    requires Shape(s) && |t.nodes| == |s.nodes| && |t.lists| == |s.lists|
    requires forall i :: 0 <= i < |s.nodes| ==>
      t.nodes[i] == s.nodes[i].(refs := t.nodes[i].refs, closed := t.nodes[i].closed, disposed := t.nodes[i].disposed)
    ensures Shape(t)
  {
    forall i | 0 <= i < |t.nodes| ensures ShapeAt(t.nodes, i) { assert ShapeAt(s.nodes, i); }
  }

  lemma CollectNone(s: State, l: seq<Id>)
    requires |l| == 0
    ensures CollectProducers(s, l) == []
  {
  }

  lemma CollectNoTransports(s: State, l: seq<Id>)
    requires |l| == 0
    ensures CollectTransports(s, l) == []
  {
  }

  lemma CollectMoreTransports(s: State, l: seq<Id>, i: nat)
    requires i < |l|
    ensures CollectTransports(s, l[i..]) ==
      [l[i]] + CollectProducers(s, if l[i] < |s.lists| then s.lists[l[i]].producers else []) + CollectTransports(s, l[i + 1..])
  {
    assert l[i..][1..] == l[i + 1..];
  }

  lemma Regroup(a: seq<Id>, b: seq<Id>, c: seq<Id>)
    ensures a + (b + c) == (a + b) + c
  {
  }

  lemma Whole(l: seq<Id>, c: seq<Id>)
    ensures l[0..] == l && [] + c == c && l + [] == l
  {
  }

  lemma CollectMore(s: State, l: seq<Id>, i: nat)
    requires i < |l|
    ensures CollectProducers(s, l[i..]) ==
      [l[i]] + (if l[i] < |s.lists| then s.lists[l[i]].consumers else []) + CollectProducers(s, l[i + 1..])
  {
    assert l[i..][1..] == l[i + 1..];
  }

  lemma GrabSingle(s: State, i: Id)
    ensures Grab(s, [i]) == RctRefs.RefLk(s, i, 1)
  {
    assert Grab(RctRefs.RefLk(s, i, 1), []) == RctRefs.RefLk(s, i, 1);
  }

  /** A resource that may be linked: its parents are there and have the right kinds. */
  ghost predicate Fits(s: State, n: Node) {
    && n.owned == [] && |n.up| == |ParentKinds(n.kind)| && (n.kind in {Room, Member} ==> n.phase == Live)
    && forall j :: 0 <= j < |n.up| ==> n.up[j] < |s.nodes| && s.nodes[n.up[j]].kind == ParentKinds(n.kind)[j]
  }

  lemma FitsShape(s: State, n: Node)
    requires Shape(s) && Fits(s, n)
    ensures Shape(Append(s, n))
  {
    var t := Append(s, n);
    forall i | 0 <= i < |t.nodes| ensures ShapeAt(t.nodes, i) {
      if i < |s.nodes| { assert ShapeAt(s.nodes, i); }
    }
  }

  lemma LinkMore(lists: seq<Lists>, n: Node, j: nat, id: Id)
    requires j < |n.up| && n.up[j] < |lists| && n.up[j] !in n.up[..j]
    ensures var m := LinkNew(lists, n.(up := n.up[..j]), id); var p := n.up[j];
      LinkNew(lists, n.(up := n.up[..j + 1]), id) == m[p :=
        match n.kind
        case Member => m[p].Put(Member, m[p].members + [id])
        case Room => m[p].Put(Room, [id])
        case k => m[p].Put(k, [id] + m[p].Get(k))]
  {
    assert n.up[..j + 1] == n.up[..j] + [n.up[j]];
  }

  /** Taking references changes no kind. */
  lemma {:induction false} GrabKeeps(s: State, ids: seq<Id>)
    requires Shape(s)
    ensures var t := Grab(s, ids);
      Shape(t) && |t.nodes| == |s.nodes| && forall i :: 0 <= i < |s.nodes| ==> t.nodes[i].kind == s.nodes[i].kind && t.nodes[i].wid == s.nodes[i].wid
    decreases |ids|
  {
    if ids != [] {
      var t := RctRefs.RefLk(s, ids[0], 1);
      if ids[0] < |s.nodes| {
        RefLkFrame(s, ids[0], 1);
        EvolvesShape(s, t);
      } else {
        SameKindsShape(s, t);
      }
      forall i | 0 <= i < |s.nodes| ensures t.nodes[i].kind == s.nodes[i].kind && t.nodes[i].wid == s.nodes[i].wid {
        if ids[0] < |s.nodes| { KindsAt(s, t, i); }
      }
      GrabKeeps(t, ids[1..]);
    }
  }

  lemma TwiceKeeps(s: State, ids: seq<Id>)
    requires Shape(s)
    ensures var t := Grab(Hold(Grab(s, ids), ids), ids);
      |t.nodes| == |s.nodes| && forall i :: 0 <= i < |s.nodes| ==> t.nodes[i].kind == s.nodes[i].kind
  {
    var u := Hold(Grab(s, ids), ids);
    GrabKeeps(s, ids);
    SameKindsShape(Grab(s, ids), u);
    GrabKeeps(u, ids);
  }

  lemma KindsAt(s: State, t: State, i: Id)
    requires Evolves(s, t) && i < |s.nodes|
    ensures t.nodes[i].kind == s.nodes[i].kind && t.nodes[i].wid == s.nodes[i].wid
  {
    assert EvolvesTo(s.nodes[i], t.nodes[i]);
  }

  lemma FoundFits(s: State, t: State, n: Node)
    requires ParentsFound(s, n.kind, n.up) && |t.nodes| == |s.nodes| && n.owned == []
    requires forall i :: 0 <= i < |s.nodes| ==> t.nodes[i].kind == s.nodes[i].kind
    requires n.kind in {Room, Member} ==> n.phase == Live
    ensures Fits(t, n)
  {
    forall j | 0 <= j < |n.up| ensures n.up[j] < |t.nodes| && t.nodes[n.up[j]].kind == ParentKinds(n.kind)[j] {
      assert Found(s, n.up[j], ParentKinds(n.kind)[j]);
    }
  }

  lemma RegisterShape(s: State, b: Id)
    requires Shape(s) && b < |s.nodes|
    ensures Shape(Register(s, b))
  {
    SameKindsShape(s, Register(s, b));
  }

  lemma PhaseShape(s: State, c: Id, p: Phase)
    requires Shape(s) && c < |s.nodes| && s.nodes[c].kind !in {Room, Member}
    ensures Shape(SetPhase(s, c, p))
  {
    var t := SetPhase(s, c, p);
    forall i | 0 <= i < |t.nodes| ensures ShapeAt(t.nodes, i) { assert ShapeAt(s.nodes, i); }
  }

  lemma OwnedShape(s: State, t: State, m: Id)
    requires Shape(s) && m < |s.nodes| && s.nodes[m].kind == Member && |t.lists| == |s.lists| && |t.nodes| == |s.nodes|
    requires t.nodes == s.nodes[m := s.nodes[m].(owned := t.nodes[m].owned)]
    requires forall x :: x in t.nodes[m].owned ==>
      x in s.nodes[m].owned || (x < |s.nodes| && Ownable(s.nodes[x].kind))
    ensures Shape(t)
  {
    forall i | 0 <= i < |t.nodes| ensures ShapeAt(t.nodes, i) { assert ShapeAt(s.nodes, i); }
  }

  lemma TakeStep(l: seq<Id>, i: nat, x: Id)
    requires i < |l| && l[i] == x
    ensures var m := l[..i] + l[i + 1..];
      && m[..i] == l[..i] && m[i..] == l[i + 1..]
      && Without(l[i..], x) == Without(m[i..], x) && multiset(l[i..])[x] == multiset(m[i..])[x] + 1
  {
    var m := l[..i] + l[i + 1..];
    var tail := l[i + 1..];
    assert m[i..] == tail && m[..i] == l[..i];
    assert l[i..] == [x] + tail;
    assert l[i..][1..] == tail;
  }

  lemma KeepStep(l: seq<Id>, i: nat, x: Id)
    requires i < |l| && l[i] != x
    ensures l[..i] + Without(l[i..], x) == l[..i + 1] + Without(l[i + 1..], x)
    ensures multiset(l[i..])[x] == multiset(l[i + 1..])[x]
  {
    var tail := l[i + 1..];
    assert l[i..] == [l[i]] + tail;
    assert l[i..][1..] == tail;
    assert l[..i + 1] == l[..i] + [l[i]];
  }

  /** Borrowing, closing somebody and grabbing leave the kind of `i` alone. */
  lemma RoomStays(s: State, u: State, v: State, m: Option<Id>, i: Id)
    requires Shape(s) && Shape(u) && Shape(v) && i < |s.nodes| && u == Borrow(s, i) && v == CloseIfSome(u, m)
    ensures var t := Grab(v, [i]);
      i < |t.nodes| && t.nodes[i].kind == s.nodes[i].kind
  {
    hide Borrow, Grab, CloseIfSome, Later;
    BorrowLater(s, i);
    CloseIfLater(u, m);
    GrabLater(v, [i]);
    LaterTrans(s, u, v);
    LaterTrans(s, v, Grab(v, [i]));
    LaterAt(s, Grab(v, [i]), i);
  }

  lemma LaterAt(s: State, t: State, i: Id)
    requires Later(s, t) && i < |s.nodes|
    ensures i < |t.nodes| && t.nodes[i].kind == s.nodes[i].kind
  {
  }

  lemma FoundStep(s: State, k: Kind, up: seq<Id>, n: nat)
    ensures FoundFirst(s, k, up, n) ==
      if n == 0 then 0
      else
        var r := FoundFirst(s, k, up, n - 1);
        if r == n - 1 && r < |up| && r < |ParentKinds(k)| && Found(s, up[r], ParentKinds(k)[r]) then n else r
  {
  }

  lemma CountOneMore(nodes: seq<Node>, ids: set<Id>, g: Gauge, i: Id)
    requires i !in ids
    ensures |CountedBy(nodes, ids + {i}, g)| ==
      |CountedBy(nodes, ids, g)| + (if i < |nodes| && GaugeOf(nodes[i].kind) == Some(g) then 1 else 0)
  {
    var a, b := CountedBy(nodes, ids, g), CountedBy(nodes, ids + {i}, g);
    if i < |nodes| && GaugeOf(nodes[i].kind) == Some(g) {
      assert b == a + {i};
    } else {
      assert b == a;
    }
  }

  lemma ShapeSizes(s: State)
    requires Shape(s)
    ensures |s.lists| == |s.nodes|
  {
  }

  lemma MemberFrom(nodes: seq<Node>, l: seq<Id>, user: int, i: nat)
    requires i <= |l|
    ensures i == |l| ==> MemberOf(nodes, l[i..], user) == None
    ensures i < |l| ==>
      (MemberOf(nodes, l[i..], user) ==
       if l[i] < |nodes| && nodes[l[i]].user == user then Some(l[i]) else MemberOf(nodes, l[i + 1..], user))
  {
    if i < |l| { assert l[i..][1..] == l[i + 1..]; }
  }

  lemma GapShape(s: State, n: Node)
    requires Shape(s) && Fits(s, n)
    ensures Shape(Gap(s, n))
  {
    var t := Gap(s, n);
    forall i | 0 <= i < |t.nodes| ensures ShapeAt(t.nodes, i) {
      if i < |s.nodes| { assert ShapeAt(s.nodes, i); }
    }
  }

  lemma InvShape(s: State)
    requires Inv(s)
    ensures Shape(s)
  {
  }

  lemma NoOwnerAdded(s: State, m: Id, r: Id, front: bool)
    requires r !in s.byId
    ensures AddOwner(s, m, r, front) == s
  {
  }
}
