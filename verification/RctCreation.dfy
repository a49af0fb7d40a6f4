/**
 Borrowing, creating and finishing keep the invariant; a failing creator does so exactly
 when nobody closed its resource or nobody else holds it.
 */
module RctCreation {
  import opened RctState
  import opened RctRefs
  import opened RctInvariant
  import opened RctRelease
  import opened RctCascade
  import opened RctSteps

  // ---------------------------------------------------------------- taking references

  /** Only counters and borrowed references differ. */
  ghost predicate OnlyRefs(s: State, t: State) {
    && t == s.(nodes := t.nodes, borrows := t.borrows) && |t.nodes| == |s.nodes|
    && forall i :: 0 <= i < |s.nodes| ==> t.nodes[i] == s.nodes[i].(refs := t.nodes[i].refs)
  }

  lemma GrabOneBalanced(s: State, P: multiset<Id>, b: Id)
    requires Balanced(s, P) && PositiveBut(s, {}) && b < |s.nodes| && !s.nodes[b].disposed
    ensures var t := AddRefs(s, b, 1); Balanced(t, P + multiset{b}) && PositiveBut(t, {}) && RefLk(s, b, 1) == t
  {
    var t := AddRefs(s, b, 1);
    forall i | 0 <= i < |t.nodes| ensures BalancedAt(t, P + multiset{b}, i) {
      assert BalancedAt(s, P, i);
      InUpdate(s.nodes, b, t.nodes[b], i);
    }
  }

  lemma GrabOne(s: State, P: multiset<Id>, b: Id)
    requires GoodBut(s, P, {}, {}) && b < |s.nodes| && !s.nodes[b].disposed
    ensures GoodBut(RefLk(s, b, 1), P + multiset{b}, {}, {}) && OnlyRefs(s, RefLk(s, b, 1))
    ensures RefLk(s, b, 1).borrows == s.borrows
  {
    GrabOneBalanced(s, P, b);
    SameGraphFrame(s, AddRefs(s, b, 1), {});
  }

  lemma {:induction false} GrabGood(s: State, P: multiset<Id>, ids: seq<Id>)
    requires GoodBut(s, P, {}, {}) && forall x :: x in ids ==> x < |s.nodes| && !s.nodes[x].disposed
    ensures GoodBut(Grab(s, ids), P + multiset(ids), {}, {}) && OnlyRefs(s, Grab(s, ids))
    ensures Grab(s, ids).borrows == s.borrows
    decreases |ids|
  {
    hide GoodBut, RefLk, OnlyRefs;
    OnlyRefsSelf(s);
    if ids == [] {
      assert P + multiset(ids) == P;
    } else {
      var b := ids[0];
      var t := RefLk(s, b, 1);
      assert ids == [b] + ids[1..];
      assert b in ids && forall x :: x in ids[1..] ==> x in ids;
      GrabOne(s, P, b);
      OnlyRefsAlive(s, t);
      GrabGood(t, P + multiset{b}, ids[1..]);
      assert P + multiset{b} + multiset(ids[1..]) == P + multiset(ids);
      OnlyRefsTwice(s, t, Grab(s, ids));
    }
  }

  lemma OnlyRefsSelf(s: State)
    ensures OnlyRefs(s, s)
  {
  }

  lemma OnlyRefsAlive(s: State, t: State)
    requires OnlyRefs(s, t)
    ensures |t.nodes| == |s.nodes| && forall x :: 0 <= x < |s.nodes| ==> t.nodes[x].disposed == s.nodes[x].disposed
  {
  }

  lemma OnlyRefsTwice(s: State, t: State, u: State)
    requires OnlyRefs(s, t) && OnlyRefs(t, u)
    ensures OnlyRefs(s, u)
  {
  }

  lemma HoldersMove(s: State, t: State, P: multiset<Id>, Q: multiset<Id>)
    requires GoodBut(s, P, {}, {}) && t == s.(borrows := t.borrows) && s.borrows + P == t.borrows + Q
    requires forall i :: i in t.borrows ==> i < |s.nodes|
    ensures GoodBut(t, Q, {}, {})
  {
    forall i | 0 <= i < |t.nodes| ensures BalancedAt(t, Q, i) {
      assert BalancedAt(s, P, i);
      assert (s.borrows + P)[i] == (t.borrows + Q)[i];
    }
    SameGraphFrame(s, t, {});
  }

  lemma HoldGood(s: State, P: multiset<Id>, ids: seq<Id>)
    requires GoodBut(s, P + multiset(ids), {}, {}) && forall x :: x in ids ==> x < |s.nodes|
    ensures GoodBut(Hold(s, ids), P, {}, {})
  {
    assert s.borrows + (P + multiset(ids)) == (s.borrows + multiset(ids)) + P;
    forall i | i in s.borrows + multiset(ids) ensures i < |s.nodes| {
      assert i in s.borrows || i in ids;
    }
    HoldersMove(s, Hold(s, ids), P + multiset(ids), P);
  }

  lemma LetGo(s: State, P: multiset<Id>, i: Id)
    requires GoodBut(s, P, {}, {}) && i in s.borrows
    ensures GoodBut(s.(borrows := s.borrows - multiset{i}), P + multiset{i}, {}, {}) && i < |s.nodes|
  {
    assert s.borrows + P == (s.borrows - multiset{i}) + (P + multiset{i});
    HoldersMove(s, s.(borrows := s.borrows - multiset{i}), P, P + multiset{i});
  }

  /** Giving a borrowed reference back keeps the invariant. */
  lemma ReleaseGood(s: State, P: multiset<Id>, i: Id)
    requires GoodBut(s, P, {}, {}) && i in s.borrows
    ensures GoodBut(Release(s, i), P, {}, {})
  {
    hide GoodBut;
    LetGo(s, P, i);
    var t := s.(borrows := s.borrows - multiset{i});
    AddRefsGood(t, P, {}, i);
    RefLkGood(t, P, {}, i, -1);
  }

  lemma BorrowGood(s: State, P: multiset<Id>, i: Id)
    requires GoodBut(s, P, {}, {}) && i in s.byId
    ensures GoodBut(Borrow(s, i), P, {}, {}) && OnlyRefs(s, Borrow(s, i))
    ensures Borrow(s, i).borrows == s.borrows + multiset{i} && i < |s.nodes| && !s.nodes[i].disposed
  {
    assert Registered(s, {}, i);
    GrabGood(s, P, [i]);
    assert multiset([i]) == multiset{i};
    HoldGood(Grab(s, [i]), P, [i]);
  }

  // ---------------------------------------------------------------- a new resource

  /** A resource that a creator may add: its parents exist and have the right kinds. */
  ghost predicate Fresh(s: State, n: Node) {
    && !n.disposed && !n.closed && n.owned == [] && n.refs == n.Main() && n.uuid !in s.byUuid
    && (n.phase == Building || n.phase == Live) && (n.kind in {Room, Member} ==> n.phase == Live)
    && |n.up| == |ParentKinds(n.kind)|
    && forall j :: 0 <= j < |n.up| ==> n.up[j] < |s.nodes| && s.nodes[n.up[j]].kind == ParentKinds(n.kind)[j]
  }

  lemma {:induction false} InNone(nodes: seq<Node>, x: Id)
    requires forall h :: 0 <= h < |nodes| ==> nodes[h].Holds(x) == 0
    ensures In(nodes, x) == 0
  {
    if nodes != [] { InNone(nodes[..|nodes| - 1], x); }
  }

  lemma AppendShape(s: State, n: Node)
    requires Shape(s) && Fresh(s, n)
    ensures Shape(Append(s, n))
  {
    var t := Append(s, n);
    forall i | 0 <= i < |t.nodes| ensures ShapeAt(t.nodes, i) {
      if i < |s.nodes| { assert ShapeAt(s.nodes, i); }
    }
  }

  lemma AppendBalanced(s: State, P: multiset<Id>, n: Node)
    requires Shape(s) && Balanced(s, P + multiset(n.up)) && Fresh(s, n) && forall i :: i in P ==> i < |s.nodes|
    ensures Balanced(Append(s, n), P)
  {
    var t := Append(s, n);
    var id := |s.nodes|;
    assert t.nodes[..id] == s.nodes;
    forall i | 0 <= i < |t.nodes| ensures BalancedAt(t, P, i) {
      assert n.Holds(i) == multiset(n.up)[i];
      if i < id {
        assert BalancedAt(s, P + multiset(n.up), i);
      } else {
        forall h | 0 <= h < id ensures s.nodes[h].Holds(id) == 0 {
          assert ShapeAt(s.nodes, h);
          assert id !in s.nodes[h].up && id !in s.nodes[h].owned;
        }
        InNone(s.nodes, id);
        assert id !in n.up;
      }
    }
  }

  lemma ChildAppended(s: State, n: Node, p: Id, k: Kind, x: Id)
    requires !n.disposed && !n.closed
    ensures Child(Append(s, n).nodes, p, k, x) <==>
      Child(s.nodes, p, k, x) || (x == |s.nodes| && p in n.up && k == n.kind)
  {
  }

  /** The list with the new element at the end where members join, in front otherwise. */
  function Linked(k: Kind, l: seq<Id>, id: Id): seq<Id> {
    if k == Member then l + [id] else [id] + l
  }

  lemma OrderedLinked(k: Kind, l: seq<Id>, id: Id)
    requires Ordered(k, l) && forall x :: x in l ==> x < id
    ensures Ordered(k, Linked(k, l, id)) && forall x :: x in Linked(k, l, id) <==> x in l || x == id
  {
    var r := Linked(k, l, id);
    assert forall j :: 0 <= j < |l| ==> l[j] in l;
    forall i, j | 0 <= i < j < |r| ensures Before(k, r[i], r[j]) {
      if k == Member {
        assert r[i] == l[i];
      } else {
        assert r[j] == l[j - 1];
      }
    }
  }

  lemma ListAppended(s: State, n: Node, p: Id, k: Kind)
    requires p < |s.lists| && IsListKind(k)
    ensures var l := s.lists[p].Get(k);
      Append(s, n).lists[p].Get(k) == if p in n.up && k == n.kind then Linked(k, l, |s.nodes|) else l
  {
  }

  lemma {:induction false} AppendListAt(s: State, n: Node, p: Id, k: Kind)
    requires Shape(s) && Fresh(s, n) && p < |s.lists| && IsListKind(k) && ListAt(s, p, k)
    ensures ListAt(Append(s, n), p, k)
  {
    hide Append, Shape, Ordered, Linked, Child;
    var t := Append(s, n);
    var l := s.lists[p].Get(k);
    forall x | x in l ensures x < |s.nodes| { ListedInRange(s, p, k, x); }
    forall x: Id ensures Child(t.nodes, p, k, x) <==> Child(s.nodes, p, k, x) || (x == |s.nodes| && p in n.up && k == n.kind) {
      ChildAppended(s, n, p, k, x);
    }
    ListAppended(s, n, p, k);
    OrderedLinked(k, l, |s.nodes|);
    AppendedSize(s, n);
  }

  lemma AppendedSize(s: State, n: Node)
    ensures |Append(s, n).lists| == |s.lists| + 1
  {
  }

  lemma ListedInRange(s: State, p: Id, k: Kind, x: Id)
    requires p < |s.lists| && ListAt(s, p, k) && x in s.lists[p].Get(k)
    ensures x < |s.nodes|
  {
    assert Child(s.nodes, p, k, x);
  }

  lemma AppendLinks(s: State, n: Node)
    requires Shape(s) && Links(s) && Fresh(s, n)
    requires n.kind == Room ==> ChildrenClosed(s, n.up[0], Room)
    ensures Links(Append(s, n))
  {
    var t := Append(s, n);
    var id := |s.nodes|;
    AppendShape(s, n);
    forall p, k | 0 <= p < |t.lists| && IsListKind(k) ensures ListAt(t, p, k) {
      if p < id {
        assert ListAt(s, p, k);
        AppendListAt(s, n, p, k);
      } else {
        forall x: Id ensures !Child(t.nodes, p, k, x) {
          if x < |t.nodes| { assert ShapeAt(t.nodes, x); }
        }
      }
    }
    forall r | 0 <= r < |t.lists| ensures RoomAt(t, r) {
      if r < id { assert RoomAt(s, r); }
    }
    forall x | 0 <= x < |t.nodes| ensures OpenRoomAt(t, x) {
      if x < id {
        assert OpenRoomAt(s, x);
        assert ShapeAt(s.nodes, x);
        if s.nodes[x].kind == Room { assert s.nodes[x].up[0] in s.nodes[x].up; }
      }
    }
  }

  lemma AppendOwners(s: State, n: Node)
    requires Shape(s) && Owners(s) && Fresh(s, n)
    ensures Owners(Append(s, n))
  {
  }

  lemma CarriedAppend(nodes: seq<Node>, byId: set<Id>, n: Node, w: Wid)
    requires forall i :: i in byId ==> i < |nodes|
    ensures |CarriedBy(nodes + [n], byId + {|nodes|}, w)| == |CarriedBy(nodes, byId, w)| + (if n.wid == w then 1 else 0)
  {
    var c := CarriedBy(nodes, byId, w);
    var d := CarriedBy(nodes + [n], byId + {|nodes|}, w);
    if n.wid == w {
      assert d == c + {|nodes|};
    } else {
      assert d == c;
    }
  }

  lemma CountedAppend(nodes: seq<Node>, byId: set<Id>, n: Node, g: Gauge)
    requires forall i :: i in byId ==> i < |nodes|
    ensures |CountedBy(nodes + [n], byId + {|nodes|}, g)| ==
      |CountedBy(nodes, byId, g)| + (if GaugeOf(n.kind) == Some(g) then 1 else 0)
  {
    var c := CountedBy(nodes, byId, g);
    var d := CountedBy(nodes + [n], byId + {|nodes|}, g);
    if GaugeOf(n.kind) == Some(g) {
      assert d == c + {|nodes|};
    } else {
      assert d == c;
    }
  }

  lemma RegisterLoad(s: State, n: Node)
    requires LoadMap(s) && forall i :: i in s.byId ==> i < |s.nodes|
    ensures LoadMap(Register(Append(s, n), |s.nodes|))
  {
    hide CarriedBy, CountedBy;
    var t := Register(Append(s, n), |s.nodes|);
    forall w | w != 0 ensures LoadOf(t.load, w) == |CarriedBy(t.nodes, t.byId, w)| {
      CarriedAppend(s.nodes, s.byId, n, w);
    }
  }

  lemma RegisterGauges(s: State, n: Node)
    requires GaugeMap(s) && forall i :: i in s.byId ==> i < |s.nodes|
    ensures GaugeMap(Register(Append(s, n), |s.nodes|))
  {
    hide CarriedBy, CountedBy;
    var t := Register(Append(s, n), |s.nodes|);
    forall g ensures g in t.gauges && t.gauges[g] == |CountedBy(t.nodes, t.byId, g)| {
      CountedAppend(s.nodes, s.byId, n, g);
    }
  }

  lemma {:induction false} RegisterMaps(s: State, n: Node)
    requires IdMap(s, {}) && UuidMap(s) && n.uuid !in s.byUuid && !n.disposed
    ensures var t := Register(Append(s, n), |s.nodes|); IdMap(t, {}) && UuidMap(t)
  {
    hide Register, Append;
    var id := |s.nodes|;
    RegisterIs(s, n);
    var t := Register(Append(s, n), id);
    forall i: Id ensures i in t.byId <==> Registered(t, {}, i) {
      assert i in s.byId <==> Registered(s, {}, i);
    }
    forall i | i in s.byId ensures i < id { assert Registered(s, {}, i); }
  }

  lemma RegisterIs(s: State, n: Node)
    ensures |Append(s, n).nodes| > |s.nodes|
    ensures var id := |s.nodes|; var t := Register(Append(s, n), id);
      t.nodes == s.nodes + [n] && t.byId == s.byId + {id} && t.byUuid == s.byUuid[n.uuid := id]
  {
  }

  lemma RegisterRest(s: State, b: Id)
    requires b < |s.nodes|
    ensures var t := Register(s, b);
      t == s.(byId := t.byId, byUuid := t.byUuid, load := t.load, gauges := t.gauges)
  {
  }

  /** The new resource takes over the references that were taken on its parents. */
  lemma AppendGood(s: State, P: multiset<Id>, n: Node)
    requires GoodBut(s, P + multiset(n.up), {}, {}) && Fresh(s, n) && forall i :: i in P ==> i < |s.nodes|
    requires n.kind == Room ==> ChildrenClosed(s, n.up[0], Room)
    ensures GoodBut(Register(Append(s, n), |s.nodes|), P, {}, {})
  {
    var a := Append(s, n);
    var t := Register(a, |s.nodes|);
    AppendShape(s, n);
    AppendBalanced(s, P, n);
    AppendLinks(s, n);
    AppendOwners(s, n);
    assert forall i :: i in s.byId ==> Registered(s, {}, i);
    RegisterMaps(s, n);
    RegisterLoad(s, n);
    RegisterGauges(s, n);
    AppendRest(s, n);
    RegisterRest(a, |s.nodes|);
    GraphFrame(a, t, P, {});
  }

  lemma AppendRest(s: State, n: Node)
    requires PositiveBut(s, {}) && NoHazard(s) && n.refs >= 1 && !n.closed
    ensures PositiveBut(Append(s, n), {}) && NoHazard(Append(s, n))
  {
  }

  // ---------------------------------------------------------------- beginning

  lemma FoundAlive(s: State, k: Kind, up: seq<Id>)
    requires IdMap(s, {}) && ParentsFound(s, k, up)
    ensures forall x :: x in up ==> x < |s.nodes| && !s.nodes[x].disposed
  {
    forall x | x in up ensures x < |s.nodes| && !s.nodes[x].disposed {
      var j :| 0 <= j < |up| && up[j] == x;
      assert Found(s, up[j], ParentKinds(k)[j]);
      assert Registered(s, {}, x);
    }
  }

  function NewNode(s: State, k: Kind, up: seq<Id>, uuid: Uuid, own: Wid): Node {
    Node(k, uuid, WidOf(s, k, up, own), 0, INIT_REFS, false, false, Building, up, [])
  }

  lemma NewNodeFresh(s: State, t: State, k: Kind, up: seq<Id>, uuid: Uuid, own: Wid)
    requires ParentsFound(s, k, up) && OnlyRefs(s, t) && uuid !in s.byUuid && k !in {Room, Member}
    ensures Fresh(t, NewNode(s, k, up, uuid, own))
  {
    forall j | 0 <= j < |up| ensures up[j] < |t.nodes| && t.nodes[up[j]].kind == ParentKinds(k)[j] {
      assert Found(s, up[j], ParentKinds(k)[j]);
    }
  }

  /** Two references on every parent: one for the creator, one for the resource to come. */
  function HeldTwice(s: State, up: seq<Id>): State {
    Grab(Hold(Grab(s, up), up), up)
  }

  lemma HeldTwiceGood(s: State, k: Kind, up: seq<Id>)
    requires Good(s) && ParentsFound(s, k, up)
    ensures GoodBut(HeldTwice(s, up), multiset(up), {}, {}) && OnlyRefs(s, HeldTwice(s, up))
    ensures HeldTwice(s, up).borrows == s.borrows + multiset(up)
  {
    hide GoodBut;
    GoodParts(s, multiset{});
    FoundAlive(s, k, up);
    GrabGood(s, multiset{}, up);
    HoldGood(Grab(s, up), multiset{}, up);
    var s1 := Hold(Grab(s, up), up);
    GrabGood(s1, multiset{}, up);
    assert multiset{} + multiset(up) == multiset(up);
  }

  lemma {:induction false} BeginGood(s: State, k: Kind, up: seq<Id>, uuid: Uuid, own: Wid)
    requires Good(s) && uuid !in s.byUuid && k !in {Room, Member}
    ensures Good(Begin(s, k, up, uuid, own))
  {
    hide GoodBut, Register, Append, Fresh, Grab, Hold, OnlyRefs;
    if ParentsFound(s, k, up) {
      var s2 := HeldTwice(s, up);
      HeldTwiceGood(s, k, up);
      NewNodeFresh(s, s2, k, up, uuid, own);
      assert multiset{} + multiset(up) == multiset(up);
      AppendGood(s2, multiset{}, NewNode(s, k, up, uuid, own));
    }
  }

  lemma GoodParts(s: State, P: multiset<Id>)
    requires GoodBut(s, P, {}, {})
    ensures Shape(s) && Balanced(s, P) && Links(s) && IdMap(s, {}) && UuidMap(s) && Owners(s) && PositiveBut(s, {})
  {
  }

  // ---------------------------------------------------------------- finishing

  lemma SetPhaseFrame(s: State, c: Id, p: Phase)
    requires Good(s) && UnderConstruction(s, c) && p != Building
    ensures var t := SetPhase(s, c, p); Shape(t) && Links(t) && Registry(t, {}) && Owners(t)
  {
    assert ShapeAt(s.nodes, c);
    SameGraphFrame(s, SetPhase(s, c, p), {});
  }

  /** The references that somebody else than the creator has on `c`. */
  function OthersOn(s: State, c: Id): int
    requires c < |s.nodes|
  {
    In(s.nodes, c) + s.borrows[c]
  }

  lemma PhaseHolders(s: State, c: Id, p: Phase, n: int, i: Id)
    requires c < |s.nodes| && i < |s.nodes|
    ensures var t := AddRefs(SetPhase(s, c, p), c, n);
      Holders(t, multiset{}, i) == t.nodes[i].Main() + In(s.nodes, i) + s.borrows[i]
  {
    InUpdate(s.nodes, c, s.nodes[c].(phase := p), i);
    InUpdate(SetPhase(s, c, p).nodes, c, AddRefs(SetPhase(s, c, p), c, n).nodes[c], i);
  }

  lemma FinishAddRefs(s: State, c: Id, p: Phase, n: int)
    requires Good(s) && UnderConstruction(s, c)
    requires (p == Live && n == -INIT_REFS + 1) || (p == Failed && n == -INIT_REFS && !s.nodes[c].closed)
    ensures GoodBut(AddRefs(SetPhase(s, c, p), c, n), multiset{}, {}, {c})
  {
    var u := SetPhase(s, c, p);
    var t := AddRefs(u, c, n);
    SetPhaseFrame(s, c, p);
    SameGraphFrame(u, t, {});
    FinishBalanced(s, c, p, n);
    FinishRest(s, c, p, n);
  }

  lemma FinishBalanced(s: State, c: Id, p: Phase, n: int)
    requires Balanced(s, multiset{}) && UnderConstruction(s, c)
    requires (p == Live && n == -INIT_REFS + 1) || (p == Failed && n == -INIT_REFS && !s.nodes[c].closed)
    ensures Balanced(AddRefs(SetPhase(s, c, p), c, n), multiset{})
  {
    hide In;
    var t := AddRefs(SetPhase(s, c, p), c, n);
    forall i | 0 <= i < |t.nodes| ensures BalancedAt(t, multiset{}, i) {
      assert BalancedAt(s, multiset{}, i);
      PhaseHolders(s, c, p, n, i);
    }
  }

  lemma FinishRest(s: State, c: Id, p: Phase, n: int)
    requires PositiveBut(s, {}) && NoHazard(s) && UnderConstruction(s, c) && (p == Failed ==> !s.nodes[c].closed)
    ensures var t := AddRefs(SetPhase(s, c, p), c, n); PositiveBut(t, {c}) && NoHazard(t)
  {
  }

  /** A successful creator keeps the invariant, whatever happened while it waited. */
  lemma FinishOkGood(s: State, c: Id)
    requires Good(s) && UnderConstruction(s, c)
    ensures Good(FinishOk(s, c))
  {
    FinishAddRefs(s, c, Live, -INIT_REFS + 1);
    RefLkGood(SetPhase(s, c, Live), multiset{}, {}, c, -INIT_REFS + 1);
  }

  lemma HolderRank(s: State, h: Id, c: Id)
    requires Shape(s) && h < |s.nodes| && c < |s.nodes| && s.nodes[h].Holds(c) >= 1
    ensures Rank(s.nodes[h].kind) > Rank(s.nodes[c].kind)
  {
    assert ShapeAt(s.nodes, h);
    var n := s.nodes[h];
    if c in n.up {
      var j :| 0 <= j < |n.up| && n.up[j] == c;
    } else {
      assert c in n.owned;
    }
  }

  /** Disposing something does not make its holders go away. */
  lemma HoldersStay(s: State, c: Id, n: int)
    requires Shape(s) && c < |s.nodes| && OthersOn(s, c) >= 1
    ensures OthersOn(RefLk(s, c, n), c) >= 1
  {
    var t := RefLk(s, c, n);
    RefLkFrame(s, c, n);
    assert FrameAt(s, t, c);
    if In(s.nodes, c) >= 1 {
      var h := InWitness(s.nodes, c);
      HolderRank(s, h, c);
      InAtLeast(t.nodes, h, c);
    }
  }

  lemma FailClosedHeld(s: State, c: Id)
    requires Good(s) && UnderConstruction(s, c) && s.nodes[c].closed && s.nodes[c].refs != INIT_REFS - 1
    ensures !Good(FinishFail(s, c))
  {
    var u := SetPhase(s, c, Failed);
    var t := FinishFail(s, c);
    assert BalancedAt(s, multiset{}, c);
    SetPhaseFrame(s, c, Failed);
    InUpdate(s.nodes, c, u.nodes[c], c);
    RefLkFrame(u, c, -INIT_REFS);
    assert FrameAt(u, t, c);
    HoldersStay(u, c, -INIT_REFS);
    assert EvolvesTo(u.nodes[c], t.nodes[c]);
    if t.nodes[c].disposed {
      assert !BalancedAt(t, multiset{}, c);
    } else {
      assert !NoHazard(t);
    }
  }

  lemma FailClosedAlone(s: State, c: Id)
    requires Good(s) && UnderConstruction(s, c) && s.nodes[c].closed && s.nodes[c].refs == INIT_REFS - 1
    ensures Good(FinishFail(s, c))
  {
    FailClosedRipe(s, c);
    DisposeGood(SetPhase(s, c, Failed), multiset{}, {}, c, -INIT_REFS);
  }

  lemma FailClosedRipe(s: State, c: Id)
    requires Good(s) && UnderConstruction(s, c) && s.nodes[c].closed && s.nodes[c].refs == INIT_REFS - 1
    ensures Ripe(AddRefs(SetPhase(s, c, Failed), c, -INIT_REFS), multiset{}, {}, c)
  {
    hide In;
    var u := SetPhase(s, c, Failed);
    var t := AddRefs(u, c, -INIT_REFS);
    SetPhaseFrame(s, c, Failed);
    SameGraphFrame(u, t, {});
    assert BalancedAt(s, multiset{}, c);
    forall i | 0 <= i < |t.nodes| ensures i == c || BalancedAt(t, multiset{}, i) {
      assert BalancedAt(s, multiset{}, i);
      PhaseHolders(s, c, Failed, -INIT_REFS, i);
    }
    PhaseHolders(s, c, Failed, -INIT_REFS, c);
  }

  /** A failing creator leaves the ledger intact exactly when nobody closed its resource in
      the meantime, or nobody else holds it: both can be read off the resource beforehand. */
  lemma FinishFailExact(s: State, c: Id)
    requires Good(s) && UnderConstruction(s, c)
    ensures Good(FinishFail(s, c)) <==> !s.nodes[c].closed || s.nodes[c].refs == INIT_REFS - 1
  {
    if !s.nodes[c].closed {
      FinishAddRefs(s, c, Failed, -INIT_REFS);
      RefLkGood(SetPhase(s, c, Failed), multiset{}, {}, c, -INIT_REFS);
    } else if s.nodes[c].refs == INIT_REFS - 1 {
      FailClosedAlone(s, c);
    } else {
      FailClosedHeld(s, c);
    }
  }

  /** Nobody can dispose a resource before its creator has spoken, and when the creator of a
      resource that was closed meanwhile succeeds, the resource goes away exactly if nobody
      else holds it. */
  lemma FinishDisposes(s: State, c: Id)
    requires Good(s) && UnderConstruction(s, c)
    ensures s.nodes[c].refs >= INIT_REFS - 1
    ensures FinishOk(s, c).nodes[c].disposed <==> s.nodes[c].closed && OthersOn(s, c) == 0
    ensures !s.nodes[c].closed ==> (FinishFail(s, c).nodes[c].disposed <==> OthersOn(s, c) == 0)
  {
    hide RefLk, GoodBut;
    CreatorShare(s, c);
    FinishOkDisposes(s, c);
    if !s.nodes[c].closed { FinishFailDisposes(s, c); }
  }

  lemma CreatorShare(s: State, c: Id)
    requires Good(s) && UnderConstruction(s, c)
    ensures s.nodes[c].refs == s.nodes[c].Main() + OthersOn(s, c) && OthersOn(s, c) >= 0
  {
    assert BalancedAt(s, multiset{}, c);
  }

  lemma NotBelowOne(s: State, c: Id, n: int)
    requires c < |s.nodes| && !s.nodes[c].disposed && s.nodes[c].refs + n >= 1
    ensures !RefLk(s, c, n).nodes[c].disposed
  {
  }

  lemma FinishOkDisposes(s: State, c: Id)
    requires Good(s) && UnderConstruction(s, c)
    ensures FinishOk(s, c).nodes[c].disposed <==> s.nodes[c].closed && OthersOn(s, c) == 0
  {
    hide RefLk, GoodBut, Ripe;
    CreatorShare(s, c);
    var u := SetPhase(s, c, Live);
    if u.nodes[c].refs - INIT_REFS + 1 < 1 {
      FinishAddRefs(s, c, Live, -INIT_REFS + 1);
      BelowOneIsRipe(AddRefs(u, c, -INIT_REFS + 1), multiset{}, {}, c);
      DisposeGood(u, multiset{}, {}, c, -INIT_REFS + 1);
    } else {
      NotBelowOne(u, c, -INIT_REFS + 1);
    }
  }

  lemma FinishFailDisposes(s: State, c: Id)
    requires Good(s) && UnderConstruction(s, c) && !s.nodes[c].closed
    ensures FinishFail(s, c).nodes[c].disposed <==> OthersOn(s, c) == 0
  {
    hide RefLk, GoodBut, Ripe;
    CreatorShare(s, c);
    var v := SetPhase(s, c, Failed);
    if v.nodes[c].refs - INIT_REFS < 1 {
      FinishAddRefs(s, c, Failed, -INIT_REFS);
      BelowOneIsRipe(AddRefs(v, c, -INIT_REFS), multiset{}, {}, c);
      DisposeGood(v, multiset{}, {}, c, -INIT_REFS);
    } else {
      NotBelowOne(v, c, -INIT_REFS);
    }
  }
}
