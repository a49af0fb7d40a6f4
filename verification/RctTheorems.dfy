/**
 What holds in every reachable state of the resource graph, in its own terms.
 */
module RctTheorems {
  import opened RctState
  import opened RctRefs
  import opened RctInvariant
  import opened RctRelease
  import opened RctClose
  import opened RctCascade
  import opened RctSteps
  import opened RctCreation
  import opened RctProtocol
  import opened RctRooms
  import opened RctRollback
  import opened RctSurvival
  import opened RctHistory
  import opened RctRuns

  // ---------------------------------------------------------------- reference conservation

  /** The undisposed resources that name `x` as a parent. */
  function LiveChildren(nodes: seq<Node>, x: Id): set<Id> {
    set c | 0 <= c < |nodes| && !nodes[c].disposed && x in nodes[c].up
  }

  /** How often the owner of `x` lists it. */
  function OwnerEntries(s: State, x: Id): nat {
    if x in s.owner && s.owner[x] < |s.nodes| then multiset(s.nodes[s.owner[x]].owned)[x] else 0
  }

  ghost predicate SingleParents(nodes: seq<Node>, x: Id) {
    forall c :: 0 <= c < |nodes| ==> multiset(nodes[c].up)[x] == (if x in nodes[c].up then 1 else 0)
  }

  /** Only `o`, if anybody, lists `x`. */
  ghost predicate OneOwner(nodes: seq<Node>, x: Id, o: Option<Id>) {
    forall c :: 0 <= c < |nodes| && !nodes[c].disposed && x in nodes[c].owned ==> o == Some(c)
  }

  function Entries(nodes: seq<Node>, x: Id, o: Option<Id>): nat {
    if o.Some? && o.value < |nodes| then multiset(nodes[o.value].owned)[x] else 0
  }

  lemma {:induction false} InIsCount(nodes: seq<Node>, x: Id, o: Option<Id>)
    requires SingleParents(nodes, x) && OneOwner(nodes, x, o)
    requires o.Some? && o.value < |nodes| ==> !nodes[o.value].disposed
    ensures In(nodes, x) == |LiveChildren(nodes, x)| + Entries(nodes, x, o)
  {
    if nodes != [] {
      var k := |nodes| - 1;
      var pre := nodes[..k];
      OneLess(nodes, x, o);
      InIsCount(pre, x, o);
      ChildrenMore(nodes, x);
    }
  }

  lemma ChildrenMore(nodes: seq<Node>, x: Id)
    requires nodes != []
    ensures var n := nodes[|nodes| - 1];
      |LiveChildren(nodes, x)| == |LiveChildren(nodes[..|nodes| - 1], x)| + (if !n.disposed && x in n.up then 1 else 0)
  {
    var k := |nodes| - 1;
    var pre := nodes[..k];
    if !nodes[k].disposed && x in nodes[k].up {
      assert LiveChildren(nodes, x) == LiveChildren(pre, x) + {k};
    } else {
      assert LiveChildren(nodes, x) == LiveChildren(pre, x);
    }
  }

  lemma OneLess(nodes: seq<Node>, x: Id, o: Option<Id>)
    requires nodes != [] && SingleParents(nodes, x) && OneOwner(nodes, x, o)
    requires o.Some? && o.value < |nodes| ==> !nodes[o.value].disposed
    ensures var pre := nodes[..|nodes| - 1]; var n := nodes[|nodes| - 1];
      && SingleParents(pre, x) && OneOwner(pre, x, o)
      && Entries(nodes, x, o) == Entries(pre, x, o) + (if n.disposed then 0 else multiset(n.owned)[x])
  {
    var k := |nodes| - 1;
    assert !nodes[k].disposed && x in nodes[k].owned ==> o == Some(k);
  }

  lemma ParentsOnce(s: State, x: Id)
    requires Shape(s)
    ensures SingleParents(s.nodes, x)
  {
    forall c | 0 <= c < |s.nodes| ensures multiset(s.nodes[c].up)[x] == (if x in s.nodes[c].up then 1 else 0) {
      assert ShapeAt(s.nodes, c);
      var u := s.nodes[c].up;
      if |u| == 0 {
        assert u == [];
      } else if |u| == 1 {
        assert u == [u[0]];
      } else {
        assert u == [u[0], u[1]];
        assert s.nodes[u[0]].kind != s.nodes[u[1]].kind;
      }
    }
  }

  /** The references that a resource keeps for itself, and those that its creator added. */
  function OwnShare(n: Node): int {
    (if n.closed || n.phase == Failed then 0 else 1) + (if n.phase == Building then INIT_REFS - 1 else 0)
  }

  lemma {:induction false} LedgerAt(s: State, i: Id)
    requires Inv(s) && i < |s.nodes|
    ensures In(s.nodes, i) == |LiveChildren(s.nodes, i)| + OwnerEntries(s, i)
    ensures !s.nodes[i].disposed ==>
      s.nodes[i].refs == OwnShare(s.nodes[i]) + |LiveChildren(s.nodes, i)| + OwnerEntries(s, i) + s.borrows[i] >= 1
  {
    hide GoodBut, Settled, Slots, In, LiveChildren, Shape, Links;
    GoodParts(s, multiset{});
    HeldCount(s, i);
    AliveIffHeld(s, i);
    if !s.nodes[i].disposed {
      OwnShareIs(s, i);
      AliveIffPositive(s, i);
    }
  }

  lemma HeldCount(s: State, i: Id)
    requires Shape(s) && Owners(s)
    ensures In(s.nodes, i) == |LiveChildren(s.nodes, i)| + OwnerEntries(s, i)
  {
    hide In, LiveChildren;
    ParentsOnce(s, i);
    InIsCount(s.nodes, i, if i in s.owner then Some(s.owner[i]) else None);
  }

  lemma OwnShareIs(s: State, i: Id)
    requires Good(s) && i < |s.nodes| && !s.nodes[i].disposed
    ensures OwnShare(s.nodes[i]) == s.nodes[i].Main()
  {
  }

  /** Reference conservation in every reachable state: one for an open resource, one for each
      undisposed child, one for each entry in its owner's list, one for each borrowed
      reference, and what its creator added while the resource is under construction. */
  lemma {:induction false} ReferenceConservation(steps: seq<Step>, i: Id)
    requires RunOk(EMPTY, steps) && i < |Run(EMPTY, steps).nodes| && !Run(EMPTY, steps).nodes[i].disposed
    ensures var s := Run(EMPTY, steps);
      s.nodes[i].refs == OwnShare(s.nodes[i]) + |LiveChildren(s.nodes, i)| + OwnerEntries(s, i) + s.borrows[i]
  {
    hide Inv, DistinctUsers, Run, RunOk;
    RunInv(steps);
    LedgerAt(Run(EMPTY, steps), i);
  }

  // ---------------------------------------------------------------- nothing dangles

  /** Every parent pointer, list link, registry value, owner entry and borrowed reference names
      an undisposed resource, and no operation has touched a disposed one. */
  ghost predicate NothingDangles(s: State) {
    && !s.fault
    && (forall c: Id, p: Id :: Alive(s, c) && p in s.nodes[c].up ==> Alive(s, p))
    && (forall m: Id, r: Id :: Alive(s, m) && r in s.nodes[m].owned ==> Alive(s, r))
    && (forall p: Id, k: Kind, x: Id :: p < |s.lists| && x in s.lists[p].Get(k) ==> Alive(s, x))
    && (forall i :: i in s.byId ==> Alive(s, i))
    && (forall u :: u in s.byUuid ==> Alive(s, s.byUuid[u]))
    && (forall r :: r in s.owner ==> Alive(s, r) && Alive(s, s.owner[r]))
    && (forall i :: i in s.borrows ==> Alive(s, i))
  }

  lemma LinksAlive(s: State, p: Id, k: Kind, x: Id)
    requires Inv(s) && p < |s.lists| && x in s.lists[p].Get(k)
    ensures Alive(s, x)
  {
    if IsListKind(k) {
      assert ListAt(s, p, k);
      assert Child(s.nodes, p, k, x);
    } else {
      assert SlotAt(s, p);
      assert k == Room;
    }
  }

  lemma UpAlive(s: State, c: Id, p: Id)
    requires Inv(s) && Alive(s, c) && (p in s.nodes[c].up || p in s.nodes[c].owned)
    ensures Alive(s, p)
  {
    assert ShapeAt(s.nodes, c);
    HeldIsAlive(s, multiset{}, c, p);
  }

  lemma MapsAlive(s: State)
    requires Inv(s)
    ensures (forall i :: i in s.byId ==> Alive(s, i)) && (forall u :: u in s.byUuid ==> Alive(s, s.byUuid[u]))
    ensures forall i :: i in s.borrows ==> Alive(s, i)
  {
    forall i | i in s.byId ensures Alive(s, i) { assert Registered(s, {}, i); }
    forall i | i in s.borrows ensures Alive(s, i) { BorrowedIsAlive(s, i); }
  }

  lemma InvNothingDangles(s: State)
    requires Inv(s)
    ensures NothingDangles(s)
  {
    hide Shape, Balanced, Links, Registry, Settled, Slots, PositiveBut, NoHazard;
    forall c: Id, p: Id | Alive(s, c) && p in s.nodes[c].up ensures Alive(s, p) { UpAlive(s, c, p); }
    forall m: Id, r: Id | Alive(s, m) && r in s.nodes[m].owned ensures Alive(s, r) { UpAlive(s, m, r); }
    forall p: Id, k: Kind, x: Id | p < |s.lists| && x in s.lists[p].Get(k) ensures Alive(s, x) { LinksAlive(s, p, k, x); }
    MapsAlive(s);
    forall r | r in s.owner ensures Alive(s, r) && Alive(s, s.owner[r]) { UpAlive(s, s.owner[r], r); }
  }

  lemma {:induction false} NoDanglingLinks(steps: seq<Step>)
    requires RunOk(EMPTY, steps)
    ensures NothingDangles(Run(EMPTY, steps))
  {
    hide Inv, DistinctUsers, Run, RunOk, NothingDangles;
    RunInv(steps);
    InvNothingDangles(Run(EMPTY, steps));
  }

  /** A resource that still has an undisposed dependent has not been disposed. */
  lemma {:induction false} DisposedAfterDependents(s: State, p: Id, x: Id)
    requires Inv(s) && Alive(s, x) && Below(s.nodes, p, x)
    ensures Alive(s, p)
    decreases x
  {
    if p != x {
      var j := if s.nodes[x].up[0] < x && Below(s.nodes, p, s.nodes[x].up[0]) then 0 else 1;
      UpAlive(s, x, s.nodes[x].up[j]);
      DisposedAfterDependents(s, p, s.nodes[x].up[j]);
    }
  }

  // ---------------------------------------------------------------- registry, lists, owners

  /** The undisposed resources that carry `w`. */
  function Carriers(nodes: seq<Node>, w: Wid): set<Id> {
    set i | 0 <= i < |nodes| && !nodes[i].disposed && nodes[i].wid == w
  }

  /** The undisposed resources of the kinds `ks`. */
  function OfKind(nodes: seq<Node>, ks: set<Kind>): set<Id> {
    set i | 0 <= i < |nodes| && !nodes[i].disposed && nodes[i].kind in ks
  }

  lemma GaugeIs(s: State, g: Gauge, ks: set<Kind>)
    requires GaugeMap(s) && (forall i :: i in s.byId <==> Alive(s, i)) && (forall k: Kind :: GaugeOf(k) == Some(g) <==> k in ks)
    ensures g in s.gauges && s.gauges[g] == |OfKind(s.nodes, ks)|
  {
    assert CountedBy(s.nodes, s.byId, g) == OfKind(s.nodes, ks);
  }

  /** Both maps hold exactly the undisposed resources, the load of a worker counts those that
      carry it, and the published gauges are their recount. */
  lemma {:induction false} RegistryAgreement(steps: seq<Step>)
    requires RunOk(EMPTY, steps)
    ensures var s := Run(EMPTY, steps);
      && (forall i :: i in s.byId <==> Alive(s, i))
      && (forall i: Id :: Alive(s, i) ==> s.nodes[i].uuid in s.byUuid && s.byUuid[s.nodes[i].uuid] == i)
      && (forall u :: u in s.byUuid ==> Alive(s, s.byUuid[u]) && s.nodes[s.byUuid[u]].uuid == u)
      && (forall w :: w != 0 ==> LoadOf(s.load, w) == |Carriers(s.nodes, w)|)
      && Rooms in s.gauges && s.gauges[Rooms] == |OfKind(s.nodes, {Room})|
      && RoomUsers in s.gauges && s.gauges[RoomUsers] == |OfKind(s.nodes, {Member})|
      && Streams in s.gauges && s.gauges[Streams] == |OfKind(s.nodes, {Producer, Consumer})|
  {
    hide Run, RunOk, DistinctUsers, Settled, Slots, Balanced, Links, Owners;
    RunInv(steps);
    var s := Run(EMPTY, steps);
    ById(s);
    forall w | w != 0 ensures LoadOf(s.load, w) == |Carriers(s.nodes, w)| {
      assert CarriedBy(s.nodes, s.byId, w) == Carriers(s.nodes, w);
    }
    GaugeIs(s, Rooms, {Room});
    GaugeIs(s, RoomUsers, {Member});
    GaugeIs(s, Streams, {Producer, Consumer});
  }

  /** Each child list has exactly the undisposed children (for members: the open ones), without
      repetition, newest first; members stand in the order in which they joined. */
  lemma {:induction false} ListAgreement(steps: seq<Step>, p: Id, k: Kind)
    requires RunOk(EMPTY, steps) && p < |Run(EMPTY, steps).lists| && IsListKind(k)
    ensures var s := Run(EMPTY, steps); var l := s.lists[p].Get(k);
      && (forall i, j :: 0 <= i < j < |l| ==> if k == Member then l[i] < l[j] else l[j] < l[i])
      && forall x: Id :: x in l <==>
           Alive(s, x) && s.nodes[x].kind == k && p in s.nodes[x].up && (k == Member ==> !s.nodes[x].closed)
  {
    hide Run, RunOk, DistinctUsers, Settled, Slots, Balanced, Registry, Owners;
    RunInv(steps);
    var s := Run(EMPTY, steps);
    assert ListAt(s, p, k);
    forall x: Id ensures x in s.lists[p].Get(k) <==>
      Alive(s, x) && s.nodes[x].kind == k && p in s.nodes[x].up && (k == Member ==> !s.nodes[x].closed)
    {
      assert x in s.lists[p].Get(k) <==> Child(s.nodes, p, k, x);
    }
  }

  /** The owner index maps `r` to `m` exactly if the undisposed member `m` lists `r`. */
  lemma {:induction false} OwnerAgreement(steps: seq<Step>, m: Id, r: Id)
    requires RunOk(EMPTY, steps)
    ensures var s := Run(EMPTY, steps);
      (r in s.owner && s.owner[r] == m) <==> (Alive(s, m) && r in s.nodes[m].owned)
  {
    hide Run, RunOk, DistinctUsers, Settled, Slots, Balanced, Registry, Links;
    RunInv(steps);
  }

  /** Two open members of one room belong to different users. */
  lemma SeatsAreDistinct(steps: seq<Step>, x: Id, y: Id)
    requires RunOk(EMPTY, steps)
    requires var s := Run(EMPTY, steps);
      && Alive(s, x) && Alive(s, y) && x != y && s.nodes[x].kind == Member && s.nodes[y].kind == Member
      && !s.nodes[x].closed && !s.nodes[y].closed && s.nodes[x].up == s.nodes[y].up
    ensures var s := Run(EMPTY, steps); s.nodes[x].user != s.nodes[y].user
  {
    hide Run, RunOk, Inv;
    RunInv(steps);
    var s := Run(EMPTY, steps);
    assert !SameSeat(s.nodes[x], s.nodes[y]);
  }

  // ---------------------------------------------------------------- one life

  lemma {:induction false} ApplyLater(s: State, st: Step)
    requires Inv(s) && Assumed(s, st)
    ensures Later(s, Apply(s, st))
  {
    hide Inv, Begin, FailEarly, RefLk, SetPhase, Borrow, Release, Close, AddOwner, DropOwner, Join, CreateRoom, Later;
    SameNodesLater(s, s);
    match st {
      case BeginCreate(k, up, uuid, own) => BeginLater(s, k, up, uuid, own);
      case CreationRefused(k, up, uuid, own) => InvIsGood(s); FailEarlyLater(s, k, up, uuid, own);
      case CreatorSucceeds(c) => if UnderConstruction(s, c) { FinishLater(s, c, Live, -INIT_REFS + 1); }
      case CreatorFails(c) => if UnderConstruction(s, c) { FinishLater(s, c, Failed, -INIT_REFS); }
      case BorrowRef(i) => BorrowLater(s, i);
      case ReleaseRef(i) => ReleaseLater(s, i);
      case CloseById(i) => CloseLater(s, i);
      case OwnerAdded(m, r, front) => AddOwnerLater(s, m, r, front);
      case OwnerDropped(r) => DropOwnerLater(s, r);
      case MemberJoins(room, prev, uuid, user) => JoinLater(s, room, prev, uuid, user);
      case RoomCreated(router, prev, ru, mu, user) => CreateRoomLater(s, router, prev, ru, mu, user);
    }
  }

  /** Along a run nothing is reopened or revived and no identity changes; with `NoDanglingLinks`
      this makes disposal happen at most once per resource. */
  lemma {:induction false} RunLater(steps: seq<Step>, n: nat)
    requires RunOk(EMPTY, steps) && n <= |steps|
    ensures Later(Run(EMPTY, steps[..n]), Run(EMPTY, steps))
    decreases |steps|
  {
    hide Inv, DistinctUsers, Apply, Assumed, Disciplined, Later;
    if n == |steps| {
      assert steps[..n] == steps;
      SameNodesLater(Run(EMPTY, steps), Run(EMPTY, steps));
    } else {
      var m := |steps| - 1;
      var pre := steps[..m];
      RunOkPrefix(EMPTY, steps);
      RunLater(pre, n);
      assert pre[..n] == steps[..n];
      RunInv(pre);
      ApplyLater(Run(EMPTY, pre), steps[m]);
      LaterTrans(Run(EMPTY, steps[..n]), Run(EMPTY, pre), Run(EMPTY, steps));
    }
  }

  // ---------------------------------------------------------------- half-made resources

  /** A resource that is closed while its creator waits is there until the creator has spoken,
      and goes away at that moment exactly if nobody else holds it. */
  lemma HalfMadeSurvives(s: State, c: Id)
    requires Inv(s) && c < |s.nodes| && s.nodes[c].phase == Building
    ensures Alive(s, c)
    ensures Alive(FinishOk(s, c), c) <==>
      !s.nodes[c].closed || LiveChildren(s.nodes, c) != {} || OwnerEntries(s, c) > 0 || s.borrows[c] > 0
  {
    AliveIffHeld(s, c);
    LedgerAt(s, c);
    FinishDisposes(s, c);
    FinishLater(s, c, Live, -INIT_REFS + 1);
  }

  // ---------------------------------------------------------------- where the code does not check

  lemma CloseCloses(s: State, i: Id)
    requires Inv(s) && i in s.byId && i < |s.nodes| && s.nodes[i].kind != Room && NoFailedBelow(s, i)
    ensures var t := Close(s, i);
      |t.nodes| == |s.nodes| && t.nodes[i].closed && t.nodes[i].phase == s.nodes[i].phase && t.nodes[i].kind == s.nodes[i].kind
  {
    hide GoodBut, Settled, Slots, Closes, Borrow, CloseLk, Release, Evolves;
    var u := Borrow(s, i);
    var t := CloseLk(u, i);
    BorrowInv(s, i);
    BorrowGood(s, multiset{}, i);
    NoFailedOnlyRefs(s, u, i);
    CloseLkInv(u, i);
    ClosesAt(u, t, i);
    GoodParts(t, multiset{});
    BorrowedIsAlive(t, i);
    ReleaseIntent(t, i);
  }

  lemma ClosesAt(s: State, t: State, b: Id)
    requires Closes(s, t, multiset{}, b) && b < |s.nodes|
    ensures EvolvesTo(s.nodes[b], t.nodes[b]) && t.borrows == s.borrows && |t.nodes| == |s.nodes|
  {
  }

  lemma AllBuilding(s: State, b: Id)
    requires forall x :: 0 <= x < |s.nodes| ==> s.nodes[x].phase == Building
    ensures NoFailedBelow(s, b)
  {
  }

  function RouterBegun(): State {
    Begin(EMPTY, Router, [], 1, 7)
  }

  function TransportBegun(): State {
    Begin(RouterBegun(), Transport, [0], 2, 0)
  }

  /** A router and a transport that is closed while its creator waits for the worker. */
  function ClosedWhileWaiting(): State {
    Close(TransportBegun(), 1)
  }

  lemma {:induction false} RouterBegunIs()
    ensures var s := RouterBegun();
      Inv(s) && |s.nodes| == 1 && s.nodes[0] == Node(Router, 1, 7, 0, s.nodes[0].refs, false, false, Building, [], [])
  {
    hide Inv, Begin;
    EmptyInv();
    BeginInv(EMPTY, Router, [], 1, 7);
    InvIsGood(EMPTY);
    BeginFrame(EMPTY, Router, [], 1, 7);
  }

  lemma {:induction false} TransportBegunIs()
    ensures var s := TransportBegun();
      && Inv(s) && |s.nodes| == 2 && s.nodes[0].uuid == 1 && s.nodes[1].uuid == 2 && s.nodes[1].kind == Transport
      && s.nodes[0].phase == Building && s.nodes[1].phase == Building && Alive(s, 1)
  {
    hide Inv, Begin, RouterBegun;
    var s := RouterBegun();
    RouterBegunIs();
    FoundIfAlive(s, 0);
    OtherUuid(s, 2);
    BeginInv(s, Transport, [0], 2, 0);
    InvIsGood(s);
    BeginFrame(s, Transport, [0], 2, 0);
  }

  lemma {:induction false} ClosedWhileWaitingIs()
    ensures var s := ClosedWhileWaiting();
      && Inv(s) && |s.nodes| == 2 && s.nodes[1].kind == Transport && s.nodes[1].phase == Building
      && s.nodes[1].closed && Alive(s, 1) && 3 !in s.byUuid
  {
    hide Inv, Close, NoFailedBelow, TransportBegun;
    var s := TransportBegun();
    TransportBegunIs();
    FoundIfAlive(s, 1);
    AllBuilding(s, 1);
    CloseInv(s, 1);
    CloseCloses(s, 1);
    HalfMadeSurvives(Close(s, 1), 1);
    CloseLater(s, 1);
    OtherUuid(Close(s, 1), 3);
  }

  lemma OtherUuid(s: State, u: Uuid)
    requires Inv(s) && forall i :: 0 <= i < |s.nodes| ==> s.nodes[i].uuid != u
    ensures u !in s.byUuid
  {
  }

  /** Parents are looked up without asking whether they are closed: a producer begun on the
      transport of `ClosedWhileWaiting` stays open below a closed resource. */
  lemma {:induction false} LateChild()
    ensures var s := Begin(ClosedWhileWaiting(), Producer, [1], 3, 0); !Settled(s, multiset{}) && !Inv(s)
  {
    hide GoodBut, Settled, Slots, Begin, ClosedWhileWaiting;
    var s := ClosedWhileWaiting();
    ClosedWhileWaitingIs();
    FoundIfAlive(s, 1);
    BeginExact(s, Producer, [1], 3, 0);
  }

  /** A creator that fails after its resource was closed, while somebody else holds it, takes
      back one reference too many. */
  lemma {:induction false} LateFailure()
    ensures var s := Borrow(ClosedWhileWaiting(), 1);
      && Inv(s) && UnderConstruction(s, 1) && s.nodes[1].closed && !Good(FinishFail(s, 1))
  {
    hide GoodBut, Settled, Slots, Borrow, ClosedWhileWaiting, FinishFail;
    var s := ClosedWhileWaiting();
    var t := Borrow(s, 1);
    ClosedWhileWaitingIs();
    FoundIfAlive(s, 1);
    BorrowInv(s, 1);
    BorrowGood(s, multiset{}, 1);
    LedgerAt(t, 1);
    assert t.borrows[1] >= 1;
    FinishFailExact(t, 1);
  }

  lemma AliveIffPositive(s: State, b: Id)
    requires PositiveBut(s, {}) && Alive(s, b)
    ensures s.nodes[b].refs >= 1
  {
  }
}
