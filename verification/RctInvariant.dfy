/**
 What every reachable state of the resource graph keeps. `P` lists releases that are still
 to be made by the cascade in progress, `D` the disposed resources that the cascade has not
 yet taken out of the registry; between lock-held calls both are empty.
 */
module RctInvariant {
  import opened RctState
  import opened RctRefs

  // ---------------------------------------------------------------- shape

  predicate Ownable(k: Kind) {
    k in {Transport, Producer, Consumer}
  }

  /** The kinds of the parents of a resource of kind `k`, in the order of `up`. */
  function ParentKinds(k: Kind): seq<Kind> {
    match k
    case Router => []
    case Room => [Router]
    case Member => [Room]
    case Transport => [Router]
    case Producer => [Transport]
    case Consumer => [Producer, Transport]
    case Observer => [Router]
  }

  ghost predicate ShapeAt(nodes: seq<Node>, i: Id)
    requires i < |nodes|
  {
    var n := nodes[i];
    && |n.up| == |ParentKinds(n.kind)|
    && (forall j :: 0 <= j < |n.up| ==> n.up[j] < i && nodes[n.up[j]].kind == ParentKinds(n.kind)[j])
    && (forall x :: x in n.owned ==> x < |nodes| && Ownable(nodes[x].kind))
    && (n.kind != Member ==> n.owned == [])
    && (n.kind in {Room, Member} ==> n.phase == Live) // created in one lock-held section
  }

  ghost predicate Shape(s: State) {
    && |s.lists| == |s.nodes|
    && (forall i :: 0 <= i < |s.nodes| ==> ShapeAt(s.nodes, i))
  }

  // ---------------------------------------------------------------- ledger

  /** Everybody who is entitled to a reference on resource `i`. */
  function Holders(s: State, P: multiset<Id>, i: Id): int
    requires i < |s.nodes|
  {
    s.nodes[i].Main() + In(s.nodes, i) + s.borrows[i] + P[i]
  }

  ghost predicate BalancedAt(s: State, P: multiset<Id>, i: Id)
    requires i < |s.nodes|
  {
    if s.nodes[i].disposed then Holders(s, P, i) == 0 else s.nodes[i].refs == Holders(s, P, i)
  }

  /** Reference conservation; a disposed resource has no holder left. */
  ghost predicate Balanced(s: State, P: multiset<Id>) {
    && (forall i :: 0 <= i < |s.nodes| ==> BalancedAt(s, P, i))
    && (forall i :: i in s.borrows ==> i < |s.nodes|)
  }

  /** An undisposed resource other than `z` has a positive counter. */
  ghost predicate PositiveBut(s: State, z: set<Id>) {
    forall i :: 0 <= i < |s.nodes| && !s.nodes[i].disposed && i !in z ==> s.nodes[i].refs >= 1
  }

  /** No undisposed resource was both closed and given up by its creator. */
  ghost predicate NoHazard(s: State) {
    forall i :: 0 <= i < |s.nodes| && !s.nodes[i].disposed && s.nodes[i].phase == Failed ==> !s.nodes[i].closed
  }

  // ---------------------------------------------------------------- lists

  /** `x` belongs in the list of kind `k` of `p`. */
  predicate Child(nodes: seq<Node>, p: Id, k: Kind, x: Id) {
    x < |nodes| && nodes[x].kind == k && p in nodes[x].up && nodes[x].Listed()
  }

  predicate Before(k: Kind, x: Id, y: Id) {
    if k == Member then x < y else x > y
  }

  /** Newest first for pushed lists, join order for members; in particular no duplicates. */
  ghost predicate Ordered(k: Kind, l: seq<Id>) {
    forall i, j :: 0 <= i < j < |l| ==> Before(k, l[i], l[j])
  }

  ghost predicate ListAt(s: State, p: Id, k: Kind)
    requires p < |s.lists|
  {
    && Ordered(k, s.lists[p].Get(k))
    && forall x :: x in s.lists[p].Get(k) <==> Child(s.nodes, p, k, x)
  }

  predicate IsListKind(k: Kind) {
    k == Member || UnlinkedByDispose(k)
  }

  ghost predicate RoomAt(s: State, r: Id)
    requires r < |s.lists|
  {
    && |s.lists[r].room| <= 1
    && forall x :: x in s.lists[r].room ==> x < |s.nodes| && s.nodes[x].kind == Room && s.nodes[x].up == [r]
  }

  ghost predicate OpenRoomAt(s: State, x: Id)
    requires x < |s.nodes|
  {
    var n := s.nodes[x];
    n.kind == Room && !n.disposed && !n.closed ==>
      |n.up| == 1 && n.up[0] < |s.lists| && s.lists[n.up[0]].room == [x]
  }

  ghost predicate Links(s: State) {
    && (forall p, k :: 0 <= p < |s.lists| && IsListKind(k) ==> ListAt(s, p, k))
    && (forall r :: 0 <= r < |s.lists| ==> RoomAt(s, r))
    && (forall x :: 0 <= x < |s.nodes| ==> OpenRoomAt(s, x))
  }

  // ---------------------------------------------------------------- registry

  ghost predicate Registered(s: State, D: set<Id>, i: Id) {
    i < |s.nodes| && (!s.nodes[i].disposed || i in D)
  }

  ghost predicate IdMap(s: State, D: set<Id>) {
    && (forall i :: i in s.byId <==> Registered(s, D, i))
    && (forall i :: i in D ==> i < |s.nodes| && s.nodes[i].disposed)
  }

  /** The uuid map holds the same resources as the id map. */
  ghost predicate UuidMap(s: State) {
    && (forall i :: i in s.byId ==>
          i < |s.nodes| && s.nodes[i].uuid in s.byUuid && s.byUuid[s.nodes[i].uuid] == i)
    && (forall u :: u in s.byUuid ==> s.byUuid[u] in s.byId && s.nodes[s.byUuid[u]].uuid == u)
  }

  /** A worker's load score is the number of registered resources that carry its id. */
  ghost predicate LoadMap(s: State) {
    forall w :: w != 0 ==> LoadOf(s.load, w) == |CarriedBy(s.nodes, s.byId, w)|
  }

  /** The last published level of each gauge is a recount of the registry. */
  ghost predicate GaugeMap(s: State) {
    forall g :: g in s.gauges && s.gauges[g] == |CountedBy(s.nodes, s.byId, g)|
  }

  ghost predicate Registry(s: State, D: set<Id>) {
    IdMap(s, D) && UuidMap(s) && LoadMap(s) && GaugeMap(s)
  }

  // ---------------------------------------------------------------- owners

  ghost predicate Owners(s: State) {
    && (forall r :: r in s.owner ==>
          s.owner[r] < |s.nodes| && !s.nodes[s.owner[r]].disposed && r in s.nodes[s.owner[r]].owned)
    && (forall m, r :: 0 <= m < |s.nodes| && !s.nodes[m].disposed && r in s.nodes[m].owned ==>
          r in s.owner && s.owner[r] == m)
  }

  // ---------------------------------------------------------------- all of it

  ghost predicate GoodBut(s: State, P: multiset<Id>, D: set<Id>, z: set<Id>) {
    && Shape(s) && Balanced(s, P) && PositiveBut(s, z) && NoHazard(s)
    && Links(s) && Registry(s, D) && Owners(s) && !s.fault
  }

  /** The invariant between lock-held calls. */
  ghost predicate Good(s: State) {
    GoodBut(s, multiset{}, {}, {})
  }

  // ---------------------------------------------------------------- counting lemmas

  lemma {:induction false} InUpdate(nodes: seq<Node>, i: Id, n: Node, x: Id)
    requires i < |nodes|
    ensures In(nodes[i := n], x) == In(nodes, x) - nodes[i].Holds(x) + n.Holds(x)
  {
    var k := |nodes| - 1;
    if i < k {
      assert nodes[i := n][..k] == nodes[..k][i := n];
      InUpdate(nodes[..k], i, n, x);
    } else {
      assert nodes[i := n][..k] == nodes[..k];
    }
  }

  lemma {:induction false} InSame(a: seq<Node>, b: seq<Node>, x: Id)
    requires |a| == |b| && forall i :: 0 <= i < |a| ==> a[i].Holds(x) == b[i].Holds(x)
    ensures In(a, x) == In(b, x)
  {
    if a != [] {
      InSame(a[..|a| - 1], b[..|b| - 1], x);
    }
  }

  lemma {:induction false} InAtLeast(nodes: seq<Node>, h: Id, x: Id)
    requires h < |nodes|
    ensures In(nodes, x) >= nodes[h].Holds(x)
  {
    if h < |nodes| - 1 {
      InAtLeast(nodes[..|nodes| - 1], h, x);
    }
  }

  lemma {:induction false} InWitness(nodes: seq<Node>, x: Id) returns (h: Id)
    requires In(nodes, x) >= 1
    ensures h < |nodes| && nodes[h].Holds(x) >= 1
  {
    if nodes[|nodes| - 1].Holds(x) >= 1 {
      h := |nodes| - 1;
    } else {
      h := InWitness(nodes[..|nodes| - 1], x);
    }
  }

  /** No dangling references: whatever an undisposed resource refers to is undisposed. */
  lemma HeldIsAlive(s: State, P: multiset<Id>, h: Id, x: Id)
    requires Balanced(s, P) && h < |s.nodes| && x < |s.nodes|
    requires !s.nodes[h].disposed && (x in s.nodes[h].up || x in s.nodes[h].owned)
    ensures !s.nodes[x].disposed
  {
    InAtLeast(s.nodes, h, x);
    assert BalancedAt(s, P, x);
  }
}
