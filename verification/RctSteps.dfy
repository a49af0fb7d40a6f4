/**
 The lock-held sections of src/rct as transitions of the resource graph. Every step takes
 the mutex, does the whole of its work and releases the mutex; waiting for a worker happens
 between two steps.
 */
module RctSteps {
  import opened RctState
  import opened RctRefs
  import opened RctInvariant
  import opened RctClose

  // ---------------------------------------------------------------- borrowing

  predicate Found(s: State, i: Id, k: Kind) {
    i in s.byId && i < |s.nodes| && s.nodes[i].kind == k
  }

  /** One more reference on each of `ids`. */
  function Grab(s: State, ids: seq<Id>): State
    decreases |ids|
  {
    if ids == [] then s else Grab(RefLk(s, ids[0], 1), ids[1..])
  }

  /** rct_resource_by_id_locked: looks a resource up and holds it. */
  function Borrow(s: State, i: Id): State {
    if i in s.byId then Hold(Grab(s, [i]), [i]) else s
  }

  /** The calling thread remembers the references it took. */
  function Hold(s: State, ids: seq<Id>): State {
    s.(borrows := s.borrows + multiset(ids))
  }

  /** rct_resource_unlock and its relatives: gives a held reference back. */
  function Release(s: State, i: Id): State {
    RefLk(s.(borrows := s.borrows - multiset{i}), i, -1)
  }

  // ---------------------------------------------------------------- two-phase creation

  predicate ParentsFound(s: State, k: Kind, up: seq<Id>) {
    && |up| == |ParentKinds(k)|
    && forall j :: 0 <= j < |up| ==> Found(s, up[j], ParentKinds(k)[j])
  }

  /** The worker that a resource counts for: that of the router at the top of its first parent. */
  function WidOf(s: State, k: Kind, up: seq<Id>, own: Wid): Wid {
    if k == Router then own
    else if k in {Transport, Producer, Consumer} && up != [] && up[0] < |s.nodes| then s.nodes[up[0]].wid
    else 0
  }

  function LinkNew(lists: seq<Lists>, n: Node, id: Id): (r: seq<Lists>)
    ensures |r| == |lists|
  {
    seq(|lists|, i requires 0 <= i < |lists| =>
      if i !in n.up then lists[i]
      else match n.kind
        case Member => lists[i].Put(Member, lists[i].members + [id])
        case Room => lists[i].Put(Room, [id])
        case k => lists[i].Put(k, [id] + lists[i].Get(k)))
  }

  /** Links a new resource to its parents. */
  function Append(s: State, n: Node): State {
    s.(nodes := s.nodes + [n], lists := LinkNew(s.lists, n, |s.nodes|) + [NO_LISTS])
  }

  /** The creator's first section: find the parents and hold them, let the new resource hold
      them too, link it, register it, unlock. Nothing happens if a parent is missing. */
  function Begin(s: State, k: Kind, up: seq<Id>, uuid: Uuid, own: Wid): State {
    if !ParentsFound(s, k, up) then s
    else
      var s1 := Hold(Grab(s, up), up);
      var s2 := Grab(s1, up);
      var n := Node(k, uuid, WidOf(s, k, up, own), 0, INIT_REFS, false, false, Building, up, []);
      Register(Append(s2, n), |s2.nodes|)
  }

  predicate UnderConstruction(s: State, c: Id) {
    c < |s.nodes| && !s.nodes[c].disposed && s.nodes[c].phase == Building
  }

  function SetPhase(s: State, c: Id, p: Phase): State
    requires c < |s.nodes|
  {
    s.(nodes := s.nodes[c := s.nodes[c].(phase := p)])
  }

  /** The creator's last word on its resource: the worker answered. */
  function FinishOk(s: State, c: Id): State
    requires UnderConstruction(s, c)
  {
    RefLk(SetPhase(s, c, Live), c, -INIT_REFS + 1)
  }

  /** The creator's last word on its resource: something went wrong. */
  function FinishFail(s: State, c: Id): State
    requires UnderConstruction(s, c)
  {
    RefLk(SetPhase(s, c, Failed), c, -INIT_REFS)
  }

  // ---------------------------------------------------------------- closing by id

  /** _resource_close */
  function Close(s: State, i: Id): State {
    if i !in s.byId then s
    else
      var t := CloseLk(Borrow(s, i), i);
      if i < |t.nodes| && t.nodes[i].disposed then t.(borrows := t.borrows - multiset{i}) else Release(t, i)
  }

  // ---------------------------------------------------------------- owner references

  /** A handler hands resource `r` to room member `m`, which it holds. */
  function AddOwner(s: State, m: Id, r: Id, front: bool): State {
    if r !in s.byId || m >= |s.nodes| then s
    else
      var t := RefLk(s, r, 1);
      if m >= |t.nodes| then t
      else
        var n := t.nodes[m];
        t.(nodes := t.nodes[m := n.(owned := if front then [r] + n.owned else n.owned + [r])],
           owner := t.owner[r := m])
  }

  function Without(l: seq<Id>, x: Id): (r: seq<Id>)
    ensures x !in r && forall y :: y != x ==> multiset(r)[y] == multiset(l)[y]
  {
    if l == [] then []
    else
      assert l == [l[0]] + l[1..];
      if l[0] == x then Without(l[1..], x) else [l[0]] + Without(l[1..], x)
  }

  function Copies(x: Id, n: nat): (r: seq<Id>)
    ensures multiset(r)[x] == n && |r| == n
    ensures forall y :: y in r ==> y == x
  {
    if n == 0 then [] else [x] + Copies(x, n - 1)
  }

  /** One iteration of _on_resource_closed: `r` leaves the owner index and its owner's list. */
  function DropOwner(s: State, r: Id): State {
    if r !in s.owner then s
    else
      var m := s.owner[r];
      var t := s.(owner := s.owner - {r});
      if !Found(s, m, Member) then t
      else
        var n := s.nodes[m];
        var u := t.(nodes := t.nodes[m := n.(owned := Without(n.owned, r))]);
        RefAllLk(u, Copies(r, multiset(n.owned)[r]))
  }

  // ---------------------------------------------------------------- rooms

  /** The first member of `l` that belongs to `user`. */
  function MemberOf(nodes: seq<Node>, l: seq<Id>, user: int): (r: Option<Id>)
    ensures r.Some? ==> r.value in l && r.value < |nodes| && nodes[r.value].user == user
    ensures r.None? ==> forall x :: x in l && x < |nodes| ==> nodes[x].user != user
  {
    if l == [] then None
    else if l[0] < |nodes| && nodes[l[0]].user == user then Some(l[0])
    else MemberOf(nodes, l[1..], user)
  }

  function CloseIfSome(s: State, m: Option<Id>): State {
    if m.Some? then CloseLk(s, m.value) else s
  }

  /** _rct_room_join_lk: `prev` is the membership found under the caller's socket or uuid. */
  function Join(s: State, room: Id, prev: Option<Id>, uuid: Uuid, user: int): State {
    var s1 := if prev.Some? && Found(s, prev.value, Member) then CloseLk(s, prev.value) else s;
    if !Found(s1, room, Room) then s1
    else
      var s2 := Borrow(s1, room);
      var s3 := CloseIfSome(s2, MemberOf(s2.nodes, ListOf(s2, room, Member), user));
      var s4 := Grab(s3, [room]);
      var n := Node(Member, uuid, 0, user, 1, false, false, Live, [room], []);
      Release(Register(Append(s4, n), |s4.nodes|), room)
  }

  /** _rct_room_create: a new room takes the place of the router's present one. */
  function CreateRoom(s: State, router: Id, prev: Option<Id>, roomUuid: Uuid, uuid: Uuid, user: int): State {
    if !Found(s, router, Router) then s
    else
      var s1 := Borrow(s, router);
      var s2 := CloseIfSome(s1, First(ListOf(s1, router, Room)));
      var s3 := Grab(s2, [router]);
      var n := Node(Room, roomUuid, 0, 0, 1, false, false, Live, [router], []);
      var s4 := Register(Append(s3, n), |s3.nodes|);
      Release(Join(s4, |s3.nodes|, prev, uuid, user), router)
  }
}
