/**
 Reference counting, registration and disposal (src/rct/rct.c): what one lock-held call
 does to the state. A release that brings a counter below one disposes the resource and
 goes on releasing upwards.
 */
module RctRefs {
  import opened RctState

  // ---------------------------------------------------------------- registry

  /** Publishes the level of the gauge that counts resources of kind `k`, if there is one. */
  function Publish(s: State, k: Kind): State {
    match GaugeOf(k)
    case Some(g) => s.(gauges := s.gauges[g := |CountedBy(s.nodes, s.byId, g)|])
    case None => s
  }

  function AdjustLoad(s: State, w: Wid, delta: int): State {
    if w == 0 then s else s.(load := s.load[w := LoadOf(s.load, w) + delta])
  }

  function Register(s: State, b: Id): State
    requires b < |s.nodes|
  {
    var n := s.nodes[b];
    Publish(AdjustLoad(s.(byUuid := s.byUuid[n.uuid := b], byId := s.byId + {b}), n.wid, 1), n.kind)
  }

  function Unregister(s: State, b: Id): State
    requires b < |s.nodes|
  {
    if b !in s.byId then s
    else
      var n := s.nodes[b];
      Publish(AdjustLoad(s.(byId := s.byId - {b}, byUuid := s.byUuid - {n.uuid}), n.wid, -1), n.kind)
  }

  // ---------------------------------------------------------------- release

  function AddRefs(s: State, b: Id, n: int): State
    requires b < |s.nodes|
  {
    s.(nodes := s.nodes[b := s.nodes[b].(refs := s.nodes[b].refs + n)])
  }

  /** Takes `b` out of the list of kind `k` of every resource in `up`. */
  function Unlink(lists: seq<Lists>, up: seq<Id>, k: Kind, b: Id): (r: seq<Lists>)
    ensures |r| == |lists|
  {
    seq(|lists|, i requires 0 <= i < |lists| =>
      if i in up then lists[i].Put(k, Remove(lists[i].Get(k), b)) else lists[i])
  }

  /** Dispose leaves rooms in the slot of their router; members left their list on close. */
  predicate UnlinkedByDispose(k: Kind) {
    k in {Transport, Producer, Consumer, Observer}
  }

  /** The part of dispose before the parents are released. */
  function Detach(s: State, b: Id): State
    requires b < |s.nodes|
  {
    var n := s.nodes[b];
    s.(nodes := s.nodes[b := n.(disposed := true)],
       lists := if UnlinkedByDispose(n.kind) then Unlink(s.lists, n.up, n.kind, b) else s.lists,
       owner := s.owner - (set r | r in n.owned))
  }

  lemma AddRefsSets(s: State, b: Id, n: int)
    requires b < |s.nodes|
    ensures AliveSet(AddRefs(s, b, n).nodes) == AliveSet(s.nodes)
    ensures OpenSet(AddRefs(s, b, n).nodes) == OpenSet(s.nodes)
  {
  }

  lemma DetachSets(s: State, b: Id)
    requires b < |s.nodes|
    ensures AliveSet(Detach(s, b).nodes) == AliveSet(s.nodes) - {b}
    ensures OpenSet(Detach(s, b).nodes) == OpenSet(s.nodes)
  {
  }

  lemma UnregisterNodes(s: State, b: Id)
    requires b < |s.nodes|
    ensures Unregister(s, b).nodes == s.nodes
  {
  }

  /** rct_resource_ref_lk */
  function RefLk(s: State, b: Id, n: int): (r: State)
    ensures |r.nodes| == |s.nodes| && AliveSet(r.nodes) <= AliveSet(s.nodes)
    ensures OpenSet(r.nodes) == OpenSet(s.nodes)
    decreases AliveSet(s.nodes), 0
  {
    if b >= |s.nodes| || s.nodes[b].disposed then s.(fault := true)
    else
      var s1 := AddRefs(s, b, n);
      AddRefsSets(s, b, n);
      if s1.nodes[b].refs >= 1 then s1
      else
        var s2 := Detach(s1, b);
        DetachSets(s1, b);
        assert b in AliveSet(s.nodes);
        var s3 := RefAllLk(s2, s.nodes[b].Releases());
        UnregisterNodes(s3, b);
        Unregister(s3, b)
  }

  /** Releases one reference on each of `ids`, in order. */
  function RefAllLk(s: State, ids: seq<Id>): (r: State)
    ensures |r.nodes| == |s.nodes| && AliveSet(r.nodes) <= AliveSet(s.nodes)
    ensures OpenSet(r.nodes) == OpenSet(s.nodes)
    decreases AliveSet(s.nodes), |ids|
  {
    if ids == [] then s else RefAllLk(RefLk(s, ids[0], -1), ids[1..])
  }
}
