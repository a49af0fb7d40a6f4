/**
 Closing (src/rct/rct.c, and the close functions of routers, transports, producers, rooms
 and members): the flag is set first, then the children are closed by walking each child
 list with the successor saved before the call, then the main reference is released.
 */
module RctClose {
  import opened RctState
  import opened RctRefs

  function ListOf(s: State, t: Id, k: Kind): seq<Id> {
    if t < |s.lists| then s.lists[t].Get(k) else []
  }

  function PutList(s: State, t: Id, k: Kind, l: seq<Id>): State {
    if t < |s.lists| then s.(lists := s.lists[t := s.lists[t].Put(k, l)]) else s
  }

  function MarkClosed(s: State, b: Id): State
    requires b < |s.nodes|
  {
    s.(nodes := s.nodes[b := s.nodes[b].(closed := true)])
  }

  /** How far the walk is from the end of the list. */
  function Remaining(s: State, t: Id, k: Kind, p: Option<Id>): nat {
    match p
    case None => 0
    case Some(x) => |ListOf(s, t, k)| - IndexOf(ListOf(s, t, k), x) + 1
  }

  /** rct_resource_close_lk */
  function CloseLk(s: State, b: Id): (r: State)
    ensures |r.nodes| == |s.nodes| && OpenSet(r.nodes) <= OpenSet(s.nodes)
    ensures (r.nodes == s.nodes && r.lists == s.lists) || OpenSet(r.nodes) != OpenSet(s.nodes)
    decreases OpenSet(s.nodes), 0, 0
  {
    if b >= |s.nodes| || s.nodes[b].disposed then s.(fault := true)
    else if s.nodes[b].closed then s
    else
      var s1 := MarkClosed(s, b);
      assert OpenSet(s1.nodes) == OpenSet(s.nodes) - {b};
      assert b in OpenSet(s.nodes);
      RefLk(CloseBody(s1, b), b, -1)
  }

  /** The type-specific part of close. */
  function CloseBody(s: State, b: Id): (r: State)
    requires b < |s.nodes|
    ensures |r.nodes| == |s.nodes| && OpenSet(r.nodes) <= OpenSet(s.nodes)
    decreases OpenSet(s.nodes), 2, 0
  {
    match s.nodes[b].kind
    case Router =>
      var s1 := CloseRoomSlot(s, b);
      var s2 := WalkLk(s1, b, Transport, First(ListOf(s1, b, Transport)));
      WalkLk(s2, b, Observer, First(ListOf(s2, b, Observer)))
    case Transport =>
      var s1 := WalkLk(s, b, Producer, First(ListOf(s, b, Producer)));
      WalkLk(s1, b, Consumer, First(ListOf(s1, b, Consumer)))
    case Producer => WalkLk(s, b, Consumer, First(ListOf(s, b, Consumer)))
    case Room => WalkLk(s, b, Member, First(ListOf(s, b, Member)))
    case Member => s.(lists := Unlink(s.lists, s.nodes[b].up, Member, b))
    case Consumer => s
    case Observer => s
  }

  /** A router closes its room and forgets it. */
  function CloseRoomSlot(s: State, b: Id): (r: State)
    ensures |r.nodes| == |s.nodes| && OpenSet(r.nodes) <= OpenSet(s.nodes)
    decreases OpenSet(s.nodes), 1, 0
  {
    var slot := ListOf(s, b, Room);
    if slot == [] then s else PutList(CloseLk(s, slot[0]), b, Room, [])
  }

  /** `for (p = first, n; p; p = n) { n = p->next; close(p); }` from `p` on. */
  function WalkLk(s: State, t: Id, k: Kind, p: Option<Id>): (r: State)
    ensures |r.nodes| == |s.nodes| && OpenSet(r.nodes) <= OpenSet(s.nodes)
    decreases OpenSet(s.nodes), 1, Remaining(s, t, k, p)
  {
    match p
    case None => s
    case Some(x) =>
      var n := Next(ListOf(s, t, k), x);
      WalkLk(CloseLk(s, x), t, k, n)
  }
}
