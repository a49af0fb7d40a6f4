/**
 The resource graph of src/rct as a value: one record per resource ever created, the
 intrusive child lists, the two registry maps, the owner index of src/rct/rct_room.c and
 the references that running threads hold.

 A resource is named by its position in `nodes`. Positions are never reused, which is how
 the model reads "the id is the address". A disposed resource stays behind as a tombstone.
 */
module RctState {

  type Id = nat
  type Uuid = nat
  type Wid = nat // 0 stands for "no worker"

  const INIT_REFS: int := 0xffffff

  datatype Option<+T> = None | Some(value: T)

  datatype Kind = Router | Room | Member | Transport | Producer | Consumer | Observer

  /** Where the creator of a resource stands: still waiting for the worker, finished, or
      finished with an error while somebody else still held the resource. */
  datatype Phase = Building | Live | Failed

  datatype Gauge = Rooms | RoomUsers | Streams

  datatype Node = Node(
    kind: Kind, uuid: Uuid, wid: Wid, user: int,
    refs: int, closed: bool, disposed: bool, phase: Phase,
    up: seq<Id>,    // parents, in the order in which dispose releases them
    owned: seq<Id>  // `resource_refs` of a room member
  ) {
    /** The references that belong to the resource itself or to its creator. */
    function Main(): int {
      match phase
      case Building => if closed then INIT_REFS - 1 else INIT_REFS
      case Live => if closed then 0 else 1
      case Failed => 0
    }

    /** How many references this resource holds on `x` through its own fields. */
    function Holds(x: Id): nat {
      if disposed then 0 else multiset(up)[x] + multiset(owned)[x]
    }

    /** What dispose gives back: owner entries from last to first, then the parents. */
    function Releases(): seq<Id> {
      Reverse(owned) + up
    }

    /** Resources that sit in a list of their parent; a member leaves it when it closes. */
    predicate Listed() {
      !disposed && (kind == Member ==> !closed)
    }
  }

  /** The child lists of one resource; `room` holds at most one element. */
  datatype Lists = Lists(
    room: seq<Id>, members: seq<Id>, transports: seq<Id>,
    producers: seq<Id>, consumers: seq<Id>, observers: seq<Id>
  ) {
    function Get(k: Kind): seq<Id> {
      match k
      case Router => []
      case Room => room
      case Member => members
      case Transport => transports
      case Producer => producers
      case Consumer => consumers
      case Observer => observers
    }

    function Put(k: Kind, l: seq<Id>): Lists {
      match k
      case Router => this
      case Room => this.(room := l)
      case Member => this.(members := l)
      case Transport => this.(transports := l)
      case Producer => this.(producers := l)
      case Consumer => this.(consumers := l)
      case Observer => this.(observers := l)
    }
  }

  const NO_LISTS := Lists([], [], [], [], [], [])

  datatype State = State(
    nodes: seq<Node>,
    lists: seq<Lists>,
    byId: set<Id>,            // map_id2ptr: the value is the resource at that address
    byUuid: map<Uuid, Id>,    // map_uuid2ptr
    load: map<Wid, int>,      // load scores as reported to the worker registry
    gauges: map<Gauge, nat>,  // last published levels
    owner: map<Id, Id>,       // _map_resource_member
    borrows: multiset<Id>,    // references held by local variables of running threads
    fault: bool               // some operation touched a disposed resource
  )

  const EMPTY := State([], [], {}, map[], map[],
                       map[Rooms := 0, RoomUsers := 0, Streams := 0], map[], multiset{}, false)

  // ---------------------------------------------------------------- sequences

  function Reverse<T>(l: seq<T>): (r: seq<T>)
    ensures multiset(r) == multiset(l)
  {
    if l == [] then []
    else
      assert l == [l[0]] + l[1..];
      Reverse(l[1..]) + [l[0]]
  }

  /** Unlinks the first occurrence of `x`. */
  function Remove(l: seq<Id>, x: Id): (r: seq<Id>)
    ensures x !in l ==> r == l
    ensures forall y :: y in r ==> y in l
    ensures forall y :: y in l && y != x ==> y in r
  {
    if l == [] then []
    else if l[0] == x then l[1..]
    else [l[0]] + Remove(l[1..], x)
  }

  function IndexOf(l: seq<Id>, x: Id): (i: nat)
    ensures i <= |l|
    ensures i < |l| ==> l[i] == x
    ensures i < |l| <==> x in l
    ensures x !in l[..i]
  {
    if l == [] then 0
    else if l[0] == x then 0
    else
      var j := IndexOf(l[1..], x);
      assert l[..j + 1] == [l[0]] + l[1..][..j];
      j + 1
  }

  function First(l: seq<Id>): Option<Id> {
    if l == [] then None else Some(l[0])
  }

  /** The node after `p`; a chain never returns to a node it has already left. */
  function Next(l: seq<Id>, p: Id): (r: Option<Id>)
    ensures r.Some? ==> r.value in l && IndexOf(l, p) < IndexOf(l, r.value) < |l|
  {
    var i := IndexOf(l, p) + 1;
    if i < |l| && l[i] !in l[..i] then
      var n := l[i];
      assert IndexOf(l, n) == i by {
        var j := IndexOf(l, n);
        assert forall q :: 0 <= q < i ==> l[q] in l[..i];
        assert forall q :: 0 <= q < j ==> l[q] in l[..j];
      }
      Some(n)
    else None
  }

  // ---------------------------------------------------------------- counting

  /** References held on `x` by the fields of all undisposed resources. */
  function In(nodes: seq<Node>, x: Id): nat {
    if nodes == [] then 0
    else In(nodes[..|nodes| - 1], x) + nodes[|nodes| - 1].Holds(x)
  }

  function AliveSet(nodes: seq<Node>): set<Id> {
    set i | 0 <= i < |nodes| && !nodes[i].disposed
  }

  function OpenSet(nodes: seq<Node>): set<Id> {
    set i | 0 <= i < |nodes| && !nodes[i].closed
  }

  function LoadOf(load: map<Wid, int>, w: Wid): int {
    if w in load then load[w] else 0
  }

  function GaugeOf(k: Kind): Option<Gauge> {
    match k
    case Room => Some(Rooms)
    case Member => Some(RoomUsers)
    case Consumer => Some(Streams)
    case Producer => Some(Streams)
    case _ => None
  }

  function CarriedBy(nodes: seq<Node>, byId: set<Id>, w: Wid): set<Id> {
    set i | i in byId && i < |nodes| && nodes[i].wid == w
  }

  function CountedBy(nodes: seq<Node>, byId: set<Id>, g: Gauge): set<Id> {
    set i | i in byId && i < |nodes| && GaugeOf(nodes[i].kind) == Some(g)
  }
}
