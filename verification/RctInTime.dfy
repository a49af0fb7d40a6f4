/**
 What was given up below a router is gone in time, read off the state before the close. While
 the router is closed its room goes first and then one transport after the other, the newest
 first, each with everything below it. A resource that was given up must not be held any more
 when the transport takes its turn that it hangs below; and a transport that was given up must be
 gone already when the turn before its own begins, because then it is remembered as the next one.
 */
module RctInTime {
  import opened RctState
  import opened RctInvariant
  import opened RctRelease
  import opened RctClose
  import opened RctCascade
  import opened RctCreation
  import opened RctProtocol
  import opened RctRooms
  import opened RctRollback
  import opened RctSurvival
  import opened RctGivenUp
  import opened RctGivenUpBelow
  import opened RctRouterClose

  // ---------------------------------------------------------------- who takes a turn, and what is closed when

  predicate ChildOfRouter(s: State, r: Id, z: Id) {
    Alive(s, z) && r in s.nodes[z].up
  }

  /** Closed before the first turn: the router itself and its room with all members. */
  ghost function WithRoom(s: State, r: Id): set<Id> {
    {r} + set i | 0 <= i < |s.nodes| && ByRoom(s, r, i)
  }

  predicate ByRoom(s: State, r: Id, i: Id) {
    exists z :: 0 <= z < |s.nodes| && BelowRoomOf(s, r, z, i)
  }

  predicate BelowRoomOf(s: State, r: Id, z: Id, i: Id) {
    ChildOfRouter(s, r, z) && s.nodes[z].kind == Room && Below(s.nodes, z, i)
  }

  /** A transport that is certain to be there when its turn comes. */
  ghost predicate Turn(s: State, r: Id, z: Id) {
    ChildOfRouter(s, r, z) && s.nodes[z].kind == Transport && s.nodes[z].phase != Failed && Lasts(s, WithRoom(s, r), z)
  }

  /** Closed when all turns from `k` upwards have been taken. */
  ghost function Done(s: State, r: Id, k: nat): set<Id> {
    WithRoom(s, r) + set i | 0 <= i < |s.nodes| && ByTurn(s, r, k, i)
  }

  ghost predicate ByTurn(s: State, r: Id, k: nat, i: Id) {
    exists z :: 0 <= z < |s.nodes| && BelowTurn(s, r, k, z, i)
  }

  ghost predicate BelowTurn(s: State, r: Id, k: nat, z: Id, i: Id) {
    z >= k && Turn(s, r, z) && Below(s.nodes, z, i)
  }

  /** Nothing that was given up below the transport `x` is still held when `x` takes its turn. */
  ghost predicate ClearTurn(s: State, r: Id, x: Id) {
    Turn(s, r, x) ==> forall y :: GivenUp(s, y) && Below(s.nodes, x, y) ==> !Lasts(s, Done(s, r, x + 1), y)
  }

  /** The last turn before that of `x`; the number of all resources stands for the time before the
      first turn. */
  ghost predicate TurnBefore(s: State, r: Id, x: Id, p: nat) {
    && p > x && (p == |s.nodes| || Turn(s, r, p))
    && forall z :: x < z < p ==> !Turn(s, r, z)
  }

  /** If the transport `x` was given up, nobody holds it any more when the turn before begins. */
  ghost predicate ClearOf(s: State, r: Id, x: Id) {
    GivenUp(s, x) && s.nodes[x].kind == Transport && r in s.nodes[x].up ==>
      forall p: nat :: TurnBefore(s, r, x, p) ==> !Lasts(s, Done(s, r, p + 1), x)
  }

  /** Everything that was given up below the router is gone in time. */
  ghost predicate InTime(s: State, r: Id) {
    && (forall o: Id :: GivenUp(s, o) && r in s.nodes[o].up ==> s.nodes[o].kind != Observer)
    && (forall x :: 0 <= x < |s.nodes| ==> ClearTurn(s, r, x) && ClearOf(s, r, x))
  }

  // ---------------------------------------------------------------- the sets

  lemma ByTurnLess(s: State, r: Id, a: nat, b: nat, i: Id)
    requires ByTurn(s, r, b, i) && a <= b
    ensures ByTurn(s, r, a, i)
  {
    hide Turn, Below;
    var z :| 0 <= z < |s.nodes| && BelowTurn(s, r, b, z, i);
    assert BelowTurn(s, r, a, z, i);
  }

  lemma ByTurnMore(s: State, r: Id, a: nat, b: nat, i: Id)
    requires ByTurn(s, r, a, i) && a <= b
    ensures ByTurn(s, r, b, i) || exists z :: a <= z < b && z < |s.nodes| && Turn(s, r, z) && Below(s.nodes, z, i)
  {
    hide Turn, Below;
    var z :| 0 <= z < |s.nodes| && BelowTurn(s, r, a, z, i);
    if z >= b { assert BelowTurn(s, r, b, z, i); }
  }

  lemma DoneSame(s: State, r: Id, a: nat, b: nat)
    requires a <= b && forall z :: a <= z < b ==> !Turn(s, r, z)
    ensures Done(s, r, a) == Done(s, r, b)
  {
    hide Turn, WithRoom, Below, ByTurn;
    forall i | 0 <= i < |s.nodes| ensures ByTurn(s, r, a, i) <==> ByTurn(s, r, b, i) {
      if ByTurn(s, r, b, i) { ByTurnLess(s, r, a, b, i); }
      if ByTurn(s, r, a, i) { ByTurnMore(s, r, a, b, i); }
    }
  }

  lemma DoneNone(s: State, r: Id, k: nat)
    requires forall z :: k <= z < |s.nodes| ==> !Turn(s, r, z)
    ensures Done(s, r, k) == WithRoom(s, r)
  {
    hide Turn, WithRoom, Below;
    forall i | 0 <= i < |s.nodes| ensures !ByTurn(s, r, k, i) {
      forall z | 0 <= z < |s.nodes| ensures !BelowTurn(s, r, k, z, i) {}
    }
  }

  lemma DoneStep(s: State, r: Id, x: Id)
    requires Turn(s, r, x)
    ensures Done(s, r, x) == Done(s, r, x + 1) + BelowOf(s, x)
  {
    hide Turn, WithRoom, Below, ByTurn;
    forall i | 0 <= i < |s.nodes|
      ensures ByTurn(s, r, x, i) <==> ByTurn(s, r, x + 1, i) || Below(s.nodes, x, i)
    {
      if ByTurn(s, r, x, i) { ByTurnMore(s, r, x, x + 1, i); }
      if ByTurn(s, r, x + 1, i) { ByTurnLess(s, r, x, x + 1, i); }
      if Below(s.nodes, x, i) { ByThisTurn(s, r, x, i); }
    }
  }

  lemma ByThisTurn(s: State, r: Id, x: Id, i: Id)
    requires Turn(s, r, x) && Below(s.nodes, x, i)
    ensures ByTurn(s, r, x, i)
  {
    hide Below;
    TurnIn(s, r, x);
    assert BelowTurn(s, r, x, x, i);
  }

  lemma TurnIn(s: State, r: Id, x: Id)
    requires Turn(s, r, x)
    ensures ChildOfRouter(s, r, x) && s.nodes[x].kind == Transport && s.nodes[x].phase != Failed
  {
  }

  /** No transport hangs below a room or below another transport. */
  lemma NotDone(s: State, r: Id, k: nat, x: Id)
    requires Shape(s) && ChildOfRouter(s, r, x) && s.nodes[x].kind == Transport && x < k && r < |s.nodes| && s.nodes[r].kind == Router
    ensures x !in Done(s, r, k)
  {
    hide Lasts, Below, Shape;
    forall z | 0 <= z < |s.nodes| ensures !BelowTurn(s, r, k, z, x) && !BelowRoomOf(s, r, z, x) {
      if Below(s.nodes, z, x) { BelowRank(s, z, x); }
    }
  }

  // ---------------------------------------------------------------- following the walk

  /** Where the walk stands when the turns from `k` upwards have been taken; `s2` is where it began. */
  ghost predicate Walking(s: State, s2: State, v: State, r: Id, k: nat) {
    && Inv(s) && Alive(s, r) && s.nodes[r].kind == Router
    && Closes(s, s2, multiset{r}, r) && Steady(s2, multiset{r}) && ClosedIn(s, s2, WithRoom(s, r))
    && Closes(s2, v, multiset{r}, r) && MembersKept(s2, v) && ClosedIn(s, v, Done(s, r, k))
  }

  lemma WalkingParts(s: State, s2: State, v: State, r: Id, k: nat)
    requires Walking(s, s2, v, r, k)
    ensures Inv(s) && Good(s) && Shape(s) && Alive(s, r) && s.nodes[r].kind == Router
    ensures Steady(s2, multiset{r}) && Steady(v, multiset{r}) && Evolves(s2, v) && Evolves(s, s2) && MembersKept(s2, v)
    ensures ClosedIn(s, s2, WithRoom(s, r)) && ClosedIn(s, v, Done(s, r, k))
    ensures |s2.nodes| == |s.nodes| == |v.nodes| && v.nodes[r].kind == Router && Links(v) && Shape(v) && |v.lists| == |v.nodes|
  {
    EvolvesAt(s, s2, r);
    EvolvesAt(s2, v, r);
  }

  /** What is there is what lasts. */
  lemma ThereIsLasting(s: State, v: State, r: Id, C: set<Id>, x: Id)
    requires Shape(s) && Steady(v, multiset{r}) && ClosedIn(s, v, C) && x < |s.nodes| && r < |s.nodes|
    requires s.nodes[r].kind == Router && s.nodes[x].kind != Router
    ensures Alive(v, x) <==> Lasts(s, C, x)
  {
    hide Lasts, ClosedIn, Shape, Links, Registry, Owners;
    LastsAt(s, v, multiset{r}, C, x);
  }

  /** A turn that is still to come will be there. */
  lemma TurnStays(s: State, s2: State, v: State, r: Id, k: nat, z: Id)
    requires Walking(s, s2, v, r, k) && Turn(s, r, z) && z < k
    ensures Alive(v, z) && z in ListOf(v, r, Transport)
  {
    hide Inv, Closes, Lasts, ClosedIn, Done, WithRoom, Steady, Evolves, Untouched, Links, Shape;
    WalkingParts(s, s2, v, r, k);
    TurnIn(s, r, z);
    ThereIsLasting(s, s2, r, WithRoom(s, r), z);
    EvolvesAt(s, s2, z);
    EvolvesAt(s2, v, z);
    NotDone(s, r, k, z);
    FlagOf(s, v, Done(s, r, k), z);
    StillThere(s, s2, v, r, z);
    Listed(v, r, z);
  }

  lemma FlagOf(s: State, v: State, C: set<Id>, z: Id)
    requires ClosedIn(s, v, C) && z < |s.nodes|
    ensures |v.nodes| == |s.nodes| && ClosedIf(s.nodes[z], v.nodes[z], z in C)
  {
  }

  lemma StillThere(s: State, s2: State, v: State, r: Id, z: Id)
    requires Steady(s2, multiset{r}) && Steady(v, multiset{r}) && Evolves(s2, v) && MembersKept(s2, v)
    requires z < |s.nodes| == |s2.nodes| && Alive(s2, z) && s2.nodes[z].phase != Failed
    requires (v.nodes[z].closed ==> s.nodes[z].closed) && (s.nodes[z].closed ==> s2.nodes[z].closed)
    ensures Alive(v, z)
  {
    hide Registry, Owners, Links, Shape;
    assert EvolvesTo(s2.nodes[z], v.nodes[z]);
    if s2.nodes[z].closed { ClosedSurvives(s2, v, multiset{r}, z); } else { OpenSurvives(v, multiset{r}, z); }
  }

  lemma Listed(v: State, r: Id, z: Id)
    requires Links(v) && r < |v.lists| && Alive(v, z) && v.nodes[z].kind == Transport && r in v.nodes[z].up
    ensures z in ListOf(v, r, Transport)
  {
    assert ListAt(v, r, Transport);
    assert Child(v.nodes, r, Transport, z);
  }

  /** What is listed and was not given up takes its turn. */
  lemma ListedTurn(s: State, s2: State, v: State, r: Id, k: nat, z: Id)
    requires Walking(s, s2, v, r, k) && z in ListOf(v, r, Transport)
    ensures ChildOfRouter(s, r, z) && s.nodes[z].kind == Transport && Alive(v, z) && v.nodes[z].phase == s.nodes[z].phase
    ensures Lasts(s, Done(s, r, k), z) && (s.nodes[z].phase != Failed ==> Turn(s, r, z))
  {
    hide Inv, Closes, Lasts, ClosedIn, Done, WithRoom, Steady, Evolves, Untouched, Links, Shape;
    WalkingParts(s, s2, v, r, k);
    ListedChild(v, r, Transport, z);
    FlagOf(s, v, Done(s, r, k), z);
    EvolvesAt(s2, v, z);
    ThereIsLasting(s, v, r, Done(s, r, k), z);
    ThereIsLasting(s, s2, r, WithRoom(s, r), z);
  }

  /** A turn closes what hangs below its transport. */
  lemma TurnTaken(s: State, s2: State, v: State, v1: State, r: Id, x: Id)
    requires Walking(s, s2, v, r, x + 1) && Turn(s, r, x) && Alive(v, x)
    requires Closes(v, v1, multiset{r}, x) && MembersKept(v, v1) && v1.nodes[x].closed && Below(v.nodes, r, x)
    ensures Walking(s, s2, v1, r, x)
  {
    hide Inv, Lasts, Done, WithRoom, Steady, Evolves, Untouched, Turn, Below, OnlyBelow;
    WalkingParts(s, s2, v, r, x + 1);
    OnlyBelowTrans(s2, s2, v, r, r) by { ChildSelf(s2, r); EvolvesSelf(s2, r); }
    EvolvesBelow(s2, v, r);
    OnlyBelowTrans(s2, v, v1, r, x);
    KeptTrans(s2, v, v1);
    EvolvesAt(v, v1, x);
    DoneStep(s, r, x);
    TurnIn(s, r, x);
    forall i | 0 <= i < |s.nodes| ensures ClosedIf(s.nodes[i], v1.nodes[i], i in Done(s, r, x)) {
      TurnFlag(s, s2, v, v1, r, x, i);
    }
  }

  lemma EvolvesSelf(s: State, r: Id)
    ensures Evolves(s, s) && OnlyBelow(s, s, r)
  {
  }

  lemma TurnFlag(s: State, s2: State, v: State, v1: State, r: Id, x: Id, i: Id)
    requires Walking(s, s2, v, r, x + 1) && Turn(s, r, x) && i < |s.nodes|
    requires x < |v.nodes| && Closes(v, v1, multiset{r}, x) && v1.nodes[x].closed
    requires Done(s, r, x) == Done(s, r, x + 1) + BelowOf(s, x)
    ensures i < |v1.nodes| && ClosedIf(s.nodes[i], v1.nodes[i], i in Done(s, r, x))
  {
    hide Inv, Lasts, Done, WithRoom, Evolves, Untouched, Turn, Below, GoodBut, Settled, InFlight;
    WalkingParts(s, s2, v, r, x + 1);
    TurnIn(s, r, x);
    EvolvesAt(v, v1, i);
    EvolvesAt(v, v1, x);
    EvolvesAt(v, v1, r);
    EvolvesBelow(v, v1, x);
    EvolvesAt(s2, v, x);
    EvolvesAt(s, s2, x);
    BelowIn(s, v, Done(s, r, x + 1), x, i);
    FlagOf(s, v, Done(s, r, x + 1), i);
    if Alive(v1, i) && Below(s.nodes, x, i) {
      NotItself(s, r, x);
      ClosedUnder(v1, r, x, i);
    }
  }

  lemma NotItself(s: State, r: Id, x: Id)
    requires r < |s.nodes| && s.nodes[r].kind == Router && x < |s.nodes| && s.nodes[x].kind == Transport
    ensures x != r
  {
  }

  lemma BelowIn(s: State, v: State, C: set<Id>, b: Id, i: Id)
    requires ClosedIn(s, v, C)
    ensures Below(s.nodes, b, i) <==> Below(v.nodes, b, i)
  {
    forall j | 0 <= j < |s.nodes| ensures s.nodes[j].up == v.nodes[j].up { assert ClosedIf(s.nodes[j], v.nodes[j], j in C); }
    BelowSame(s.nodes, v.nodes, b, i);
  }

  /** At its turn a transport has nothing given up below it exactly if all that is gone in time. */
  lemma TurnMeans(s: State, s2: State, v: State, r: Id, x: Id)
    requires Walking(s, s2, v, r, x + 1) && Turn(s, r, x)
    ensures NoFailedBelow(v, x) <==> ClearTurn(s, r, x)
  {
    hide Inv, Closes, Lasts, Done, WithRoom, Steady, Evolves, Untouched, Turn, Below, ClosedIn, Shape;
    var C := Done(s, r, x + 1);
    WalkingParts(s, s2, v, r, x + 1);
    TurnIn(s, r, x);
    forall y | 0 <= y < |s.nodes| && Below(s.nodes, x, y)
      ensures (Alive(v, y) <==> Lasts(s, C, y)) && (Alive(v, y) ==> Alive(s, y)) && v.nodes[y].phase == s.nodes[y].phase
      ensures Below(v.nodes, x, y)
    {
      BelowRank(s, x, y);
      ThereIsLasting(s, v, r, C, y);
      FlagOf(s, v, C, y);
      BelowIn(s, v, C, x, y);
    }
    forall y | 0 <= y < |v.nodes| && Below(v.nodes, x, y) ensures Below(s.nodes, x, y) { BelowIn(s, v, C, x, y); }
  }

  // ---------------------------------------------------------------- the walk from one turn on

  ghost predicate RestClear(s: State, r: Id, x: Id) {
    && (forall z :: 0 <= z <= x ==> ClearTurn(s, r, z))
    && (forall z :: 0 <= z < x ==> ClearOf(s, r, z))
  }

  /** What is listed before the next one has no turn and is not there any more. */
  lemma Between(s: State, s2: State, v: State, r: Id, x: Id, n: int)
    requires Walking(s, s2, v, r, x + 1) && Turn(s, r, x)
    requires forall z :: z in ListOf(v, r, Transport) ==> z >= x || z <= n
    requires n < x
    ensures forall z :: 0 <= z < x && n < z ==> !Turn(s, r, z) && ClearOf(s, r, z)
  {
    hide Inv, Closes, Lasts, Done, WithRoom, Steady, Evolves, Untouched, Turn, Below, ClosedIn, Shape, Walking, Links;
    forall z | 0 <= z < x && n < z ensures !Turn(s, r, z) {
      if Turn(s, r, z) { TurnStays(s, s2, v, r, x + 1, z); }
    }
    forall z | 0 <= z < x && n < z ensures ClearOf(s, r, z) {
      if GivenUp(s, z) && s.nodes[z].kind == Transport && r in s.nodes[z].up {
        GoneBefore(s, s2, v, r, x + 1, z);
        forall p: nat | TurnBefore(s, r, z, p) ensures p == x { OnlyBefore(s, r, z, x, p); }
      }
    }
  }

  lemma OnlyBefore(s: State, r: Id, z: Id, x: Id, p: nat)
    requires TurnBefore(s, r, z, p) && z < x && Turn(s, r, x) && forall i :: z < i < x ==> !Turn(s, r, i)
    ensures p == x
  {
    hide Lasts, WithRoom;
    TurnIn(s, r, x);
  }

  lemma GoneBefore(s: State, s2: State, v: State, r: Id, k: nat, z: Id)
    requires Walking(s, s2, v, r, k) && GivenUp(s, z) && s.nodes[z].kind == Transport && r in s.nodes[z].up
    requires z !in ListOf(v, r, Transport)
    ensures !Lasts(s, Done(s, r, k), z)
  {
    hide Inv, Closes, Lasts, Done, WithRoom, Steady, Evolves, Untouched, ClosedIn, Shape, Links;
    WalkingParts(s, s2, v, r, k);
    FlagOf(s, v, Done(s, r, k), z);
    ThereIsLasting(s, v, r, Done(s, r, k), z);
    if Alive(v, z) { Listed(v, r, z); }
  }

  lemma NextOlder(l: seq<Id>, x: Id)
    requires Ordered(Transport, l) && x in l && Next(l, x).Some?
    ensures Next(l, x).value < x
  {
    var i, j := IndexOf(l, x), IndexOf(l, Next(l, x).value);
    assert Before(Transport, l[i], l[j]);
  }

  /** The successor in the list of transports. */
  lemma Successor(v: State, r: Id, x: Id)
    requires Links(v) && r < |v.lists| && x in ListOf(v, r, Transport)
    ensures var n := Next(ListOf(v, r, Transport), x);
      && (n.Some? ==> n.value < x && n.value in ListOf(v, r, Transport))
      && forall z :: z in ListOf(v, r, Transport) ==> z >= x || z <= (if n.Some? then n.value else -1)
  {
    var l := ListOf(v, r, Transport);
    assert ListAt(v, r, Transport);
    NextIs(Transport, l, x);
    if Next(l, x).Some? { NextOlder(l, x); }
  }

  /** The turn of `x` and where it leads. */
  lemma TurnOn(s: State, s2: State, v: State, r: Id, x: Id)
    requires Walking(s, s2, v, r, x + 1) && Turn(s, r, x) && x in ListOf(v, r, Transport) && NoFailedBelow(v, x)
    ensures Alive(v, x) && Walking(s, s2, CloseLk(v, x), r, x)
  {
    hide Inv, Lasts, Done, WithRoom, Steady, Evolves, Untouched, Turn, Below, ClosedIn, Shape, Links, CloseLk, OnlyBelow, NoFailedBelow;
    WalkingParts(s, s2, v, r, x + 1);
    ListedChild(v, r, Transport, x);
    CloseLkSteady(v, multiset{r}, x);
    TurnTaken(s, s2, v, CloseLk(v, x), r, x);
  }

  lemma WalkingFrom(s: State, s2: State, v: State, r: Id, a: nat, b: nat)
    requires Walking(s, s2, v, r, b) && a <= b && forall z :: a <= z < b ==> !Turn(s, r, z)
    ensures Walking(s, s2, v, r, a)
  {
    hide Inv, Closes, Lasts, Done, Steady, Turn, ClosedIn, WithRoom;
    DoneSame(s, r, a, b);
  }

  lemma FailedNext(s: State, s2: State, v: State, r: Id, x: Id, n: Id)
    requires Walking(s, s2, v, r, x + 1) && Turn(s, r, x) && n < x && n in ListOf(v, r, Transport) && s.nodes[n].phase == Failed
    requires n < |s.nodes| && forall z :: n < z < x ==> !Turn(s, r, z)
    ensures !ClearOf(s, r, n)
  {
    hide Inv, Closes, Lasts, Done, WithRoom, Steady, Evolves, Untouched, Turn, ClosedIn, Walking;
    ListedTurn(s, s2, v, r, x + 1, n);
    assert TurnBefore(s, r, n, x);
    assert GivenUp(s, n);
  }

  lemma {:induction false} SmoothMeans(s: State, s2: State, v: State, r: Id, x: Id)
    requires Walking(s, s2, v, r, x + 1) && Turn(s, r, x) && x in ListOf(v, r, Transport) && Visited(v, r, Transport, Some(x))
    ensures Smooth(v, r, Transport, Some(x)) <==> RestClear(s, r, x)
    decreases x
  {
    hide Inv, Closes, Lasts, Done, WithRoom, Steady, Evolves, Untouched, Turn, Below, ClosedIn, Shape, Links, Walking, CloseLk, NoFailedBelow, ClearTurn, ClearOf, Visited;
    WalkingParts(s, s2, v, r, x + 1);
    TurnMeans(s, s2, v, r, x);
    Successor(v, r, x);
    ListedTurn(s, s2, v, r, x + 1, x);
    var n := Next(ListOf(v, r, Transport), x);
    if NoFailedBelow(v, x) {
      Between(s, s2, v, r, x, if n.Some? then n.value else -1);
      NoTurnClear(s, r);
      if n.Some? {
        ListedTurn(s, s2, v, r, x + 1, n.value);
        if s.nodes[n.value].phase == Failed {
          FailedNext(s, s2, v, r, x, n.value);
          FailedNotSmooth(s, s2, v, r, x, n.value);
        } else {
          TurnOn(s, s2, v, r, x);
          WalkingFrom(s, s2, CloseLk(v, x), r, n.value + 1, x);
          TurnStays(s, s2, CloseLk(v, x), r, n.value + 1, n.value);
          SmoothTurn(v, multiset{r}, r, Transport, x);
          SmoothMeans(s, s2, CloseLk(v, x), r, n.value);
          LiveClear(s, r, n.value);
        }
      }
    }
  }

  lemma NoTurnClear(s: State, r: Id)
    ensures forall z :: !Turn(s, r, z) ==> ClearTurn(s, r, z)
  {
    hide Lasts, Done, WithRoom;
  }

  lemma LiveClear(s: State, r: Id, n: Id)
    requires n < |s.nodes| && s.nodes[n].phase != Failed
    ensures ClearOf(s, r, n)
  {
  }

  lemma FailedNotSmooth(s: State, s2: State, v: State, r: Id, x: Id, n: Id)
    requires Walking(s, s2, v, r, x + 1) && n in ListOf(v, r, Transport) && Next(ListOf(v, r, Transport), x) == Some(n)
    requires n < |s.nodes| && s.nodes[n].phase == Failed && NoFailedBelow(v, x) && Alive(v, x)
    requires x in ListOf(v, r, Transport)
    ensures !Smooth(v, r, Transport, Some(x))
  {
    hide Inv, Closes, Lasts, Done, WithRoom, Untouched, Turn, Below, ClosedIn, Shape, Links, CloseLk, Walking, Steady, Evolves;
    WalkingParts(s, s2, v, r, x + 1);
    ListedTurn(s, s2, v, r, x + 1, n);
    CloseLkSteady(v, multiset{r}, x) by { NotRouter(v, r, x); }
    ClosesPhase(v, CloseLk(v, x), multiset{r}, x, n);
    BelowSelf(CloseLk(v, x), n);
  }

  lemma BelowSelf(s: State, n: Id)
    ensures Alive(s, n) && s.nodes[n].phase == Failed ==> !NoFailedBelow(s, n)
  {
    assert Below(s.nodes, n, n);
  }

  lemma NotRouter(v: State, r: Id, x: Id)
    requires Shape(v) && Links(v) && r < |v.lists| && x in ListOf(v, r, Transport)
    ensures x < |v.nodes| && v.nodes[x].kind == Transport
  {
    ListedChild(v, r, Transport, x);
  }

  lemma ClosesPhase(s: State, t: State, P: multiset<Id>, b: Id, n: Id)
    requires Closes(s, t, P, b) && n < |s.nodes|
    ensures n < |t.nodes| && t.nodes[n].phase == s.nodes[n].phase
  {
    EvolvesAt(s, t, n);
  }

  // ---------------------------------------------------------------- where the walk begins

  /** Marking the router closed and closing its room. */
  lemma VacatedFlags(s: State, r: Id)
    requires Inv(s) && Alive(s, r) && s.nodes[r].kind == Router && !s.nodes[r].closed && s.nodes[r].phase != Failed
    ensures Walking(s, Vacated(s, r), Vacated(s, r), r, |s.nodes|)
  {
    hide GoodBut, Settled, InFlight, Slots, CloseLk, Below, Vacated, OnlyBelow, Evolves, Untouched, ChildrenClosed;
    var t := Vacated(s, r);
    VacatedIs(s, r);
    EvolvesSelf(t, r);
    ClosesItself(t, multiset{r}, r);
    DoneNone(s, r, |s.nodes|);
    forall i | 0 <= i < |s.nodes| ensures ClosedIf(s.nodes[i], t.nodes[i], i in WithRoom(s, r)) { VacatedFlag(s, r, i); }
    EvolvesSize(s, t);
  }

  lemma ClosesItself(s: State, P: multiset<Id>, b: Id)
    requires Steady(s, P)
    ensures Closes(s, s, P, b) && MembersKept(s, s)
  {
    Unchanged(s, P, b);
  }

  lemma VacatedFlag(s: State, r: Id, i: Id)
    requires Inv(s) && Alive(s, r) && s.nodes[r].kind == Router && !s.nodes[r].closed && s.nodes[r].phase != Failed && i < |s.nodes|
    ensures i < |Vacated(s, r).nodes| && ClosedIf(s.nodes[i], Vacated(s, r).nodes[i], i in WithRoom(s, r))
  {
    hide GoodBut, Settled, InFlight, Slots, CloseLk, Below, Vacated, OnlyBelow, Untouched, ChildrenClosed;
    var t := Vacated(s, r);
    VacatedIs(s, r);
    EvolvesAt(s, t, i);
    EvolvesAt(s, t, r);
    VacatedCloses(s, r, i);
    if Alive(t, i) && ByRoom(s, r, i) {
      var z :| 0 <= z < |s.nodes| && BelowRoomOf(s, r, z, i);
      EvolvesAt(s, t, z);
      EvolvesBelow(s, t, z);
      RoomShut(t, r, z, i);
    }
  }

  /** What hangs below a room is closed when the rooms of the router are. */
  lemma RoomShut(t: State, r: Id, z: Id, i: Id)
    requires Steady(t, multiset{r}) && r < |t.nodes| && t.nodes[r].kind == Router && ChildrenClosed(t, r, Room)
    requires z < |t.nodes| && t.nodes[z].kind == Room && r in t.nodes[z].up && Alive(t, i) && Below(t.nodes, z, i)
    ensures t.nodes[i].closed
  {
    AboveAlive(t, r, z, i);
    ClosedUnder(t, r, z, i);
  }

  lemma {:induction false} AboveAlive(t: State, r: Id, z: Id, i: Id)
    requires Steady(t, multiset{r}) && Alive(t, i) && Below(t.nodes, z, i)
    ensures Alive(t, z)
    decreases i
  {
    if z != i {
      var j := if t.nodes[i].up[0] < i && Below(t.nodes, z, t.nodes[i].up[0]) then 0 else 1;
      var y := t.nodes[i].up[j];
      assert ShapeAt(t.nodes, i);
      HeldIsAlive(t, multiset{r}, i, y);
      AboveAlive(t, r, z, y);
    }
  }

  /** Only the router and what hangs below its room is closed before the first turn. */
  lemma VacatedCloses(s: State, r: Id, i: Id)
    requires Inv(s) && Alive(s, r) && s.nodes[r].kind == Router && !s.nodes[r].closed && s.nodes[r].phase != Failed && i < |s.nodes|
    ensures var t := Vacated(s, r); i < |t.nodes| && (t.nodes[i].closed ==> s.nodes[i].closed || i == r || ByRoom(s, r, i))
    ensures Vacated(s, r).nodes[r].closed
  {
    hide GoodBut, Settled, InFlight, CloseLk, Below, Evolves, NoFailedBelow, Slots;
    VacatedIs(s, r);
    var m := MarkClosed(s, r);
    var slot := ListOf(s, r, Room);
    InvSteady(s);
    SteadyParts(s, multiset{});
    SlotShape(s, r);
    if slot != [] {
      var x := slot[0];
      assert x in slot;
      SlotsAlive(s, r);
      MarkedSteady(s, r);
      BelowRoomKinds(m, x);
      CloseLkSteady(m, multiset{r}, x);
      RoomFlag(s, r, m, CloseLk(m, x), x, i);
    }
  }

  lemma MarkedSteady(s: State, r: Id)
    requires Inv(s) && Alive(s, r) && s.nodes[r].kind == Router && !s.nodes[r].closed && s.nodes[r].phase != Failed
    ensures Steady(MarkClosed(s, r), multiset{r}) && Shape(MarkClosed(s, r))
  {
    hide GoodBut, Settled, InFlight, MarkAndLeave, MarkClosed, OnlyBelow, Evolves;
    InvSteady(s);
    MarkSteady(s, multiset{}, r);
    MarkOpens(s, r);
    assert multiset{} + multiset{r} == multiset{r};
    SteadyParts(MarkClosed(s, r), multiset{r});
  }

  lemma RoomFlag(s: State, r: Id, m: State, t: State, x: Id, i: Id)
    requires r < |s.nodes| && m == MarkClosed(s, r) && OnlyBelow(m, t, x) && Evolves(m, t) && i < |s.nodes|
    requires Alive(s, x) && s.nodes[x].kind == Room && s.nodes[x].up == [r]
    ensures i < |t.nodes| && (t.nodes[i].closed ==> s.nodes[i].closed || i == r || ByRoom(s, r, i))
  {
    EvolvesAt(m, t, i);
    if t.nodes[i].closed && !m.nodes[i].closed {
      BelowSame(s.nodes, m.nodes, x, i);
      assert BelowRoomOf(s, r, x, i);
    }
  }

  // ---------------------------------------------------------------- the transports

  ghost predicate TransportsInTime(s: State, r: Id) {
    forall x :: 0 <= x < |s.nodes| ==> ClearTurn(s, r, x) && ClearOf(s, r, x)
  }

  /** Above the first turn there is none, and what was given up there went with the room. */
  lemma AboveFirst(s: State, s2: State, r: Id, n: int)
    requires Walking(s, s2, s2, r, |s.nodes|) && forall z :: z in ListOf(s2, r, Transport) ==> z <= n
    ensures forall z :: 0 <= z < |s.nodes| && n < z ==> !Turn(s, r, z) && ClearTurn(s, r, z) && ClearOf(s, r, z)
  {
    hide Inv, Closes, Lasts, Done, WithRoom, Steady, Evolves, Untouched, Turn, Below, ClosedIn, Shape, Walking, Links;
    forall z | 0 <= z < |s.nodes| && n < z ensures !Turn(s, r, z) {
      if Turn(s, r, z) { TurnStays(s, s2, s2, r, |s.nodes|, z); }
    }
    NoTurnClear(s, r);
    forall z | 0 <= z < |s.nodes| && n < z ensures ClearOf(s, r, z) {
      if GivenUp(s, z) && s.nodes[z].kind == Transport && r in s.nodes[z].up {
        GoneBefore(s, s2, s2, r, |s.nodes|, z);
        BeyondAll(s, r);
        forall p: nat | TurnBefore(s, r, z, p) ensures p == |s.nodes| { TurnRange(s, r); }
      }
    }
  }

  lemma TurnRange(s: State, r: Id)
    ensures forall z: Id :: Turn(s, r, z) ==> z < |s.nodes|
  {
    hide Lasts, WithRoom;
  }

  lemma BeyondAll(s: State, r: Id)
    ensures Done(s, r, |s.nodes| + 1) == Done(s, r, |s.nodes|)
  {
    hide Lasts, WithRoom, Done;
    TurnRange(s, r);
    DoneSame(s, r, |s.nodes|, |s.nodes| + 1);
  }

  lemma TransportsMean(s: State, s2: State, r: Id)
    requires Walking(s, s2, s2, r, |s.nodes|)
    ensures Smooth(s2, r, Transport, First(ListOf(s2, r, Transport))) <==> TransportsInTime(s, r)
  {
    hide Inv, Closes, Lasts, Done, WithRoom, Steady, Evolves, Untouched, Turn, Below, ClosedIn, Shape, Links, Walking, CloseLk, NoFailedBelow, ClearTurn, ClearOf, Visited;
    var l := ListOf(s2, r, Transport);
    WalkingParts(s, s2, s2, r, |s.nodes|);
    FirstListed(s2, r, Transport);
    NewestFirst(s2, r);
    AboveFirst(s, s2, r, if l == [] then -1 else l[0]);
    if l != [] {
      var x := l[0];
      assert x in l;
      ListedTurn(s, s2, s2, r, |s.nodes|, x);
      if s.nodes[x].phase == Failed {
        FailedFirst(s, s2, r, x);
      } else {
        TurnRange(s, r);
        WalkingFrom(s, s2, s2, r, x + 1, |s.nodes|);
        SmoothMeans(s, s2, s2, r, x);
        LiveClear(s, r, x);
      }
    }
  }

  lemma NewestFirst(v: State, r: Id)
    requires Links(v) && r < |v.lists|
    ensures var l := ListOf(v, r, Transport); l != [] ==> forall z :: z in l ==> z <= l[0]
  {
    var l := ListOf(v, r, Transport);
    assert ListAt(v, r, Transport);
    forall z | z in l ensures z <= l[0] {
      var j :| 0 <= j < |l| && l[j] == z;
      if j > 0 { assert Before(Transport, l[0], l[j]); }
    }
  }

  lemma FailedFirst(s: State, s2: State, r: Id, x: Id)
    requires Walking(s, s2, s2, r, |s.nodes|) && x in ListOf(s2, r, Transport) && x < |s.nodes| && s.nodes[x].phase == Failed
    requires First(ListOf(s2, r, Transport)) == Some(x)
    requires forall z :: 0 <= z < |s.nodes| && x < z ==> !Turn(s, r, z)
    ensures !ClearOf(s, r, x) && !Smooth(s2, r, Transport, Some(x))
  {
    hide Inv, Closes, Lasts, Done, WithRoom, Steady, Evolves, Untouched, Turn, ClosedIn, Walking, CloseLk, NoFailedBelow, Below;
    ListedTurn(s, s2, s2, r, |s.nodes|, x);
    BeyondAll(s, r);
    assert TurnBefore(s, r, x, |s.nodes|);
    assert GivenUp(s, x);
    BelowSelf(s2, x);
  }

  // ---------------------------------------------------------------- the observers

  /** Where nothing was given up the walk is smooth. */
  lemma {:induction false} SteadySmooth(s: State, t: Id, k: Kind, q: Option<Id>)
    requires Steady(s, multiset{t}) && t < |s.nodes| && RouterList(k) && NoFailedBelow(s, t) && Visited(s, t, k, q)
    requires q.Some? ==> q.value in ListOf(s, t, k)
    ensures Smooth(s, t, k, q)
    decreases OpenSet(s.nodes), Remaining(s, t, k, q)
  {
    hide GoodBut, Settled, InFlight, Evolves, NoFailedBelow, OnlyBelow, Untouched, Visited, Shape, Links, CloseLk;
    if q.Some? {
      var P := multiset{t};
      var x := q.value;
      var s1 := CloseLk(s, x);
      SteadyParts(s, P);
      ListedChild(s, t, k, x);
      NoFailedChild(s, t, x);
      CloseLkSteady(s, P, x);
      WalkStep(s, s1, P, t, k, x);
      NoFailedEvolves(s, s1, t);
      EvolvesAt(s, s1, t);
      SteadySmooth(s1, t, k, Next(ListOf(s, t, k), x));
    }
  }

  /** Who hangs below the router hangs below one of its children. */
  lemma {:induction false} ByChild(s: State, r: Id, y: Id) returns (z: Id)
    requires Shape(s) && y < |s.nodes| && Below(s.nodes, r, y) && y != r
    ensures z < |s.nodes| && r in s.nodes[z].up && Below(s.nodes, z, y)
    decreases y
  {
    var j := if s.nodes[y].up[0] < y && Below(s.nodes, r, s.nodes[y].up[0]) then 0 else 1;
    var p := s.nodes[y].up[j];
    assert ShapeAt(s.nodes, y);
    if p == r {
      z := y;
    } else {
      z := ByChild(s, r, p);
      BelowTrans(s.nodes, z, p, y) by { ParentOf(s, y, j); }
    }
  }

  lemma ParentOf(s: State, y: Id, j: nat)
    requires Shape(s) && y < |s.nodes| && j < |s.nodes[y].up|
    ensures Below(s.nodes, s.nodes[y].up[j], y)
  {
    ChildBelow(s, s.nodes[y].up[j], y);
  }

  /** When room and transports are closed, only an observer can still be given up. */
  lemma OnlyObservers(v: State, r: Id)
    requires Steady(v, multiset{r}) && Alive(v, r) && v.nodes[r].kind == Router && v.nodes[r].closed
    requires ChildrenClosed(v, r, Room) && ChildrenClosed(v, r, Transport)
    requires forall o :: 0 <= o < |v.nodes| && r in v.nodes[o].up && v.nodes[o].kind == Observer && !v.nodes[o].disposed ==> v.nodes[o].phase != Failed
    ensures NoFailedBelow(v, r)
  {
    hide Balanced, Registry, Owners, Links, Settled, InFlight;
    forall y | 0 <= y < |v.nodes| && !v.nodes[y].disposed && Below(v.nodes, r, y) ensures v.nodes[y].phase != Failed {
      if y != r {
        var z := ByChild(v, r, y);
        assert ShapeAt(v.nodes, z);
        AboveAlive(v, r, z, y);
        if v.nodes[z].kind == Observer {
          NothingBelowLeaf(v, z, y);
        } else {
          ClosedUnder(v, r, z, y);
        }
      }
    }
  }

  /** Only threads hold observers. */
  lemma ObserverHeld(s: State, o: Id)
    requires Good(s) && GivenUp(s, o) && s.nodes[o].kind == Observer
    ensures o in s.borrows
  {
    hide In;
    AliveIffHeld(s, o);
    forall h | 0 <= h < |s.nodes| ensures s.nodes[h].Holds(o) == 0 {
      assert ShapeAt(s.nodes, h);
      assert o !in s.nodes[h].up && o !in s.nodes[h].owned;
    }
    InNone(s.nodes, o);
  }

  lemma HeldInCascade(v: State, r: Id, o: Id)
    requires Steady(v, multiset{r}) && o in v.borrows
    ensures Alive(v, o)
  {
    assert BalancedAt(v, multiset{r}, o);
  }

  lemma ObserversMean(s: State, s3: State, r: Id)
    requires Inv(s) && Alive(s, r) && s.nodes[r].kind == Router && Steady(s3, multiset{r}) && Evolves(s, s3)
    requires Alive(s3, r) && s3.nodes[r].kind == Router && s3.nodes[r].closed && ChildrenClosed(s3, r, Room) && ChildrenClosed(s3, r, Transport)
    ensures Smooth(s3, r, Observer, First(ListOf(s3, r, Observer))) <==>
      forall o: Id :: GivenUp(s, o) && r in s.nodes[o].up ==> s.nodes[o].kind != Observer
  {
    hide Good, Settled, InFlight, NoFailedBelow, CloseLk, Smooth, WalkLk, ChildrenClosed, Steady, Evolves, Slots;
    if o: Id :| GivenUp(s, o) && r in s.nodes[o].up && s.nodes[o].kind == Observer {
      InvIsGood(s);
      ObserverHeld(s, o);
      EvolvesAt(s, s3, o);
      EvolvesSize(s, s3);
      HeldInCascade(s3, r, o);
      if Smooth(s3, r, Observer, First(ListOf(s3, r, Observer))) { ObserverMet(s3, r, o); }
    } else {
      forall o | 0 <= o < |s3.nodes| && r in s3.nodes[o].up && s3.nodes[o].kind == Observer && !s3.nodes[o].disposed
        ensures s3.nodes[o].phase != Failed
      {
        EvolvesSize(s, s3);
        EvolvesAt(s, s3, o);
      }
      OnlyObservers(s3, r);
      FirstListed(s3, r, Observer);
      SteadySmooth(s3, r, Observer, First(ListOf(s3, r, Observer)));
    }
  }

  lemma ObserverMet(v: State, r: Id, o: Id)
    requires Steady(v, multiset{r}) && r < |v.nodes| && v.nodes[r].kind == Router && o in v.borrows && o < |v.nodes|
    requires v.nodes[o].kind == Observer && v.nodes[o].phase == Failed && r in v.nodes[o].up
    ensures !Smooth(v, r, Observer, First(ListOf(v, r, Observer)))
  {
    hide GoodBut, Settled, InFlight, CloseLk, Smooth, WalkLk, Evolves;
    if Smooth(v, r, Observer, First(ListOf(v, r, Observer))) {
      var t := WalkLk(v, r, Observer, First(ListOf(v, r, Observer)));
      SmoothList(v, r, Observer);
      EvolvesSize(v, t);
      EvolvesAt(v, t, o);
      HeldInCascade(t, r, o);
      ClosedGivenUp(t, r, o);
    }
  }

  lemma ClosedGivenUp(t: State, r: Id, o: Id)
    requires Steady(t, multiset{r}) && Alive(t, o) && t.nodes[o].phase == Failed
    ensures !t.nodes[o].closed
  {
  }

  // ---------------------------------------------------------------- exactly

  lemma BeingReleased(v: State, r: Id)
    requires Steady(v, multiset{r}) && r < |v.nodes|
    ensures Alive(v, r)
  {
    assert BalancedAt(v, multiset{r}, r);
    assert r in multiset{r};
  }

  lemma RouterInTime(s: State, r: Id)
    requires Inv(s) && Alive(s, r) && s.nodes[r].kind == Router && !s.nodes[r].closed && s.nodes[r].phase != Failed
    ensures SmoothClose(s, r) <==> InTime(s, r)
  {
    hide Inv, Settled, InFlight, Slots, Evolves, OnlyBelow, Untouched, ChildrenClosed, CloseLk, WalkLk, Vacated, Smooth, ClearTurn, ClearOf, Lasts, Done, WithRoom, Steady, Below;
    var s2 := Vacated(s, r);
    var q2 := First(ListOf(s2, r, Transport));
    var s3 := WalkLk(s2, r, Transport, q2);
    VacatedIs(s, r);
    VacatedFlags(s, r);
    TransportsMean(s, s2, r);
    if Smooth(s2, r, Transport, q2) {
      SmoothList(s2, r, Transport);
      ChildrenStayClosed(s2, s3, r, Room);
      EvolvesTwice(s, s2, s3);
      EvolvesAt(s2, s3, r);
      BeingReleased(s3, r);
      ObserversMean(s, s3, r);
    }
  }

  lemma EvolvesTwice(s: State, t: State, u: State)
    requires Evolves(s, t) && Evolves(t, u)
    ensures Evolves(s, u)
  {
    EvolvesTrans(s, t, u);
  }

  /** Where nothing was given up there is nothing to be in time. */
  lemma NoneInTime(s: State, r: Id)
    requires Inv(s) && Alive(s, r) && s.nodes[r].kind == Router
    requires forall y :: GivenUp(s, y) && Below(s.nodes, r, y) ==> y == r
    ensures InTime(s, r)
  {
    hide Slots, Lasts, Done, WithRoom, Below, GoodBut, Settled;
    InvShape(s);
    forall y | 0 <= y < |s.nodes| && r in s.nodes[y].up ensures Below(s.nodes, r, y) && y != r {
      ChildBelow(s, r, y);
      NotOwnParent(s, y);
    }
    forall x | 0 <= x < |s.nodes| ensures ClearTurn(s, r, x) && ClearOf(s, r, x) {
      if Turn(s, r, x) {
        TurnIn(s, r, x);
        forall y | 0 <= y < |s.nodes| && Below(s.nodes, x, y) ensures Below(s.nodes, r, y) && y != r {
          BelowTrans(s.nodes, r, x, y);
          BelowRank(s, x, y);
        }
      }
    }
  }

  lemma NotOwnParent(s: State, y: Id)
    requires Shape(s) && y < |s.nodes|
    ensures y !in s.nodes[y].up
  {
    assert ShapeAt(s.nodes, y);
  }

  /** A closed router has nothing given up below it. */
  lemma ClosedInTime(s: State, r: Id)
    requires Inv(s) && Alive(s, r) && s.nodes[r].kind == Router && s.nodes[r].closed
    ensures InTime(s, r) && s.nodes[r].phase != Failed
  {
    hide Slots, InTime, Below, GoodBut, Settled;
    InvIsGood(s);
    if s.nodes[r].phase == Failed { GivenUpIsOpen(s, r); }
    forall y | GivenUp(s, y) ensures !Below(s.nodes, r, y) {
      GivenUpIsOpen(s, y);
      if Below(s.nodes, r, y) { ClosedBelow(s, r, y); }
    }
    NoneInTime(s, r);
  }

  /** Nothing that the close comes upon was given up: for a router, nothing that is not gone in
      time; for any other resource, nothing at all below it. */
  ghost predicate ClearBelow(s: State, b: Id)
    requires b < |s.nodes|
  {
    if s.nodes[b].kind == Router then InTime(s, b) else forall x :: GivenUp(s, x) && Below(s.nodes, b, x) ==> x == b
  }

  /** Closing a resource leaves everything in order exactly if neither itself nor what the close
      comes upon below it was given up. */
  lemma CloseExactly(s: State, b: Id)
    requires Inv(s) && Alive(s, b)
    ensures Sound(CloseLk(s, b)) <==> (s.nodes[b].phase != Failed && ClearBelow(s, b))
  {
    hide GoodBut, Settled, Slots, CloseLk, Sound, InTime, Smooth, SmoothClose, LeavesDoomed;
    if s.nodes[b].phase == Failed {
      GivenUpItself(s, b);
      NotGoodNotSound(CloseLk(s, b));
    } else if s.nodes[b].kind != Router {
      CloseOtherExactly(s, b);
      NoneBelow(s, b);
    } else if s.nodes[b].closed {
      ClosedInTime(s, b);
      ClosedSound(s, b);
    } else {
      RouterInTime(s, b);
      if SmoothClose(s, b) {
        SmoothIsSound(s, b);
      } else {
        var y := NotSmooth(s, b);
        LeftNotSound(CloseLk(s, b), b, y);
      }
    }
  }

  lemma LeftNotSound(t: State, r: Id, y: Id)
    requires LeavesDoomed(t, r, y)
    ensures !Sound(t)
  {
    hide Doomed, Sound;
    DoomedEnds(t, r, y);
  }

  lemma ClosedSound(s: State, b: Id)
    requires Inv(s) && Alive(s, b) && s.nodes[b].closed
    ensures Sound(CloseLk(s, b)) && CloseLk(s, b) == s
  {
  }

  lemma NoneBelow(s: State, b: Id)
    requires b < |s.nodes| && s.nodes[b].phase != Failed
    ensures NoFailedBelow(s, b) <==> forall x :: GivenUp(s, x) && Below(s.nodes, b, x) ==> x == b
  {
    hide Below;
    forall x | 0 <= x < |s.nodes| && !s.nodes[x].disposed && Below(s.nodes, b, x) && s.nodes[x].phase == Failed
      ensures GivenUp(s, x) && x != b {}
  }

  /** For a resource without children that is whether its creator has given it up. */
  lemma LeafCloseExactly(s: State, b: Id)
    requires Inv(s) && Alive(s, b) && s.nodes[b].kind in {Consumer, Observer}
    ensures Good(CloseLk(s, b)) <==> s.nodes[b].phase != Failed
  {
    hide Inv, Good, Settled, CloseLk;
    if s.nodes[b].phase == Failed {
      GivenUpItself(s, b);
    } else {
      InvShape(s);
      forall x | GivenUp(s, x) && Below(s.nodes, b, x) ensures x == b { NothingBelowLeaf(s, b, x); }
      CloseExactly(s, b);
    }
  }
}
