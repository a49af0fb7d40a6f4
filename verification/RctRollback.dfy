/**
 A creation that fails leaves no trace.

 Between lock-held sections everything derived is a function of what the resources are:
 which of them are undisposed, their counters, the lists, the maps, the loads, the gauges and
 the owner index follow from the identities, the closed flags, the creators' progress, the
 owner entries and the borrowed references. So a state in which a creator has failed and let
 go of the parents cannot be told from one in which the resource never existed.
 */
module RctRollback {
  import opened RctState
  import opened RctRefs
  import opened RctInvariant
  import opened RctRelease
  import opened RctCascade
  import opened RctSteps
  import opened RctCreation
  import opened RctProtocol

  // ---------------------------------------------------------------- one state for one intent

  /** What is given: everything but counters, disposal and the derived structures; nothing is
      asked of the resources in `D`, which are disposed in both. */
  ghost predicate SameIntentBut(a: State, b: State, D: set<Id>) {
    && |a.nodes| == |b.nodes| && a.borrows == b.borrows
    && (forall i :: 0 <= i < |a.nodes| && i !in D ==>
          a.nodes[i] == b.nodes[i].(refs := a.nodes[i].refs, disposed := a.nodes[i].disposed))
    && (forall i :: i in D && i < |a.nodes| ==> a.nodes[i].disposed && b.nodes[i].disposed)
  }

  /** What follows. */
  ghost predicate Indistinguishable(a: State, b: State) {
    && |a.nodes| == |b.nodes| && a.lists == b.lists && a.byId == b.byId && a.byUuid == b.byUuid
    && a.gauges == b.gauges && a.owner == b.owner && (forall w :: w != 0 ==> LoadOf(a.load, w) == LoadOf(b.load, w))
    && forall i :: 0 <= i < |a.nodes| ==> SameLife(a, b, i)
  }

  ghost predicate SameLife(a: State, b: State, i: Id)
    requires i < |a.nodes| && i < |b.nodes|
  {
    a.nodes[i].disposed == b.nodes[i].disposed && (!a.nodes[i].disposed ==> a.nodes[i].refs == b.nodes[i].refs)
  }

  lemma AliveIffHeld(s: State, i: Id)
    requires Good(s) && i < |s.nodes|
    ensures s.nodes[i].disposed <==> Holders(s, multiset{}, i) == 0
    ensures !s.nodes[i].disposed ==> s.nodes[i].refs == Holders(s, multiset{}, i)
  {
    assert BalancedAt(s, multiset{}, i);
  }

  /** From the top of the release order downwards: who is held is decided by who holds. */
  lemma {:induction false} SameAlive(a: State, b: State, D: set<Id>, r: nat)
    requires Good(a) && Good(b) && SameIntentBut(a, b, D) && r <= 5
    ensures forall i :: 0 <= i < |a.nodes| && Rank(a.nodes[i].kind) >= r && i !in D ==> SameLife(a, b, i)
    decreases 5 - r
  {
    if r < 5 {
      SameAlive(a, b, D, r + 1);
      forall i | 0 <= i < |a.nodes| && Rank(a.nodes[i].kind) >= r && i !in D ensures SameLife(a, b, i) {
        forall h | 0 <= h < |a.nodes| ensures a.nodes[h].Holds(i) == b.nodes[h].Holds(i) {
          HoldsAgree(a, b, D, r, h, i);
        }
        InSame(a.nodes, b.nodes, i);
        AliveIffHeld(a, i);
        AliveIffHeld(b, i);
      }
    }
  }

  lemma HoldsAgree(a: State, b: State, D: set<Id>, r: nat, h: Id, i: Id)
    requires Shape(a) && Shape(b) && SameIntentBut(a, b, D) && h < |a.nodes| && i < |a.nodes| && i !in D
    requires Rank(a.nodes[i].kind) >= r
    requires forall x :: 0 <= x < |a.nodes| && Rank(a.nodes[x].kind) >= r + 1 && x !in D ==> SameLife(a, b, x)
    ensures a.nodes[h].Holds(i) == b.nodes[h].Holds(i)
  {
    if h !in D {
      if a.nodes[h].Holds(i) >= 1 {
        HolderRank(a, h, i);
        assert SameLife(a, b, h);
      } else if b.nodes[h].Holds(i) >= 1 {
        HolderRank(b, h, i);
        assert SameLife(a, b, h);
      }
    }
  }

  /** A list is determined by its elements. */
  lemma {:induction false} OrderedUnique(k: Kind, l: seq<Id>, m: seq<Id>)
    requires Ordered(k, l) && Ordered(k, m) && forall x :: x in l <==> x in m
    ensures l == m
  {
    assert (l == [] || l[0] in l) && (m == [] || m[0] in m);
    if l != [] && m != [] {
      assert l[0] in m && m[0] in l;
      HeadFirst(k, l, m[0]);
      HeadFirst(k, m, l[0]);
      forall x ensures x in l[1..] <==> x in m[1..] {
        TailWithout(k, l);
        TailWithout(k, m);
      }
      OrderedUnique(k, l[1..], m[1..]);
    }
  }

  lemma HeadFirst(k: Kind, l: seq<Id>, x: Id)
    requires Ordered(k, l) && x in l
    ensures x == l[0] || Before(k, l[0], x)
  {
    var i :| 0 <= i < |l| && l[i] == x;
  }

  lemma TailWithout(k: Kind, l: seq<Id>)
    requires Ordered(k, l) && l != []
    ensures forall x :: x in l[1..] <==> x in l && x != l[0]
  {
    assert l == [l[0]] + l[1..];
    forall x | x in l[1..] ensures x != l[0] {
      var j :| 0 <= j < |l[1..]| && l[1..][j] == x;
      assert Before(k, l[0], l[j + 1]);
    }
  }

  lemma SameLists(a: State, b: State, D: set<Id>, p: Id)
    requires Shape(a) && Shape(b) && Links(a) && Links(b) && Slots(a) && Slots(b) && SameIntentBut(a, b, D)
    requires forall i :: 0 <= i < |a.nodes| ==> SameLife(a, b, i)
    requires p < |a.lists|
    ensures a.lists[p] == b.lists[p]
  {
    forall k | IsListKind(k) ensures a.lists[p].Get(k) == b.lists[p].Get(k) {
      assert ListAt(a, p, k) && ListAt(b, p, k);
      forall x: Id ensures x in a.lists[p].Get(k) <==> x in b.lists[p].Get(k) {
        assert Child(a.nodes, p, k, x) <==> Child(b.nodes, p, k, x) by { if x < |a.nodes| { assert SameLife(a, b, x); } }
      }
      OrderedUnique(k, a.lists[p].Get(k), b.lists[p].Get(k));
    }
    SlotSame(a, b, D, p);
    Mirrored(a, b);
    SlotSame(b, a, D, p);
    assert RoomAt(a, p) && RoomAt(b, p);
    assert a.lists[p].Get(Member) == b.lists[p].Get(Member) && a.lists[p].Get(Transport) == b.lists[p].Get(Transport)
        && a.lists[p].Get(Producer) == b.lists[p].Get(Producer) && a.lists[p].Get(Consumer) == b.lists[p].Get(Consumer)
        && a.lists[p].Get(Observer) == b.lists[p].Get(Observer);
  }

  lemma Mirrored(a: State, b: State)
    requires |a.nodes| == |b.nodes| && forall i :: 0 <= i < |a.nodes| ==> SameLife(a, b, i)
    ensures forall i :: 0 <= i < |b.nodes| ==> SameLife(b, a, i)
  {
    forall i | 0 <= i < |b.nodes| ensures SameLife(b, a, i) { assert SameLife(a, b, i); }
  }

  lemma SlotSame(a: State, b: State, D: set<Id>, p: Id)
    requires |a.lists| == |a.nodes| && |b.lists| == |b.nodes| && Links(a) && Links(b) && Slots(a) && SameIntentBut(a, b, D)
    requires forall i :: 0 <= i < |a.nodes| ==> SameLife(a, b, i)
    requires p < |a.lists|
    ensures a.lists[p].room != [] ==> b.lists[p].room == a.lists[p].room
  {
    assert SlotAt(a, p) && RoomAt(a, p);
    if a.lists[p].room != [] {
      var x := a.lists[p].room[0];
      assert x in a.lists[p].room;
      assert SameLife(a, b, x);
      assert OpenRoomAt(b, x);
    }
  }

  lemma SameIds(a: State, b: State, D: set<Id>)
    requires IdMap(a, {}) && IdMap(b, {}) && SameIntentBut(a, b, D)
    requires forall i :: 0 <= i < |a.nodes| ==> SameLife(a, b, i)
    ensures a.byId == b.byId && a.byId !! D && forall i :: i in a.byId ==> i < |a.nodes|
  {
    forall i: Id ensures i in a.byId <==> i in b.byId {
      assert i in a.byId <==> Registered(a, {}, i);
      assert i in b.byId <==> Registered(b, {}, i);
      if i < |a.nodes| { assert SameLife(a, b, i); }
    }
    forall i | i in a.byId ensures i < |a.nodes| && i !in D { assert Registered(a, {}, i); }
  }

  lemma SameCounts(a: State, b: State, D: set<Id>)
    requires LoadMap(a) && LoadMap(b) && GaugeMap(a) && GaugeMap(b) && SameIntentBut(a, b, D)
    requires a.byId == b.byId && a.byId !! D
    ensures a.gauges == b.gauges && forall w :: w != 0 ==> LoadOf(a.load, w) == LoadOf(b.load, w)
  {
    forall w | w != 0 ensures LoadOf(a.load, w) == LoadOf(b.load, w) {
      assert CarriedBy(a.nodes, a.byId, w) == CarriedBy(b.nodes, b.byId, w);
    }
    forall g ensures a.gauges[g] == b.gauges[g] {
      assert CountedBy(a.nodes, a.byId, g) == CountedBy(b.nodes, b.byId, g);
    }
  }

  lemma SameMaps(a: State, b: State, D: set<Id>)
    requires Registry(a, {}) && Registry(b, {}) && Owners(a) && Owners(b) && SameIntentBut(a, b, D)
    requires forall i :: 0 <= i < |a.nodes| ==> SameLife(a, b, i)
    ensures a.byId == b.byId && a.byUuid == b.byUuid && a.gauges == b.gauges && a.owner == b.owner
    ensures forall w :: w != 0 ==> LoadOf(a.load, w) == LoadOf(b.load, w)
  {
    hide IdMap, UuidMap, LoadMap, GaugeMap, Owners, SameLife, LoadOf;
    SameIds(a, b, D);
    SameCounts(a, b, D);
    UuidSame(a, b, D);
    SameIntentFlip(a, b, D);
    UuidSame(b, a, D);
    OwnerSame(a, b, D);
    Mirrored(a, b);
    OwnerSame(b, a, D);
    assert a.byUuid == b.byUuid;
    assert a.owner == b.owner;
  }

  lemma SameIntentFlip(a: State, b: State, D: set<Id>)
    requires SameIntentBut(a, b, D)
    ensures SameIntentBut(b, a, D)
  {
  }

  lemma UuidSame(a: State, b: State, D: set<Id>)
    requires UuidMap(a) && UuidMap(b) && a.byId == b.byId && a.byId !! D && SameIntentBut(a, b, D)
    ensures forall u :: u in a.byUuid ==> u in b.byUuid && b.byUuid[u] == a.byUuid[u]
  {
    forall u | u in a.byUuid ensures u in b.byUuid && b.byUuid[u] == a.byUuid[u] {
      assert a.byUuid[u] in b.byId;
    }
  }

  lemma OwnerSame(a: State, b: State, D: set<Id>)
    requires Owners(a) && Owners(b) && SameIntentBut(a, b, D)
    requires forall i :: 0 <= i < |a.nodes| ==> SameLife(a, b, i)
    ensures forall r :: r in a.owner ==> r in b.owner && b.owner[r] == a.owner[r]
  {
    forall r | r in a.owner ensures r in b.owner && b.owner[r] == a.owner[r] {
      assert SameLife(a, b, a.owner[r]);
    }
  }

  /** Two invariant states with the same resources, flags, owner entries and borrowed references,
      except for resources that are dead in both, agree in everything that the system derives. */
  lemma Canonical(a: State, b: State, D: set<Id>)
    requires Inv(a) && Inv(b) && SameIntentBut(a, b, D)
    ensures Indistinguishable(a, b)
  {
    SameAlive(a, b, D, 0);
    forall p | 0 <= p < |a.lists| ensures a.lists[p] == b.lists[p] {
      SameLists(a, b, D, p);
    }
    SameMaps(a, b, D);
  }

  // ---------------------------------------------------------------- the worker said no

  /** The creator gives its borrowed references back. */
  function ReleaseAll(s: State, ids: seq<Id>): State
    decreases |ids|
  {
    if ids == [] then s else ReleaseAll(Release(s, ids[0]), ids[1..])
  }

  ghost predicate KeepsIntent(s: State, t: State) {
    |t.nodes| == |s.nodes| && forall i :: 0 <= i < |s.nodes| ==>
      && t.nodes[i] == s.nodes[i].(refs := t.nodes[i].refs, disposed := t.nodes[i].disposed)
      && (s.nodes[i].disposed ==> t.nodes[i].disposed)
  }

  lemma {:induction false} ReleaseAllInv(s: State, ids: seq<Id>)
    requires Inv(s) && multiset(ids) <= s.borrows
    ensures Inv(ReleaseAll(s, ids)) && KeepsIntent(s, ReleaseAll(s, ids))
    ensures ReleaseAll(s, ids).borrows == s.borrows - multiset(ids)
    decreases |ids|
  {
    hide Inv, Release, KeepsIntent;
    KeepsItself(s);
    if ids != [] {
      var x := ids[0];
      assert ids == [x] + ids[1..];
      assert x in multiset(ids);
      var t := Release(s, x);
      ReleaseInv(s, x);
      ReleaseIntent(s, x);
      assert multiset(ids[1..]) <= t.borrows;
      ReleaseAllInv(t, ids[1..]);
      assert t.borrows - multiset(ids[1..]) == s.borrows - multiset(ids);
      KeepsTwice(s, t, ReleaseAll(s, ids));
    }
  }

  lemma KeepsItself(s: State)
    ensures KeepsIntent(s, s)
  {
  }

  lemma KeepsTwice(s: State, t: State, u: State)
    requires KeepsIntent(s, t) && KeepsIntent(t, u)
    ensures KeepsIntent(s, u)
  {
  }

  lemma ReleaseIntent(s: State, i: Id)
    requires Inv(s) && i in s.borrows
    ensures KeepsIntent(s, Release(s, i)) && Release(s, i).borrows == s.borrows - multiset{i}
  {
    var u := s.(borrows := s.borrows - multiset{i});
    forall j | 0 <= j < |u.nodes| ensures ShapeAt(u.nodes, j) { assert ShapeAt(s.nodes, j); }
    RefLkFrame(u, i, -1);
    var t := Release(s, i);
    forall j | 0 <= j < |s.nodes| ensures t.nodes[j] == s.nodes[j].(refs := t.nodes[j].refs, disposed := t.nodes[j].disposed)
        && (s.nodes[j].disposed ==> t.nodes[j].disposed) {
      assert EvolvesTo(u.nodes[j], t.nodes[j]);
    }
  }

  /** Nobody but its creator still holds `c`, and the creator holds the parents of `c`. */
  ghost predicate CreatorAlone(s: State, c: Id) {
    UnderConstruction(s, c) && OthersOn(s, c) == 0 && multiset(s.nodes[c].up) <= s.borrows
  }

  lemma FailDisposes(s: State, c: Id)
    requires Inv(s) && UnderConstruction(s, c) && OthersOn(s, c) == 0
    ensures var t := FinishFail(s, c);
      && Inv(t) && t.nodes[c].disposed && t.borrows == s.borrows && |t.nodes| == |s.nodes|
      && (forall i :: 0 <= i < |s.nodes| && s.nodes[i].disposed ==> t.nodes[i].disposed)
      && forall i :: 0 <= i < |s.nodes| && i != c ==>
        t.nodes[i] == s.nodes[i].(refs := t.nodes[i].refs, disposed := t.nodes[i].disposed)
  {
    AliveIffHeld(s, c);
    FinishFailInv(s, c);
    var u := SetPhase(s, c, Failed);
    var t := FinishFail(s, c);
    SetPhaseFrame(s, c, Failed);
    RefLkFrame(u, c, -INIT_REFS);
    assert FrameAt(u, t, c);
    FinishDisposes(s, c);
    forall i | 0 <= i < |s.nodes| && i != c
      ensures t.nodes[i] == s.nodes[i].(refs := t.nodes[i].refs, disposed := t.nodes[i].disposed)
    {
      assert EvolvesTo(u.nodes[i], t.nodes[i]);
    }
    forall i | 0 <= i < |s.nodes| && s.nodes[i].disposed ensures t.nodes[i].disposed { assert EvolvesTo(u.nodes[i], t.nodes[i]); }
    assert EvolvesTo(u.nodes[c], t.nodes[c]);
    assert s.nodes[c].closed ==> NoHazard(t) && t.nodes[c].phase == Failed && t.nodes[c].closed;
  }

  function DeadInBoth(s: State, w: State, c: Id): set<Id>
    requires |s.nodes| == |w.nodes|
  {
    {c} + set i | 0 <= i < |s.nodes| && s.nodes[i].disposed && w.nodes[i].disposed
  }

  /** When a creator fails, at any time and after whatever the others did meanwhile, and then
      lets go of the parents, the lists, the maps, the loads, the gauges, the owner index and
      the counters of all other resources are those of a world `w` in which the others did the
      same and the resource was never there. */
  lemma FailedCreationLeavesNoTrace(s: State, c: Id, ids: seq<Id>, w: State)
    requires Inv(s) && CreatorAlone(s, c) && multiset(ids) == multiset(s.nodes[c].up)
    requires Inv(w) && |w.nodes| == |s.nodes| && w.nodes[c].disposed && w.borrows == s.borrows - multiset(ids)
    requires forall i :: 0 <= i < |s.nodes| && i !in DeadInBoth(s, w, c) ==>
      w.nodes[i] == s.nodes[i].(refs := w.nodes[i].refs, disposed := w.nodes[i].disposed)
    ensures Indistinguishable(ReleaseAll(FinishFail(s, c), ids), w)
  {
    hide Inv, FinishFail, Indistinguishable, SameIntentBut, KeepsIntent, ReleaseAll, DeadInBoth;
    var t := FinishFail(s, c);
    FailDisposes(s, c);
    ReleaseAllInv(t, ids);
    NoTraceIntent(s, c, t, ReleaseAll(t, ids), w);
    Canonical(ReleaseAll(t, ids), w, DeadInBoth(s, w, c));
  }

  lemma NoTraceIntent(s: State, c: Id, t: State, r: State, w: State)
    requires c < |s.nodes| == |w.nodes| == |t.nodes| && t.nodes[c].disposed && w.nodes[c].disposed && r.borrows == w.borrows
    requires forall i :: 0 <= i < |s.nodes| && i != c ==>
      t.nodes[i] == s.nodes[i].(refs := t.nodes[i].refs, disposed := t.nodes[i].disposed)
    requires KeepsIntent(t, r) && forall i :: 0 <= i < |s.nodes| && s.nodes[i].disposed ==> t.nodes[i].disposed
    requires forall i :: 0 <= i < |s.nodes| && i !in DeadInBoth(s, w, c) ==>
      w.nodes[i] == s.nodes[i].(refs := w.nodes[i].refs, disposed := w.nodes[i].disposed)
    ensures SameIntentBut(r, w, DeadInBoth(s, w, c))
  {
  }

  // ---------------------------------------------------------------- failing before anything is linked

  /** The place that a resource leaves behind which nobody ever saw. */
  function Gap(s: State, n: Node): State {
    s.(nodes := s.nodes + [n], lists := s.lists + [NO_LISTS])
  }

  function Buried(n: Node): Node {
    n.(refs := 0, disposed := true, phase := Failed)
  }

  /** Adds `k` times the multiplicity of each id to its counter. */
  function Shift(s: State, m: multiset<Id>, k: int): State {
    s.(nodes := seq(|s.nodes|, i requires 0 <= i < |s.nodes| => s.nodes[i].(refs := s.nodes[i].refs + k * m[i])))
  }

  lemma ShiftNone(s: State, k: int)
    ensures Shift(s, multiset{}, k) == s
  {
    assert Shift(s, multiset{}, k).nodes == s.nodes;
  }

  lemma ShiftMore(s: State, x: Id, m: multiset<Id>, k: int)
    requires x < |s.nodes|
    ensures Shift(AddRefs(s, x, k), m, k) == Shift(s, multiset{x} + m, k)
  {
    assert Shift(AddRefs(s, x, k), m, k).nodes == Shift(s, multiset{x} + m, k).nodes;
  }

  lemma Small(s: State, x: Id, n: int)
    requires x < |s.nodes| && !s.nodes[x].disposed && s.nodes[x].refs + n >= 1
    ensures RefLk(s, x, n) == AddRefs(s, x, n)
  {
  }

  ghost predicate CanGive(s: State, m: multiset<Id>) {
    forall x :: x in m ==> x < |s.nodes| && !s.nodes[x].disposed && s.nodes[x].refs > m[x]
  }

  lemma {:induction false} GrabIsShift(s: State, ids: seq<Id>)
    requires forall x :: x in ids ==> x < |s.nodes| && !s.nodes[x].disposed && s.nodes[x].refs >= 1
    ensures Grab(s, ids) == Shift(s, multiset(ids), 1)
    decreases |ids|
  {
    hide RefLk, Shift;
    if ids == [] {
      ShiftNone(s, 1);
    } else {
      var x := ids[0];
      assert ids == [x] + ids[1..] && x in ids;
      Small(s, x, 1);
      assert forall y :: y in ids[1..] ==> y in ids;
      GrabIsShift(AddRefs(s, x, 1), ids[1..]);
      ShiftMore(s, x, multiset(ids[1..]), 1);
    }
  }

  lemma {:induction false} DropIsShift(s: State, ids: seq<Id>)
    requires CanGive(s, multiset(ids))
    ensures RefAllLk(s, ids) == Shift(s, multiset(ids), -1)
    decreases |ids|
  {
    hide RefLk, Shift;
    if ids == [] {
      ShiftNone(s, -1);
    } else {
      var x := ids[0];
      assert ids == [x] + ids[1..] && x in multiset(ids);
      Small(s, x, -1);
      GiveOne(s, ids);
      DropIsShift(AddRefs(s, x, -1), ids[1..]);
      ShiftMore(s, x, multiset(ids[1..]), -1);
    }
  }

  lemma GiveOne(s: State, ids: seq<Id>)
    requires CanGive(s, multiset(ids)) && ids != []
    ensures ids[0] < |s.nodes| && CanGive(AddRefs(s, ids[0], -1), multiset(ids[1..]))
  {
    var x := ids[0];
    assert ids == [x] + ids[1..] && x in multiset(ids);
    var t := AddRefs(s, x, -1);
    forall y | y in multiset(ids[1..]) ensures y < |t.nodes| && !t.nodes[y].disposed && t.nodes[y].refs > multiset(ids[1..])[y] {
      assert y in multiset(ids);
    }
  }

  /** All the references in `m` given back at once. */
  function Given(s: State, m: multiset<Id>): State {
    Shift(s, m, -1).(borrows := s.borrows - m)
  }

  lemma ReleaseSmall(s: State, x: Id)
    requires x < |s.nodes| && !s.nodes[x].disposed && s.nodes[x].refs >= 2
    ensures Release(s, x) == AddRefs(s, x, -1).(borrows := s.borrows - multiset{x})
  {
  }

  lemma ShiftBorrows(s: State, m: multiset<Id>, k: int, b: multiset<Id>, d: multiset<Id>)
    ensures Shift(s.(borrows := b), m, k).(borrows := d) == Shift(s, m, k).(borrows := d)
  {
  }

  lemma GivenMore(s: State, x: Id, m: multiset<Id>)
    requires x < |s.nodes| && !s.nodes[x].disposed && s.nodes[x].refs >= 2
    ensures Given(Release(s, x), m) == Given(s, multiset{x} + m)
    ensures Release(s, x).nodes == AddRefs(s, x, -1).nodes
  {
    hide Release, AddRefs, Shift;
    ReleaseSmall(s, x);
    ShiftBorrows(AddRefs(s, x, -1), m, -1, s.borrows - multiset{x}, s.borrows - multiset{x} - m);
    ShiftMore(s, x, m, -1);
    assert s.borrows - multiset{x} - m == s.borrows - (multiset{x} + m);
  }

  lemma {:induction false} ReleaseAllIsGiven(s: State, ids: seq<Id>)
    requires CanGive(s, multiset(ids))
    ensures ReleaseAll(s, ids) == Given(s, multiset(ids))
    decreases |ids|
  {
    hide Release, Given, RefLk;
    if ids == [] {
      GivenNone(s);
    } else {
      var x := ids[0];
      assert ids == [x] + ids[1..] && x in multiset(ids);
      GivenMore(s, x, multiset(ids[1..]));
      GiveOne(s, ids);
      GiveLess(AddRefs(s, x, -1), Release(s, x), multiset(ids[1..]));
      ReleaseAllIsGiven(Release(s, x), ids[1..]);
    }
  }

  lemma GivenNone(s: State)
    ensures Given(s, multiset{}) == s
  {
    ShiftNone(s, -1);
    assert s.borrows - multiset{} == s.borrows;
  }

  lemma GiveLess(s: State, t: State, m: multiset<Id>)
    requires CanGive(s, m) && t.nodes == s.nodes
    ensures CanGive(t, m)
  {
  }

  /** The parents that a creator finds before the first one that is missing. */
  function FoundFirst(s: State, k: Kind, up: seq<Id>, n: nat): (r: nat)
    ensures r <= n && r <= |up| && r <= |ParentKinds(k)|
    ensures forall j :: 0 <= j < r ==> Found(s, up[j], ParentKinds(k)[j])
  {
    if n == 0 then 0
    else
      var r := FoundFirst(s, k, up, n - 1);
      if r == n - 1 && r < |up| && r < |ParentKinds(k)| && Found(s, up[r], ParentKinds(k)[r]) then n else r
  }

  /** A creator that gives up in its first section: because a parent is missing, or because a
      step fails between taking the references and linking the resource. */
  function FailEarly(s: State, k: Kind, up: seq<Id>, uuid: Uuid, own: Wid): State {
    if !ParentsFound(s, k, up) then
      var ids := up[..FoundFirst(s, k, up, |up|)];
      ReleaseAll(Hold(Grab(s, ids), ids), Reverse(ids))
    else
      var s2 := HeldTwice(s, up);
      ReleaseAll(FinishFail(Gap(s2, NewNode(s, k, up, uuid, own)), |s2.nodes|), Reverse(up))
  }

  lemma HoldThenGive(s: State, ids: seq<Id>)
    requires forall x :: x in ids ==> x < |s.nodes| && !s.nodes[x].disposed && s.nodes[x].refs >= 1
    ensures ReleaseAll(Hold(Grab(s, ids), ids), Reverse(ids)) == s
  {
    hide Reverse;
    hide Grab, Shift, Given, ReleaseAll;
    var m := multiset(ids);
    GrabIsShift(s, ids);
    HoldIsShift(s, ids);
    assert multiset(Reverse(ids)) == m;
    ReleaseAllIsGiven(Hold(Grab(s, ids), ids), Reverse(ids));
  }

  lemma HoldIsShift(s: State, ids: seq<Id>)
    requires forall x :: x in ids ==> x < |s.nodes| && !s.nodes[x].disposed && s.nodes[x].refs >= 1
    ensures var t := Hold(Shift(s, multiset(ids), 1), ids); CanGive(t, multiset(ids)) && Given(t, multiset(ids)) == s
  {
    var m := multiset(ids);
    var t := Hold(Shift(s, m, 1), ids);
    forall x | x in m ensures x < |s.nodes| && !s.nodes[x].disposed && t.nodes[x].refs > m[x] { assert x in ids; }
    assert Given(t, m).nodes == s.nodes;
    assert s.borrows + m - m == s.borrows;
  }

  /** Disposing a resource that was never linked nor registered only gives the parents back. */
  lemma DisposeUnseen(s: State, n: Node)
    requires Shape(s) && Links(s) && IdMap(s, {}) && n.owned == [] && n.phase == Building && n.refs == INIT_REFS && !n.disposed
    requires CanGive(s, multiset(n.up))
    ensures FinishFail(Gap(s, n), |s.nodes|) == Shift(Gap(s, Buried(n)), multiset(n.up), -1)
  {
    var c := |s.nodes|;
    var u := SetPhase(Gap(s, n), c, Failed);
    var x := Gap(s, Buried(n));
    RefLkUnfold(u, c, -INIT_REFS);
    DetachUnseen(s, n);
    assert CanGive(x, multiset(n.up));
    assert n.Releases() == n.up;
    DropIsShift(x, n.up);
    assert c in s.byId <==> Registered(s, {}, c);
  }

  lemma DetachUnseen(s: State, n: Node)
    requires Shape(s) && Links(s) && n.owned == [] && n.phase == Building && n.refs == INIT_REFS && !n.disposed
    ensures var c := |s.nodes|;
      Detach(AddRefs(SetPhase(Gap(s, n), c, Failed), c, -INIT_REFS), c) == Gap(s, Buried(n))
  {
    var c := |s.nodes|;
    var u := AddRefs(SetPhase(Gap(s, n), c, Failed), c, -INIT_REFS);
    var d := n.(refs := 0, phase := Failed);
    assert u == Gap(s, d) by { assert u.nodes == s.nodes + [d]; }
    var t := Detach(u, c);
    assert t.nodes == s.nodes + [Buried(n)];
    assert t.owner == s.owner;
    UnlinkUnseen(s, d);
  }

  lemma UnlinkUnseen(s: State, n: Node)
    requires |s.lists| == |s.nodes| && Links(s)
    ensures UnlinkedByDispose(n.kind) ==> Unlink(s.lists + [NO_LISTS], n.up, n.kind, |s.nodes|) == s.lists + [NO_LISTS]
  {
    if UnlinkedByDispose(n.kind) {
      var c := |s.nodes|;
      var l := s.lists + [NO_LISTS];
      forall p | 0 <= p < |l| ensures l[p].Put(n.kind, Remove(l[p].Get(n.kind), c)) == l[p] {
        if p < |s.lists| {
          assert ListAt(s, p, n.kind);
          assert c in s.lists[p].Get(n.kind) <==> Child(s.nodes, p, n.kind, c);
        }
      }
    }
  }

  lemma BackAgain(s: State, m: multiset<Id>, d: Node)
    requires forall x :: x in m ==> x < |s.nodes|
    ensures var t := Shift(Shift(s, m, 1).(borrows := s.borrows + m), m, 1);
      Given(Shift(Gap(t, d), m, -1), m) == Gap(s, d)
  {
    var t := Shift(Shift(s, m, 1).(borrows := s.borrows + m), m, 1);
    assert Given(Shift(Gap(t, d), m, -1), m).nodes == Gap(s, d).nodes;
    assert s.borrows + m - m == s.borrows;
  }

  lemma HeldTwiceIsShift(s: State, up: seq<Id>)
    requires forall x :: x in up ==> x < |s.nodes| && !s.nodes[x].disposed && s.nodes[x].refs >= 1
    ensures HeldTwice(s, up) == Shift(Shift(s, multiset(up), 1).(borrows := s.borrows + multiset(up)), multiset(up), 1)
  {
    hide Grab;
    GrabIsShift(s, up);
    GrabIsShift(Hold(Grab(s, up), up), up);
  }

  lemma CanGiveBack(s: State, up: seq<Id>, d: Node)
    requires forall x :: x in up ==> x < |s.nodes| && !s.nodes[x].disposed && s.nodes[x].refs >= 1
    ensures var m := multiset(up);
      var t := Shift(Shift(s, m, 1).(borrows := s.borrows + m), m, 1);
      CanGive(t, m) && CanGive(Shift(Gap(t, d), m, -1), m)
  {
    var m := multiset(up);
    forall x | x in m ensures x < |s.nodes| && !s.nodes[x].disposed && s.nodes[x].refs >= 1 { assert x in up; }
  }

  lemma GapBuilds(s: State, n: Node)
    requires n.phase == Building && !n.disposed
    ensures UnderConstruction(Gap(s, n), |s.nodes|)
  {
  }

  /** Giving up in the first section changes nothing but that an address was used up. */
  lemma FailEarlyIsNothing(s: State, k: Kind, up: seq<Id>, uuid: Uuid, own: Wid)
    requires Good(s) && k !in {Room, Member}
    ensures FailEarly(s, k, up, uuid, own) ==
      if ParentsFound(s, k, up) then Gap(s, Buried(NewNode(s, k, up, uuid, own))) else s
  {
    hide GoodBut, Shift, FinishFail, Gap, ReleaseAll, Given, Reverse, Grab, Hold;
    GoodParts(s, multiset{});
    if ParentsFound(s, k, up) {
      var m := multiset(up);
      var n := NewNode(s, k, up, uuid, own);
      var s2 := HeldTwice(s, up);
      FoundAlive(s, k, up);
      HeldTwiceIsShift(s, up);
      HeldTwiceGood(s, k, up);
      GoodParts(s2, m);
      CanGiveBack(s, up, Buried(n));
      DisposeUnseen(s2, n);
      GapBuilds(s2, n);
      var t := FinishFail(Gap(s2, n), |s2.nodes|);
      ReleaseAllIsGiven(t, Reverse(up));
      BackAgain(s, m, Buried(n));
    } else {
      var ids := up[..FoundFirst(s, k, up, |up|)];
      forall x | x in ids ensures x < |s.nodes| && !s.nodes[x].disposed && s.nodes[x].refs >= 1 {
        var j :| 0 <= j < |ids| && ids[j] == x;
        assert Registered(s, {}, x);
      }
      HoldThenGive(s, ids);
    }
  }

  // ---------------------------------------------------------------- gaps keep the invariant

  ghost predicate Grave(s: State, n: Node) {
    && n.disposed && n.phase == Failed && n.owned == [] && n.kind !in {Room, Member}
    && |n.up| == |ParentKinds(n.kind)|
    && forall j :: 0 <= j < |n.up| ==> n.up[j] < |s.nodes| && s.nodes[n.up[j]].kind == ParentKinds(n.kind)[j]
  }

  lemma GapBalanced(s: State, n: Node)
    requires Shape(s) && Balanced(s, multiset{}) && Grave(s, n)
    ensures Balanced(Gap(s, n), multiset{}) && Shape(Gap(s, n))
  {
    var t := Gap(s, n);
    var c := |s.nodes|;
    assert t.nodes[..c] == s.nodes;
    forall i | 0 <= i < |t.nodes| ensures ShapeAt(t.nodes, i) {
      if i < c { assert ShapeAt(s.nodes, i); }
    }
    forall i | 0 <= i < |t.nodes| ensures BalancedAt(t, multiset{}, i) {
      assert n.Holds(i) == 0;
      if i < c {
        assert BalancedAt(s, multiset{}, i);
      } else {
        forall h | 0 <= h < c ensures s.nodes[h].Holds(c) == 0 {
          assert ShapeAt(s.nodes, h);
          assert c !in s.nodes[h].up && c !in s.nodes[h].owned;
        }
        InNone(s.nodes, c);
      }
    }
  }

  lemma GapLinks(s: State, n: Node)
    requires Shape(s) && Links(s) && Grave(s, n)
    ensures Links(Gap(s, n))
  {
    var t := Gap(s, n);
    var c := |s.nodes|;
    forall p, k | 0 <= p < |t.lists| && IsListKind(k) ensures ListAt(t, p, k) {
      if p < c {
        assert ListAt(s, p, k);
        assert forall x :: Child(s.nodes, p, k, x) <==> Child(t.nodes, p, k, x);
      } else {
        forall x: Id ensures !Child(t.nodes, p, k, x) {
          if x < c { assert ShapeAt(s.nodes, x); }
        }
      }
    }
    forall r | 0 <= r < |t.lists| ensures RoomAt(t, r) {
      if r < c { assert RoomAt(s, r); }
    }
    forall x | 0 <= x < |t.nodes| ensures OpenRoomAt(t, x) {
      if x < c { assert OpenRoomAt(s, x); }
    }
  }

  lemma GapRegistry(s: State, n: Node)
    requires Registry(s, {}) && n.disposed
    ensures Registry(Gap(s, n), {})
  {
    var t := Gap(s, n);
    forall i: Id ensures i in t.byId <==> Registered(t, {}, i) { assert i in s.byId <==> Registered(s, {}, i); }
    forall i | i in s.byId ensures i < |s.nodes| { assert Registered(s, {}, i); }
    forall w | w != 0 ensures LoadOf(t.load, w) == |CarriedBy(t.nodes, t.byId, w)| {
      assert CarriedBy(t.nodes, t.byId, w) == CarriedBy(s.nodes, s.byId, w);
    }
    forall g ensures g in t.gauges && t.gauges[g] == |CountedBy(t.nodes, t.byId, g)| {
      assert CountedBy(t.nodes, t.byId, g) == CountedBy(s.nodes, s.byId, g);
    }
  }

  lemma GapRest(s: State, n: Node)
    requires Shape(s) && Owners(s) && PositiveBut(s, {}) && NoHazard(s) && Settled(s, multiset{}) && Slots(s) && Grave(s, n)
    ensures var t := Gap(s, n);
      Owners(t) && PositiveBut(t, {}) && NoHazard(t) && Settled(t, multiset{}) && Slots(t)
  {
    hide SlotAt;
    var t := Gap(s, n);
    GapSlots(s, n);
    forall x, p | 0 <= x < |t.nodes| && !t.nodes[x].disposed && p in t.nodes[x].up && p < |t.nodes| && t.nodes[p].closed
      ensures t.nodes[x].closed
    {
      assert ShapeAt(s.nodes, x);
    }
  }

  lemma GapSlots(s: State, n: Node)
    requires Slots(s) && |s.lists| == |s.nodes|
    ensures Slots(Gap(s, n))
  {
    var t := Gap(s, n);
    forall r | 0 <= r < |t.lists| ensures SlotAt(t, r) {
      if r < |s.lists| { assert SlotAt(s, r); }
    }
  }

  lemma GapInv(s: State, n: Node)
    requires Inv(s) && Grave(s, n)
    ensures Inv(Gap(s, n))
  {
    hide Balanced, Links, IdMap, UuidMap, LoadMap, GaugeMap, Owners, PositiveBut, NoHazard, Settled, Slots, Shape, Grave;
    GapBalanced(s, n);
    GapLinks(s, n);
    GapKeepsOrder(s, n);
    GapRegistry(s, n);
    GapRest(s, n);
  }

  lemma GapKeepsOrder(s: State, n: Node)
    requires Grave(s, n)
    ensures n.disposed && Gap(s, n).fault == s.fault
  {
  }

  lemma BuriedIsGrave(s: State, k: Kind, up: seq<Id>, uuid: Uuid, own: Wid)
    requires ParentsFound(s, k, up) && k !in {Room, Member}
    ensures Grave(s, Buried(NewNode(s, k, up, uuid, own)))
  {
    forall j | 0 <= j < |up| ensures up[j] < |s.nodes| && s.nodes[up[j]].kind == ParentKinds(k)[j] {
      assert Found(s, up[j], ParentKinds(k)[j]);
    }
  }

  lemma FailEarlyInv(s: State, k: Kind, up: seq<Id>, uuid: Uuid, own: Wid)
    requires Inv(s) && k !in {Room, Member}
    ensures Inv(FailEarly(s, k, up, uuid, own))
  {
    hide GoodBut, Settled, Slots, Gap, FailEarly;
    FailEarlyIsNothing(s, k, up, uuid, own);
    if ParentsFound(s, k, up) {
      BuriedIsGrave(s, k, up, uuid, own);
      GapInv(s, Buried(NewNode(s, k, up, uuid, own)));
    }
  }

  lemma BeginInv(s: State, k: Kind, up: seq<Id>, uuid: Uuid, own: Wid)
    requires Inv(s) && uuid !in s.byUuid && k !in {Room, Member} && ParentsFound(s, k, up)
    requires forall p :: p in up ==> p < |s.nodes| && !s.nodes[p].closed
    ensures Inv(Begin(s, k, up, uuid, own))
  {
    hide GoodBut, Begin, Settled, Slots;
    BeginExact(s, k, up, uuid, own);
  }

  /** What beginning does to the resources. */
  lemma BeginFrame(s: State, k: Kind, up: seq<Id>, uuid: Uuid, own: Wid)
    requires Good(s) && ParentsFound(s, k, up)
    ensures var t := Begin(s, k, up, uuid, own);
      && |t.nodes| == |s.nodes| + 1 && t.nodes[|s.nodes|] == NewNode(s, k, up, uuid, own)
      && t.borrows == s.borrows + multiset(up)
      && forall i :: 0 <= i < |s.nodes| ==> t.nodes[i] == s.nodes[i].(refs := t.nodes[i].refs)
  {
    hide GoodBut, Register, Grab, Hold, Good;
    var s2 := HeldTwice(s, up);
    HeldTwiceGood(s, k, up);
    RegisterRest(Append(s2, NewNode(s, k, up, uuid, own)), |s2.nodes|);
  }

  /** In particular a creation that the worker refuses before anybody else took a step leaves
      the state in which it began. */
  lemma BeginThenFail(s: State, k: Kind, up: seq<Id>, uuid: Uuid, own: Wid, ids: seq<Id>)
    requires Inv(s) && uuid !in s.byUuid && k !in {Room, Member} && ParentsFound(s, k, up)
    requires forall p :: p in up ==> p < |s.nodes| && !s.nodes[p].closed
    requires multiset(ids) == multiset(up)
    ensures var t := Begin(s, k, up, uuid, own);
      && UnderConstruction(t, |s.nodes|)
      && Indistinguishable(ReleaseAll(FinishFail(t, |s.nodes|), ids), Gap(s, Buried(NewNode(s, k, up, uuid, own))))
  {
    hide GoodBut, Settled, Slots, Begin, Indistinguishable, FinishFail, ReleaseAll, NewNode, DeadInBoth;
    var n := NewNode(s, k, up, uuid, own);
    var t := Begin(s, k, up, uuid, own);
    var w := Gap(s, Buried(n));
    BeginInv(s, k, up, uuid, own);
    BeginFrame(s, k, up, uuid, own);
    BegunAlone(s, k, up, uuid, own);
    BuriedIsGrave(s, k, up, uuid, own);
    GapInv(s, Buried(n));
    assert s.borrows + multiset(up) - multiset(ids) == s.borrows;
    BegunBeside(s, k, up, uuid, own);
    FailedCreationLeavesNoTrace(t, |s.nodes|, ids, w);
  }

  lemma BegunAlone(s: State, k: Kind, up: seq<Id>, uuid: Uuid, own: Wid)
    requires Good(s) && ParentsFound(s, k, up) && Good(Begin(s, k, up, uuid, own))
    ensures CreatorAlone(Begin(s, k, up, uuid, own), |s.nodes|) && NewNode(s, k, up, uuid, own).up == up
  {
    hide GoodBut, Begin;
    BeginFrame(s, k, up, uuid, own);
    AliveIffHeld(Begin(s, k, up, uuid, own), |s.nodes|);
  }

  lemma BegunBeside(s: State, k: Kind, up: seq<Id>, uuid: Uuid, own: Wid)
    requires Good(s) && ParentsFound(s, k, up)
    ensures var t := Begin(s, k, up, uuid, own); var w := Gap(s, Buried(NewNode(s, k, up, uuid, own)));
      |t.nodes| == |w.nodes| == |s.nodes| + 1 && w.nodes[|s.nodes|].disposed &&
      forall i :: 0 <= i < |t.nodes| && i !in DeadInBoth(t, w, |s.nodes|) ==>
        w.nodes[i] == t.nodes[i].(refs := w.nodes[i].refs, disposed := w.nodes[i].disposed)
  {
    hide GoodBut, Begin;
    BeginFrame(s, k, up, uuid, own);
  }
}
