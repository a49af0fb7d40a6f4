/**
 What the lock-held sections do, told by the fields of the resources: what they close, what they
 add, whose progress, owner entries or borrowed references they change, and that they leave all the
 rest. What is derived then follows, for the state in which a section ends keeps the invariant
 and `Canonical` leaves only one such state.
 */
module RctEffects {
  import opened RctState
  import opened RctRefs
  import opened RctInvariant
  import opened RctRelease
  import opened RctClose
  import opened RctCascade
  import opened RctSteps
  import opened RctCreation
  import opened RctProtocol
  import opened RctOwners
  import opened RctRollback
  import opened RctSurvival
  import opened RctCloseById
  import opened RctRuns
  import opened RctEvents

  // ---------------------------------------------------------------- from one state to the next

  /** Only the counter and the disposal of a resource may differ, and it is not revived. */
  predicate Same(m: Node, n: Node) {
    n == m.(refs := n.refs, disposed := n.disposed) && (m.disposed ==> n.disposed)
  }

  /** Exactly the resources in `C` are closed, apart from those that were. */
  ghost predicate Shut(s: State, t: State, C: set<Id>) {
    && |s.nodes| <= |t.nodes|
    && forall i :: 0 <= i < |s.nodes| ==> Same(s.nodes[i].(closed := s.nodes[i].closed || i in C), t.nodes[i])
  }

  /** Only the resource `c` changes, into `n`. */
  ghost predicate Only(s: State, t: State, c: Id, n: Node) {
    && |t.nodes| == |s.nodes| && c < |s.nodes| && Same(n, t.nodes[c])
    && forall i :: 0 <= i < |s.nodes| && i != c ==> Same(s.nodes[i], t.nodes[i])
  }

  lemma ShutTwice(s: State, t: State, u: State, C: set<Id>, D: set<Id>)
    requires Shut(s, t, C) && Shut(t, u, D)
    ensures Shut(s, u, C + D)
  {
    forall i | 0 <= i < |s.nodes| ensures Same(s.nodes[i].(closed := s.nodes[i].closed || i in C + D), u.nodes[i]) {
      assert Same(s.nodes[i].(closed := s.nodes[i].closed || i in C), t.nodes[i]);
      assert Same(t.nodes[i].(closed := t.nodes[i].closed || i in D), u.nodes[i]);
    }
  }

  lemma ShutSelf(s: State)
    ensures Shut(s, s, {})
  {
  }

  lemma RefsShut(s: State, t: State)
    requires OnlyRefs(s, t)
    ensures Shut(s, t, {}) && |t.nodes| == |s.nodes|
  {
  }

  lemma ReleaseShut(s: State, i: Id)
    requires Inv(s) && i in s.borrows
    ensures Shut(s, Release(s, i), {}) && |Release(s, i).nodes| == |s.nodes|
  {
    hide Inv, Release;
    ReleaseIntent(s, i);
  }

  lemma AddedShut(s: State, n: Node)
    ensures var t := Register(Append(s, n), |s.nodes|); Shut(s, t, {}) && t.nodes == s.nodes + [n]
  {
    hide Register;
    RegisterRest(Append(s, n), |s.nodes|);
  }

  // ---------------------------------------------------------------- creating

  predicate There(s: State, i: Id, k: Kind) {
    Alive(s, i) && s.nodes[i].kind == k
  }

  /** What a resource of kind `k` is created on. */
  predicate Parents(s: State, k: Kind, up: seq<Id>) {
    match k
    case Router => up == []
    case Producer => |up| == 1 && There(s, up[0], Transport)
    case Consumer => |up| == 2 && There(s, up[0], Producer) && There(s, up[1], Transport)
    case Member => |up| == 1 && There(s, up[0], Room)
    case _ => |up| == 1 && There(s, up[0], Router)
  }

  lemma ParentsAre(s: State, k: Kind, up: seq<Id>)
    requires Inv(s)
    ensures ParentsFound(s, k, up) <==> Parents(s, k, up)
  {
    hide Inv;
    ById(s);
  }

  /** A new resource is open and under construction; it counts for the worker of its router if it uses
      one. */
  predicate Made(s: State, k: Kind, up: seq<Id>, uuid: Uuid, own: Wid, n: Node) {
    && n.kind == k && n.uuid == uuid && n.user == 0 && n.refs == 0xffffff && !n.closed && !n.disposed
    && n.phase == Building && n.up == up && n.owned == []
    && match k
       case Router => n.wid == own
       case Observer => n.wid == 0
       case _ => up != [] && up[0] < |s.nodes| && n.wid == s.nodes[up[0]].wid
  }

  ghost predicate Begun(s: State, t: State, k: Kind, up: seq<Id>, uuid: Uuid, own: Wid) {
    if Parents(s, k, up) then
      && |t.nodes| == |s.nodes| + 1 && Made(s, k, up, uuid, own, t.nodes[|s.nodes|]) && t.borrows == s.borrows + multiset(up)
      && (forall i :: 0 <= i < |s.nodes| ==> t.nodes[i] == s.nodes[i].(refs := t.nodes[i].refs))
    else t == s
  }

  lemma BeginMeans(s: State, k: Kind, up: seq<Id>, uuid: Uuid, own: Wid)
    requires Inv(s) && k !in {Room, Member}
    ensures Begun(s, Begin(s, k, up, uuid, own), k, up, uuid, own)
  {
    hide Inv, Begin;
    ParentsAre(s, k, up);
    if ParentsFound(s, k, up) {
      InvIsGood(s);
      BeginFrame(s, k, up, uuid, own);
    } else {
      NotBegun(s, k, up, uuid, own);
    }
  }

  lemma NotBegun(s: State, k: Kind, up: seq<Id>, uuid: Uuid, own: Wid)
    requires !ParentsFound(s, k, up)
    ensures Begin(s, k, up, uuid, own) == s
  {
  }

  /** Nothing but that a place may have been used up. */
  ghost predicate Refused(s: State, t: State) {
    && |s.nodes| <= |t.nodes| <= |s.nodes| + 1 && t.nodes[..|s.nodes|] == s.nodes
    && (forall i :: |s.nodes| <= i < |t.nodes| ==> t.nodes[i].disposed)
    && t.byId == s.byId && t.byUuid == s.byUuid && t.load == s.load && t.gauges == s.gauges
    && t.owner == s.owner && t.borrows == s.borrows && t.fault == s.fault
    && |s.lists| <= |t.lists| && t.lists[..|s.lists|] == s.lists
  }

  lemma RefusedMeans(s: State, k: Kind, up: seq<Id>, uuid: Uuid, own: Wid)
    requires Inv(s) && k !in {Room, Member}
    ensures Refused(s, FailEarly(s, k, up, uuid, own))
  {
    hide Inv, FailEarly, ParentsFound;
    InvIsGood(s);
    FailEarlyIsNothing(s, k, up, uuid, own);
  }

  predicate Waiting(s: State, c: Id) {
    Alive(s, c) && s.nodes[c].phase == Building
  }

  lemma FinishMeans(s: State, c: Id, p: Phase, n: int)
    requires Inv(s) && UnderConstruction(s, c) && p != Building
    ensures var t := RefLk(SetPhase(s, c, p), c, n); Only(s, t, c, s.nodes[c].(phase := p)) && t.borrows == s.borrows
  {
    hide RefLk, Balanced, Links, Registry, Owners, Settled, Slots;
    var u := SetPhase(s, c, p);
    SetPhaseFrame(s, c, p);
    RefLkFrame(u, c, n);
    var t := RefLk(u, c, n);
    assert FrameAt(u, t, c);
    forall i | 0 <= i < |s.nodes| ensures Same(if i == c then s.nodes[c].(phase := p) else s.nodes[i], t.nodes[i]) {
      assert EvolvesTo(u.nodes[i], t.nodes[i]);
    }
  }

  // ---------------------------------------------------------------- holding and closing

  lemma BorrowMeans(s: State, i: Id)
    requires Inv(s)
    ensures var t := Borrow(s, i);
      if Alive(s, i) then Shut(s, t, {}) && |t.nodes| == |s.nodes| && t.borrows == s.borrows + multiset{i} else t == s
  {
    hide Inv, Borrow, GoodBut;
    ById(s);
    InvIsGood(s);
    if Alive(s, i) {
      BorrowGood(s, multiset{}, i);
      RefsShut(s, Borrow(s, i));
    } else {
      NotBorrowed(s, i);
    }
  }

  lemma NotBorrowed(s: State, i: Id)
    requires i !in s.byId
    ensures Borrow(s, i) == s
  {
  }

  /** Whatever lies below `i` and is still there is closed, and nothing else. */
  ghost predicate ClosedFrom(s: State, t: State, i: Id) {
    && |t.nodes| == |s.nodes| && t.borrows == s.borrows
    && forall x :: 0 <= x < |s.nodes| ==> ClosedIf(s.nodes[x], t.nodes[x], Below(s.nodes, i, x))
  }

  lemma CloseMeans(s: State, i: Id)
    requires Inv(s) && MayClose(s, i) && (i < |s.nodes| ==> s.nodes[i].kind != Room)
    ensures if Alive(s, i) then ClosedFrom(s, Close(s, i), i) else Close(s, i) == s
  {
    hide Inv, Close, MayClose, Remains, Paid, Plain;
    ById(s);
    if Alive(s, i) {
      if GivenUp(s, i) {
        PaidAny(s, i);
        PaidMeans(s, i);
      } else {
        PlainAny(s, i);
        PlainMeans(s, i);
      }
    } else {
      NotClosed(s, i);
    }
  }

  lemma PlainMeans(s: State, i: Id)
    requires Inv(s) && Alive(s, i) && Plain(s, i)
    ensures ClosedFrom(s, Close(s, i), i)
  {
    hide Inv, Close, Borrow, CloseLk, Release, ClosesDown, Below, GoodBut;
    var u, t := Borrow(s, i), CloseLk(Borrow(s, i), i);
    BorrowMeans(s, i);
    ReleaseShut(t, i);
    ReleaseIntent(t, i);
    forall x | 0 <= x < |s.nodes| ensures ClosedIf(s.nodes[x], Close(s, i).nodes[x], Below(s.nodes, i, x)) {
      DownAt(u, t, i, x);
      assert Same(s.nodes[x], u.nodes[x]);
      BelowSame(s.nodes, u.nodes, i, x);
    }
  }

  lemma PaidMeans(s: State, i: Id)
    requires Inv(s) && Paid(s, i) && !Remains(s, i, i)
    ensures ClosedFrom(s, Close(s, i), i)
  {
    hide Inv, Close, Borrow, CloseLk, Release, ClosesDown, Below, Remains, Lent;
    var v := Lent(s, i);
    var t := CloseLk(v, i);
    PaidClose(s, i);
    GivenUpKind(s, i);
    LentAt(s, i);
    forall x | 0 <= x < |s.nodes| ensures ClosedIf(s.nodes[x], Close(s, i).nodes[x], Below(s.nodes, i, x)) {
      DownAt(v, t, i, x);
      BelowSame(s.nodes, v.nodes, i, x);
    }
  }

  lemma LentAt(s: State, i: Id)
    requires Inv(s) && GivenUp(s, i)
    ensures |Borrow(s, i).nodes| == |s.nodes|
    ensures var v := Lent(s, i);
      && |v.nodes| == |s.nodes|
      && (forall x :: 0 <= x < |s.nodes| ==> v.nodes[x] == s.nodes[x].(refs := v.nodes[x].refs, phase := v.nodes[x].phase))
      && forall x :: 0 <= x < |s.nodes| && x != i ==> v.nodes[x].phase == s.nodes[x].phase
  {
    hide Inv, Borrow, GoodBut;
    ById(s);
    InvIsGood(s);
    BorrowGood(s, multiset{}, i);
  }

  // ---------------------------------------------------------------- owners

  ghost predicate Owned(s: State, t: State, m: Id, r: Id, front: bool) {
    if Alive(s, r) then
      && m < |s.nodes| && t.borrows == s.borrows
      && Only(s, t, m, s.nodes[m].(owned := if front then [r] + s.nodes[m].owned else s.nodes[m].owned + [r]))
    else t == s
  }

  lemma AddOwnerMeans(s: State, m: Id, r: Id, front: bool)
    requires Inv(s) && (r in s.byId ==> CanAddOwner(s, m, r))
    ensures Owned(s, AddOwner(s, m, r, front), m, r, front)
  {
    hide Inv, RefLk, GoodBut, Settled, Slots;
    ById(s);
    if r in s.byId {
      AddOwnerUnfold(s, m, r, front);
      InvIsGood(s);
      GrabOne(s, multiset{}, r);
    }
  }

  /** `l` without `r`, otherwise in its order. */
  ghost predicate Sifted(l: seq<Id>, m: seq<Id>, r: Id, at: seq<nat>) {
    && |at| == |m| && (forall j :: 0 <= j < |m| ==> at[j] < |l| && m[j] == l[at[j]] && m[j] != r)
    && (forall i, j :: 0 <= i < j < |m| ==> at[i] < at[j])
    && (forall i :: 0 <= i < |l| && l[i] != r ==> i in at)
  }

  lemma {:induction false} WithoutSifts(l: seq<Id>, r: Id) returns (at: seq<nat>)
    ensures Sifted(l, Without(l, r), r, at)
  {
    hide Sifted;
    if l == [] {
      at := [];
      NothingSifted(r);
    } else {
      var bt := WithoutSifts(l[1..], r);
      at := if l[0] == r then Moved(bt) else [0] + Moved(bt);
      SiftedMore(l, Without(l[1..], r), r, bt);
    }
  }

  function Moved(at: seq<nat>): (r: seq<nat>)
    ensures |r| == |at| && forall j :: 0 <= j < |at| ==> r[j] == at[j] + 1
  {
    seq(|at|, j requires 0 <= j < |at| => at[j] + 1)
  }

  lemma NothingSifted(r: Id)
    ensures Sifted([], [], r, [])
  {
  }

  lemma SiftedMore(l: seq<Id>, m: seq<Id>, r: Id, at: seq<nat>)
    requires l != [] && Sifted(l[1..], m, r, at)
    ensures if l[0] == r then Sifted(l, m, r, Moved(at)) else Sifted(l, [l[0]] + m, r, [0] + Moved(at))
  {
    hide Moved;
    var bt := Moved(at);
    assert forall j :: 0 <= j < |at| ==> bt[j] == at[j] + 1 && l[bt[j]] == l[1..][at[j]];
    forall i: nat | 0 < i < |l| && l[i] != r ensures i in bt { MovedHas(l, r, at, i); }
    if l[0] != r { SiftedFirst(l, m, r, bt); }
  }

  lemma MovedHas(l: seq<Id>, r: Id, at: seq<nat>, i: nat)
    requires 0 < i < |l| && l[i] != r && forall k :: 0 <= k < |l[1..]| && l[1..][k] != r ==> k in at
    ensures i in Moved(at)
  {
    assert l[1..][i - 1] == l[i];
    var j :| 0 <= j < |at| && at[j] == i - 1;
    assert Moved(at)[j] == i;
  }

  lemma SiftedFirst(l: seq<Id>, m: seq<Id>, r: Id, bt: seq<nat>)
    requires l != [] && l[0] != r && |bt| == |m|
    requires forall j :: 0 <= j < |m| ==> 0 < bt[j] < |l| && m[j] == l[bt[j]] && m[j] != r
    requires forall i, j :: 0 <= i < j < |m| ==> bt[i] < bt[j]
    requires forall i: nat :: 0 < i < |l| && l[i] != r ==> i in bt
    ensures Sifted(l, [l[0]] + m, r, [0] + bt)
  {
    var n, ct := [l[0]] + m, [0] + bt;
    assert ct[0] == 0;
    forall j | 0 <= j < |n| ensures ct[j] < |l| && n[j] == l[ct[j]] && n[j] != r {
      if j > 0 { assert ct[j] == bt[j - 1]; }
    }
    forall i, j | 0 <= i < j < |n| ensures ct[i] < ct[j] {
      assert ct[j] == bt[j - 1];
    }
  }

  /** The owner of `r` forgets it, and nobody else forgets anything. */
  ghost predicate Forgotten(s: State, t: State, r: Id) {
    && OnlyOwned(s, t) && t.owner == s.owner - {r}
    && forall m :: 0 <= m < |s.nodes| ==>
         if r in s.owner && s.owner[r] == m then exists at :: Sifted(s.nodes[m].owned, t.nodes[m].owned, r, at)
         else t.nodes[m].owned == s.nodes[m].owned
  }

  /** What happens to the lists of owned resources. */
  lemma DropOwned(s: State, r: Id)
    requires Inv(s) && r in s.owner
    ensures s.owner[r] < |s.nodes| && |DropOwner(s, r).nodes| == |s.nodes|
    ensures var m := s.owner[r]; forall i :: 0 <= i < |s.nodes| ==>
      DropOwner(s, r).nodes[i].owned == if i == m then Without(s.nodes[m].owned, r) else s.nodes[i].owned
  {
    hide GoodBut, Settled, Slots, RefAllLk, DropOwner, Without, Copies, Evolves, SetOwned;
    DropPrepare(s, r);
    var m := s.owner[r];
    var l := Without(s.nodes[m].owned, r);
    var u := SetOwned(s, m, l, s.owner - {r});
    var ids := Copies(r, multiset(s.nodes[m].owned)[r]);
    SetOwnedSize(s, m, l, s.owner - {r});
    GoodParts(u, multiset(ids));
    assert forall x :: x in ids ==> x == r;
    RankBelow(u, r);
    RefAllLkFrame(u, ids, Rank(Member));
    EvolvesOwned(u, RefAllLk(u, ids));
  }

  lemma DropOwnerMeans(s: State, r: Id)
    requires Inv(s)
    ensures Forgotten(s, DropOwner(s, r), r)
  {
    hide Inv, DropOwner, Without, Sifted, OnlyOwned;
    DropOnlyOwned(s, r);
    DropOwnerInv(s, r);
    if r in s.owner {
      DropOwned(s, r);
      var m := s.owner[r];
      var at := WithoutSifts(s.nodes[m].owned, r);
      assert Sifted(s.nodes[m].owned, Without(s.nodes[m].owned, r), r, at);
    } else {
      DropNothing(s, r);
      assert s.owner - {r} == s.owner;
    }
  }

  lemma RankBelow(u: State, r: Id)
    requires r < |u.nodes| && Ownable(u.nodes[r].kind)
    ensures Rank(u.nodes[r].kind) < Rank(Member)
  {
  }

  lemma EvolvesOwned(s: State, t: State)
    requires Evolves(s, t)
    ensures |t.nodes| == |s.nodes| && forall i :: 0 <= i < |s.nodes| ==> t.nodes[i].owned == s.nodes[i].owned
  {
    forall i | 0 <= i < |s.nodes| ensures t.nodes[i].owned == s.nodes[i].owned { assert EvolvesTo(s.nodes[i], t.nodes[i]); }
  }

  // ---------------------------------------------------------------- the rounds of a close event

  /** What is left of `l` without those in `gone`. */
  function Sift(l: seq<Id>, gone: set<Id>): seq<Id> {
    if l == [] then [] else (if l[0] in gone then [] else [l[0]]) + Sift(l[1..], gone)
  }

  lemma {:induction false} SiftOne(l: seq<Id>, r: Id)
    ensures Without(l, r) == Sift(l, {r})
  {
    if l != [] { SiftOne(l[1..], r); }
  }

  lemma {:induction false} SiftNone(l: seq<Id>, gone: set<Id>)
    requires forall x :: x in l ==> x !in gone
    ensures Sift(l, gone) == l
  {
    if l != [] { SiftNone(l[1..], gone); }
  }

  lemma {:induction false} SiftTwice(l: seq<Id>, g: set<Id>, h: set<Id>)
    ensures Sift(Sift(l, g), h) == Sift(l, g + h)
  {
    if l != [] {
      SiftTwice(l[1..], g, h);
      var rest := Sift(l[1..], g);
      if l[0] in g {
        assert Sift(l, g) == rest && Sift(l, g + h) == Sift(l[1..], g + h);
      } else {
        assert Sift(l, g) == [l[0]] + rest && ([l[0]] + rest)[1..] == rest;
      }
    }
  }

  /** Every undisposed resource has lost what is in `gone` from its list, and nothing else. */
  ghost predicate Lost(s: State, t: State, gone: set<Id>) {
    |t.nodes| == |s.nodes|
    && forall m: Id :: Alive(s, m) && s.nodes[m].kind == Member ==> t.nodes[m].owned == Sift(s.nodes[m].owned, gone)
  }

  lemma DropLost(s: State, r: Id)
    requires Inv(s)
    ensures Lost(s, DropOwner(s, r), {r})
  {
    hide Settled, Slots, Shape, Balanced, PositiveBut, NoHazard, Links, Registry, DropOwner, Without, Sift;
    if r in s.owner { DropOwned(s, r); } else { DropNothing(s, r); }
    forall m: Id | Alive(s, m) && s.nodes[m].kind == Member ensures DropOwner(s, r).nodes[m].owned == Sift(s.nodes[m].owned, {r}) {
      if r in s.nodes[m].owned { SiftOne(s.nodes[m].owned, r); } else { SiftNone(s.nodes[m].owned, {r}); }
      if r in s.owner && s.owner[r] == m { SiftOne(s.nodes[m].owned, r); }
    }
  }

  lemma LostTwice(s: State, t: State, u: State, g: set<Id>, h: set<Id>, gh: set<Id>)
    requires Lost(s, t, g) && Lost(t, u, h) && OthersKept(s, t, g) && SameKinds(s, t) && gh == g + h
    ensures Lost(s, u, gh)
  {
    hide Sift;
    forall m: Id | Alive(s, m) && s.nodes[m].kind == Member ensures u.nodes[m].owned == Sift(s.nodes[m].owned, gh) {
      SiftTwice(s.nodes[m].owned, g, h);
    }
  }

  lemma {:induction false} DropAllLost(s: State, ids: seq<Id>)
    requires Inv(s)
    ensures Lost(s, DropAll(s, ids), Elements(ids))
    decreases |ids|
  {
    hide Inv, Lost, DropOwner, OthersKept, SameKinds;
    if ids == [] {
      LostNothing(s, Elements(ids));
    } else {
      var t := DropOwner(s, ids[0]);
      DropOwnerInv(s, ids[0]);
      DropLost(s, ids[0]);
      DropAllLost(t, ids[1..]);
      assert ids == [ids[0]] + ids[1..];
      LostTwice(s, t, DropAll(s, ids), {ids[0]}, Elements(ids[1..]), Elements(ids));
    }
  }

  lemma LostNothing(s: State, none: set<Id>)
    requires none == {}
    ensures Lost(s, s, none)
  {
    forall m: Id | Alive(s, m) && s.nodes[m].kind == Member ensures s.nodes[m].owned == Sift(s.nodes[m].owned, none) {
      SiftNone(s.nodes[m].owned, none);
    }
  }

  /** The order of the rounds does not matter, nor does repetition: in whatever order the dependents of the
      closed resource are gone through, the states cannot be told apart. */
  lemma CloseEventInAnyOrder(s: State, r: Id, ids: seq<Id>)
    requires Inv(s) && forall x: Id :: x in ids <==> Dependent(s, r, x)
    ensures Inv(DropAll(s, ids)) && Indistinguishable(DropAll(s, ids), OnResourceClosed(s, r))
  {
    hide Inv, Dependent, Collect, DropAll, OnlyOwned, NotMentioned, OthersKept, Lost, Indistinguishable;
    var a, b := DropAll(s, ids), OnResourceClosed(s, r);
    var own := Collect(s, r);
    forall x: Id ensures x in own <==> Dependent(s, r, x) { CollectIs(s, r, x); }
    assert Elements(ids) == Elements(own);
    DropAllInv(s, ids);
    DropAllInv(s, own);
    DropAllOnlyOwned(s, ids);
    DropAllOnlyOwned(s, own);
    DropAllLost(s, ids);
    DropAllLost(s, own);
    SameRounds(s, a, b, Elements(own));
    Canonical(a, b, set i | 0 <= i < |s.nodes| && s.nodes[i].disposed);
  }

  lemma SameRounds(s: State, a: State, b: State, gone: set<Id>)
    requires Inv(a) && Inv(b) && OnlyOwned(s, a) && OnlyOwned(s, b) && Lost(s, a, gone) && Lost(s, b, gone)
    ensures SameIntentBut(a, b, set i | 0 <= i < |s.nodes| && s.nodes[i].disposed)
  {
    hide Settled, Slots, Balanced, PositiveBut, NoHazard, Links, Registry, Owners, Sift;
    forall i | 0 <= i < |s.nodes| && !s.nodes[i].disposed
      ensures a.nodes[i] == b.nodes[i].(refs := a.nodes[i].refs, disposed := a.nodes[i].disposed)
    {
      assert ShapeAt(a.nodes, i) && ShapeAt(b.nodes, i);
    }
  }
}
