/**
 Two worlds side by side. In one a creator has begun a resource and waits for the worker, in the
 other it was refused at once; apart from that everybody does the same. As long as nobody looks
 up what only one of the worlds has, they stay twins, and when the creator fails they can no
 longer be told apart.
 */
module RctParallel {
  import opened RctState
  import opened RctRefs
  import opened RctInvariant
  import opened RctRelease
  import opened RctCascade
  import opened RctSteps
  import opened RctCreation
  import opened RctProtocol
  import opened RctOwners
  import opened RctRollback
  import opened RctSurvival

  // ---------------------------------------------------------------- twins

  predicate SameIdentity(a: Node, b: Node) {
    a.kind == b.kind && a.uuid == b.uuid && a.wid == b.wid && a.user == b.user && a.up == b.up
  }

  predicate Alike(a: Node, b: Node) {
    a.closed == b.closed && a.phase == b.phase && a.owned == b.owned
  }

  predicate Apart(a: Node, c: Id) {
    c !in a.up && c !in a.owned
  }

  /** Nothing is asked of what is disposed in both worlds. */
  predicate TwinNodes(a: Node, b: Node) {
    (a.disposed && b.disposed) || Alike(a, b)
  }

  /** `c` is half made in `u` and was never there in `w`. */
  ghost predicate Twin(u: State, w: State, c: Id) {
    && |u.nodes| == |w.nodes| && c < |u.nodes|
    && u.nodes[c].phase == Building && u.nodes[c].kind !in {Room, Member} && w.nodes[c].disposed
    && u.borrows == w.borrows + multiset(u.nodes[c].up) && u.borrows[c] == 0
    && forall i :: 0 <= i < |u.nodes| ==>
      && SameIdentity(u.nodes[i], w.nodes[i]) && Apart(u.nodes[i], c)
      && (i == c || TwinNodes(u.nodes[i], w.nodes[i]))
  }

  lemma TwinAt(u: State, w: State, c: Id, i: Id)
    requires Twin(u, w, c) && i < |u.nodes|
    ensures |u.nodes| == |w.nodes| && SameIdentity(u.nodes[i], w.nodes[i]) && Apart(u.nodes[i], c)
    ensures i != c ==> TwinNodes(u.nodes[i], w.nodes[i])
  {
  }

  /** How a resource may change without becoming another one. */
  predicate Ages(a: Node, b: Node) {
    SameIdentity(a, b) && (a.disposed ==> b.disposed)
  }

  lemma TwinMove(u: State, w: State, u1: State, w1: State, c: Id)
    requires Twin(u, w, c) && |u1.nodes| == |u.nodes| && |w1.nodes| == |w.nodes|
    requires u1.nodes[c].phase == Building && u1.borrows == w1.borrows + multiset(u.nodes[c].up) && u1.borrows[c] == 0
    requires forall i :: 0 <= i < |u.nodes| ==>
      && Ages(u.nodes[i], u1.nodes[i]) && Ages(w.nodes[i], w1.nodes[i]) && Apart(u1.nodes[i], c)
      && (i == c || TwinNodes(u1.nodes[i], w1.nodes[i]))
    ensures Twin(u1, w1, c)
  {
  }

  // ---------------------------------------------------------------- steps that touch counters only

  lemma TwinKeeps(u: State, w: State, u1: State, w1: State, c: Id)
    requires Twin(u, w, c) && KeepsIntent(u, u1) && KeepsIntent(w, w1)
    requires u1.borrows == w1.borrows + multiset(u.nodes[c].up) && u1.borrows[c] == 0
    ensures Twin(u1, w1, c)
  {
    TwinMove(u, w, u1, w1, c);
  }

  lemma OnlyRefsKeeps(s: State, t: State)
    requires OnlyRefs(s, t)
    ensures KeepsIntent(s, t)
  {
  }

  lemma TwinBorrow(u: State, w: State, c: Id, i: Id)
    requires Twin(u, w, c) && Good(u) && Good(w) && i in u.byId && i in w.byId && i != c
    ensures Twin(Borrow(u, i), Borrow(w, i), c)
  {
    hide GoodBut, Borrow, Twin, OnlyRefs, KeepsIntent;
    BorrowGood(u, multiset{}, i);
    BorrowGood(w, multiset{}, i);
    OnlyRefsKeeps(u, Borrow(u, i));
    OnlyRefsKeeps(w, Borrow(w, i));
    TwinBorrows(u, w, c, i);
    TwinKeeps(u, w, Borrow(u, i), Borrow(w, i), c);
  }

  lemma TwinBorrows(u: State, w: State, c: Id, i: Id)
    requires Twin(u, w, c) && i != c
    ensures c < |u.nodes|
    ensures u.borrows + multiset{i} == (w.borrows + multiset{i}) + multiset(u.nodes[c].up)
    ensures i in w.borrows ==> u.borrows - multiset{i} == (w.borrows - multiset{i}) + multiset(u.nodes[c].up)
    ensures (u.borrows + multiset{i})[c] == 0 && (u.borrows - multiset{i})[c] == 0
  {
  }

  lemma TwinRelease(u: State, w: State, c: Id, i: Id)
    requires Twin(u, w, c) && Inv(u) && Inv(w) && i in u.borrows && i in w.borrows
    ensures Twin(Release(u, i), Release(w, i), c)
  {
    hide Inv, Release, Twin, KeepsIntent;
    ReleaseIntent(u, i);
    ReleaseIntent(w, i);
    BorrowedApart(u, w, c, i);
    TwinBorrows(u, w, c, i);
    TwinKeeps(u, w, Release(u, i), Release(w, i), c);
  }

  lemma BorrowedApart(u: State, w: State, c: Id, i: Id)
    requires Twin(u, w, c) && i in u.borrows
    ensures i != c
  {
  }

  // ---------------------------------------------------------------- what is alive in both

  /** A half-made resource is there. */
  lemma BuildingAlive(s: State, i: Id)
    requires Good(s) && i < |s.nodes| && s.nodes[i].phase == Building
    ensures Alive(s, i)
  {
    AliveIffHeld(s, i);
  }

  /** An open resource that is gone was given up. */
  lemma DeadOpen(s: State, i: Id)
    requires Good(s) && i < |s.nodes| && s.nodes[i].disposed && !s.nodes[i].closed
    ensures s.nodes[i].phase == Failed
  {
    AliveIffHeld(s, i);
  }

  lemma UpKindIn(s: State, h: Id)
    requires Shape(s) && h < |s.nodes|
    ensures forall x :: x in s.nodes[h].up ==> x < |s.nodes| && s.nodes[x].kind in ParentKinds(s.nodes[h].kind)
  {
    assert ShapeAt(s.nodes, h);
    var n := s.nodes[h];
    forall x | x in n.up ensures x < |s.nodes| && s.nodes[x].kind in ParentKinds(n.kind) {
      var j :| 0 <= j < |n.up| && n.up[j] == x;
    }
  }

  lemma OwnedKinds(s: State, h: Id)
    requires Shape(s) && h < |s.nodes|
    ensures forall x :: x in s.nodes[h].owned ==> x < |s.nodes| && s.nodes[x].kind !in {Room, Member}
    ensures s.nodes[h].kind != Member ==> s.nodes[h].owned == []
  {
    assert ShapeAt(s.nodes, h);
  }

  /** Nobody holds a member but threads. */
  lemma MemberFree(s: State, m: Id)
    requires Shape(s) && m < |s.nodes| && s.nodes[m].kind == Member
    ensures In(s.nodes, m) == 0
  {
    hide Shape;
    forall h | 0 <= h < |s.nodes| ensures s.nodes[h].Holds(m) == 0 {
      UpKindIn(s, h);
      OwnedKinds(s, h);
      assert m !in s.nodes[h].up && m !in s.nodes[h].owned;
    }
    InNone(s.nodes, m);
  }

  lemma UpKinds(s: State, c: Id, x: Id)
    requires Shape(s) && c < |s.nodes| && s.nodes[c].kind !in {Room, Member} && x in s.nodes[c].up
    ensures x < |s.nodes| && s.nodes[x].kind !in {Room, Member}
  {
    UpKindIn(s, c);
  }

  /** Both worlds have the same members. */
  lemma MembersAlike(u: State, w: State, c: Id, m: Id)
    requires Twin(u, w, c) && Good(u) && Good(w) && m < |u.nodes| && u.nodes[m].kind == Member
    ensures Alive(u, m) <==> Alive(w, m)
  {
    hide GoodBut, In;
    GoodParts(u, multiset{});
    GoodParts(w, multiset{});
    TwinAt(u, w, c, m);
    if m in u.nodes[c].up { UpKinds(u, c, m); }
    MemberFree(u, m);
    MemberFree(w, m);
    AliveIffHeld(u, m);
    AliveIffHeld(w, m);
  }

  /** And the same rooms. */
  lemma RoomsAlike(u: State, w: State, c: Id, r: Id)
    requires Twin(u, w, c) && Good(u) && Good(w) && r < |u.nodes| && u.nodes[r].kind == Room
    ensures Alive(u, r) <==> Alive(w, r)
  {
    hide GoodBut, In, Shape, Links;
    GoodParts(u, multiset{});
    GoodParts(w, multiset{});
    TwinAt(u, w, c, r);
    if r in u.nodes[c].up { UpKinds(u, c, r); }
    forall h | 0 <= h < |u.nodes| ensures u.nodes[h].Holds(r) == w.nodes[h].Holds(r) { RoomHolds(u, w, c, r, h); }
    InSame(u.nodes, w.nodes, r);
    AliveIffHeld(u, r);
    AliveIffHeld(w, r);
  }

  lemma RoomHolds(u: State, w: State, c: Id, r: Id, h: Id)
    requires Twin(u, w, c) && Good(u) && Good(w) && r < |u.nodes| && u.nodes[r].kind == Room && h < |u.nodes|
    ensures u.nodes[h].Holds(r) == w.nodes[h].Holds(r)
  {
    hide GoodBut, Shape, Links, Balanced;
    GoodParts(u, multiset{});
    GoodParts(w, multiset{});
    TwinAt(u, w, c, h);
    TwinAt(u, w, c, r);
    UpKindIn(u, h);
    OwnedKinds(u, h);
    OwnedKinds(w, h);
    assert r !in u.nodes[h].owned && r !in w.nodes[h].owned;
    if u.nodes[h].kind == Member {
      MembersAlike(u, w, c, h);
    } else {
      assert r !in u.nodes[h].up;
    }
  }

  lemma FoundAlike(u: State, w: State, c: Id, i: Id, k: Kind)
    requires Twin(u, w, c) && Good(u) && Good(w) && k in {Room, Member}
    ensures Found(u, i, k) <==> Found(w, i, k)
  {
    hide GoodBut;
    GoodParts(u, multiset{});
    GoodParts(w, multiset{});
    assert i in u.byId <==> Registered(u, {}, i);
    assert i in w.byId <==> Registered(w, {}, i);
    if i < |u.nodes| {
      TwinAt(u, w, c, i);
      if u.nodes[i].kind == Member { MembersAlike(u, w, c, i); }
      if u.nodes[i].kind == Room { RoomsAlike(u, w, c, i); }
    }
  }

  // ---------------------------------------------------------------- closing

  lemma TwinBelow(u: State, w: State, c: Id, b: Id, i: Id)
    requires Twin(u, w, c)
    ensures Below(u.nodes, b, i) <==> Below(w.nodes, b, i)
  {
    forall j | 0 <= j < |u.nodes| ensures u.nodes[j].up == w.nodes[j].up { TwinAt(u, w, c, j); }
    BelowSame(u.nodes, w.nodes, b, i);
  }

  /** A flag that one world cannot see any more cannot change in the other either. */
  lemma FlagAlike(u: State, w: State, u1: State, w1: State, c: Id, b: Id, i: Id)
    requires Twin(u, w, c) && Good(u1) && Good(w1) && i < |u.nodes| && i != c
    requires ClosesDown(u, u1, b) && ClosesDown(w, w1, b)
    ensures |u1.nodes| == |u.nodes| && |w1.nodes| == |w.nodes| && TwinNodes(u1.nodes[i], w1.nodes[i])
  {
    hide GoodBut, ClosesDown;
    TwinAt(u, w, c, i);
    TwinBelow(u, w, c, b, i);
    DownAt(u, u1, b, i);
    DownAt(w, w1, b, i);
    if u1.nodes[i].closed && u1.nodes[i].phase == Failed { ClosedFailed(u1, i); }
    if w1.nodes[i].closed && w1.nodes[i].phase == Failed { ClosedFailed(w1, i); }
    if u1.nodes[i].disposed && !u1.nodes[i].closed { DeadOpen(u1, i); }
    if w1.nodes[i].disposed && !w1.nodes[i].closed { DeadOpen(w1, i); }
  }

  lemma ClosedFailed(s: State, i: Id)
    requires Good(s) && i < |s.nodes| && s.nodes[i].closed && s.nodes[i].phase == Failed
    ensures s.nodes[i].disposed
  {
  }

  lemma TwinClose(u: State, w: State, u1: State, w1: State, c: Id, b: Id)
    requires Twin(u, w, c) && Good(u1) && Good(w1) && ClosesDown(u, u1, b) && ClosesDown(w, w1, b)
    ensures Twin(u1, w1, c)
  {
    hide GoodBut, Twin, ClosesDown;
    TwinAll(u, w, c);
    DownAt(u, u1, b, c);
    DownAt(w, w1, b, c);
    forall i | 0 <= i < |u.nodes|
      ensures Ages(u.nodes[i], u1.nodes[i]) && Ages(w.nodes[i], w1.nodes[i]) && Apart(u1.nodes[i], c)
      ensures i == c || TwinNodes(u1.nodes[i], w1.nodes[i])
    {
      DownAt(u, u1, b, i);
      DownAt(w, w1, b, i);
      TwinAt(u, w, c, i);
      if i != c { FlagAlike(u, w, u1, w1, c, b, i); }
    }
    TwinMove(u, w, u1, w1, c);
  }

  lemma TwinAll(u: State, w: State, c: Id)
    requires Twin(u, w, c)
    ensures |u.nodes| == |w.nodes| && c < |u.nodes| && u.nodes[c].phase == Building && w.nodes[c].disposed
    ensures u.nodes[c].kind !in {Room, Member}
    ensures u.borrows == w.borrows + multiset(u.nodes[c].up) && u.borrows[c] == 0
  {
  }

  // ---------------------------------------------------------------- creations

  /** A look-up of `i` gives the same in both worlds, and does not meet `c`. */
  ghost predicate Agree(u: State, w: State, c: Id, i: Id) {
    i != c && (i in u.byId <==> i in w.byId)
  }

  lemma FoundSame(u: State, w: State, c: Id, i: Id, k: Kind)
    requires Twin(u, w, c) && Agree(u, w, c, i)
    ensures Found(u, i, k) <==> Found(w, i, k)
  {
  }

  lemma ParentsSame(u: State, w: State, c: Id, k: Kind, up: seq<Id>)
    requires Twin(u, w, c) && forall p :: p in up ==> Agree(u, w, c, p)
    ensures ParentsFound(u, k, up) <==> ParentsFound(w, k, up)
  {
    hide Twin;
    if |up| == |ParentKinds(k)| {
      forall j | 0 <= j < |up| ensures Found(u, up[j], ParentKinds(k)[j]) <==> Found(w, up[j], ParentKinds(k)[j]) {
        assert up[j] in up;
        FoundSame(u, w, c, up[j], ParentKinds(k)[j]);
      }
    }
  }

  lemma NewSame(u: State, w: State, c: Id, k: Kind, up: seq<Id>, uuid: Uuid, own: Wid)
    requires Twin(u, w, c)
    ensures NewNode(u, k, up, uuid, own) == NewNode(w, k, up, uuid, own)
  {
  }

  /** One more resource, the same in both worlds. */
  ghost predicate Grown(s: State, t: State, n: Node) {
    && |t.nodes| == |s.nodes| + 1 && t.nodes[|s.nodes|] == n
    && forall i :: 0 <= i < |s.nodes| ==>
      t.nodes[i] == s.nodes[i].(refs := t.nodes[i].refs, disposed := t.nodes[i].disposed)
      && (s.nodes[i].disposed ==> t.nodes[i].disposed)
  }

  lemma TwinGrow(u: State, w: State, u1: State, w1: State, c: Id, n: Node)
    requires Twin(u, w, c) && Grown(u, u1, n) && Grown(w, w1, n) && Apart(n, c)
    requires u1.borrows == w1.borrows + multiset(u.nodes[c].up) && u1.borrows[c] == 0
    ensures Twin(u1, w1, c)
  {
  }

  lemma TwinBegin(u: State, w: State, c: Id, k: Kind, up: seq<Id>, uuid: Uuid, own: Wid)
    requires Twin(u, w, c) && Good(u) && Good(w) && forall p :: p in up ==> Agree(u, w, c, p)
    ensures Twin(Begin(u, k, up, uuid, own), Begin(w, k, up, uuid, own), c)
  {
    hide GoodBut, Begin, Twin;
    ParentsSame(u, w, c, k, up);
    NewSame(u, w, c, k, up, uuid, own);
    if ParentsFound(u, k, up) {
      var n := NewNode(u, k, up, uuid, own);
      var u1, w1 := Begin(u, k, up, uuid, own), Begin(w, k, up, uuid, own);
      BeginFrame(u, k, up, uuid, own);
      BeginFrame(w, k, up, uuid, own);
      GrownBegin(u, k, up, uuid, own);
      GrownBegin(w, k, up, uuid, own);
      TwinAll(u, w, c);
      assert c !in up;
      assert u1.borrows == w1.borrows + multiset(u.nodes[c].up);
      TwinGrow(u, w, u1, w1, c, n);
    } else {
      NotBegun(u, k, up, uuid, own);
      NotBegun(w, k, up, uuid, own);
    }
  }

  lemma GrownBegin(s: State, k: Kind, up: seq<Id>, uuid: Uuid, own: Wid)
    requires Good(s) && ParentsFound(s, k, up)
    ensures Grown(s, Begin(s, k, up, uuid, own), NewNode(s, k, up, uuid, own))
  {
    hide GoodBut, Begin;
    BeginFrame(s, k, up, uuid, own);
  }

  lemma NotBegun(s: State, k: Kind, up: seq<Id>, uuid: Uuid, own: Wid)
    requires !ParentsFound(s, k, up)
    ensures Begin(s, k, up, uuid, own) == s
  {
  }

  lemma TwinRefused(u: State, w: State, c: Id, k: Kind, up: seq<Id>, uuid: Uuid, own: Wid)
    requires Twin(u, w, c) && Good(u) && Good(w) && k !in {Room, Member} && forall p :: p in up ==> Agree(u, w, c, p)
    ensures Twin(FailEarly(u, k, up, uuid, own), FailEarly(w, k, up, uuid, own), c)
  {
    hide GoodBut, FailEarly, Twin;
    ParentsSame(u, w, c, k, up);
    NewSame(u, w, c, k, up, uuid, own);
    FailEarlyIsNothing(u, k, up, uuid, own);
    FailEarlyIsNothing(w, k, up, uuid, own);
    if ParentsFound(u, k, up) {
      TwinAll(u, w, c);
      assert c !in up;
      TwinGrow(u, w, FailEarly(u, k, up, uuid, own), FailEarly(w, k, up, uuid, own), c, Buried(NewNode(u, k, up, uuid, own)));
    }
  }

  lemma UnderAlike(u: State, w: State, c: Id, d: Id)
    requires Twin(u, w, c) && Good(u) && Good(w) && d != c
    ensures UnderConstruction(u, d) <==> UnderConstruction(w, d)
  {
    hide GoodBut;
    if d < |u.nodes| {
      TwinAt(u, w, c, d);
      if u.nodes[d].phase == Building { BuildingAlive(u, d); }
      if w.nodes[d].phase == Building { BuildingAlive(w, d); }
    }
  }

  lemma FinishKeeps(s: State, d: Id, p: Phase, n: int)
    requires Good(s) && UnderConstruction(s, d) && p != Building
    ensures var v := SetPhase(s, d, p); KeepsIntent(v, RefLk(v, d, n)) && RefLk(v, d, n).borrows == s.borrows
  {
    hide RefLk;
    var v := SetPhase(s, d, p);
    SetPhaseFrame(s, d, p);
    RefLkFrame(v, d, n);
    assert FrameAt(v, RefLk(v, d, n), d);
    KeepsFrom(v, RefLk(v, d, n));
  }

  lemma KeepsFrom(s: State, t: State)
    requires Evolves(s, t) && SameClosed(s, t)
    ensures KeepsIntent(s, t)
  {
    forall i | 0 <= i < |s.nodes| ensures
      t.nodes[i] == s.nodes[i].(refs := t.nodes[i].refs, disposed := t.nodes[i].disposed)
      && (s.nodes[i].disposed ==> t.nodes[i].disposed) {
      assert EvolvesTo(s.nodes[i], t.nodes[i]);
    }
  }

  lemma TwinPhase(u: State, w: State, c: Id, d: Id, p: Phase)
    requires Twin(u, w, c) && d != c && d < |u.nodes| && UnderConstruction(u, d) && UnderConstruction(w, d)
    ensures Twin(SetPhase(u, d, p), SetPhase(w, d, p), c)
  {
    TwinMove(u, w, SetPhase(u, d, p), SetPhase(w, d, p), c);
  }

  lemma TwinFinish(u: State, w: State, c: Id, d: Id, p: Phase, n: int)
    requires Twin(u, w, c) && Good(u) && Good(w) && d != c && UnderConstruction(u, d) && p != Building
    ensures UnderConstruction(w, d)
    ensures Twin(RefLk(SetPhase(u, d, p), d, n), RefLk(SetPhase(w, d, p), d, n), c)
  {
    hide GoodBut, Twin, RefLk, KeepsIntent;
    UnderAlike(u, w, c, d);
    TwinAll(u, w, c);
    FinishKeeps(u, d, p, n);
    FinishKeeps(w, d, p, n);
    TwinPhase(u, w, c, d, p);
    TwinAll(SetPhase(u, d, p), SetPhase(w, d, p), c);
    TwinKeeps(SetPhase(u, d, p), SetPhase(w, d, p), RefLk(SetPhase(u, d, p), d, n), RefLk(SetPhase(w, d, p), d, n), c);
  }

  // ---------------------------------------------------------------- owner entries

  lemma TwinOwned(u: State, w: State, u1: State, w1: State, c: Id, m: Id, l: seq<Id>, ou: map<Id, Id>, ow: map<Id, Id>)
    requires Twin(u, w, c) && KeepsIntent(u, u1) && KeepsIntent(w, w1) && u1.borrows == u.borrows && w1.borrows == w.borrows
    requires m < |u.nodes| && m != c && Alike(u.nodes[m], w.nodes[m]) && c !in l
    ensures Twin(SetOwned(u1, m, l, ou), SetOwned(w1, m, l, ow), c)
  {
    TwinMove(u, w, SetOwned(u1, m, l, ou), SetOwned(w1, m, l, ow), c);
  }

  lemma AliveAlike(u: State, w: State, c: Id, m: Id)
    requires Twin(u, w, c) && Good(u) && Good(w) && Alive(u, m) && u.nodes[m].kind == Member
    ensures Alive(w, m) && m != c && Alike(u.nodes[m], w.nodes[m]) && c !in u.nodes[m].owned
  {
    hide GoodBut;
    TwinAt(u, w, c, m);
    MembersAlike(u, w, c, m);
  }

  lemma TwinOwnerAdded(u: State, w: State, c: Id, m: Id, r: Id, front: bool)
    requires Twin(u, w, c) && Inv(u) && Inv(w) && Agree(u, w, c, r)
    requires (r in u.byId ==> CanAddOwner(u, m, r)) && (r in w.byId ==> CanAddOwner(w, m, r))
    ensures Twin(AddOwner(u, m, r, front), AddOwner(w, m, r, front), c)
  {
    hide GoodBut, Settled, Slots, Twin, RefLk, KeepsIntent, OnlyRefs, AddOwner, SetOwned;
    if r in u.byId {
      InvIsGood(u);
      InvIsGood(w);
      GoodParts(u, multiset{});
      BorrowedIsAlive(u, m);
      AliveAlike(u, w, c, m);
      AddOwnerUnfold(u, m, r, front);
      AddOwnerUnfold(w, m, r, front);
      OnlyRefsKeeps(u, RefLk(u, r, 1));
      OnlyRefsKeeps(w, RefLk(w, r, 1));
      GrabBorrows(u, r);
      GrabBorrows(w, r);
      TwinOwned(u, w, RefLk(u, r, 1), RefLk(w, r, 1), c, m, OwnedNext(u, m, r, front), u.owner[r := m], w.owner[r := m]);
    } else {
      NotAdded(u, m, r, front);
      NotAdded(w, m, r, front);
    }
  }

  lemma NotAdded(s: State, m: Id, r: Id, front: bool)
    requires r !in s.byId
    ensures AddOwner(s, m, r, front) == s
  {
  }

  lemma GrabBorrows(s: State, r: Id)
    requires Inv(s) && r in s.byId
    ensures RefLk(s, r, 1).borrows == s.borrows
  {
    hide GoodBut, Settled, Slots;
    InvIsGood(s);
    ById(s);
    GrabOne(s, multiset{}, r);
  }

  lemma OwnerAlike(u: State, w: State, c: Id, r: Id)
    requires Twin(u, w, c) && Inv(u) && Inv(w)
    ensures r in u.owner <==> r in w.owner
    ensures r in u.owner ==> u.owner[r] == w.owner[r]
  {
    hide Inv, Twin;
    if r in u.owner { OwnerThere(u, w, c, r); }
    if r in w.owner { OwnerBack(u, w, c, r); }
  }

  lemma OwnerThere(u: State, w: State, c: Id, r: Id)
    requires Twin(u, w, c) && Inv(u) && Inv(w) && r in u.owner
    ensures r in w.owner && w.owner[r] == u.owner[r]
  {
    hide GoodBut, Settled, Slots, Twin;
    InvIsGood(u);
    InvIsGood(w);
    GoodParts(u, multiset{});
    GoodParts(w, multiset{});
    IndexIsAlive(u, r);
    AliveAlike(u, w, c, u.owner[r]);
  }

  lemma OwnerBack(u: State, w: State, c: Id, r: Id)
    requires Twin(u, w, c) && Inv(u) && Inv(w) && r in w.owner
    ensures r in u.owner && u.owner[r] == w.owner[r]
  {
    hide GoodBut, Settled, Slots, Twin;
    InvIsGood(u);
    InvIsGood(w);
    GoodParts(u, multiset{});
    GoodParts(w, multiset{});
    IndexIsAlive(w, r);
    TwinAll(u, w, c);
    TwinAt(u, w, c, w.owner[r]);
    MembersAlike(u, w, c, w.owner[r]);
    AliveAlike(u, w, c, w.owner[r]);
  }

  lemma DropKeeps(s: State, r: Id)
    requires Inv(s) && r in s.owner
    ensures var m := s.owner[r];
      && m < |s.nodes|
      && var v := SetOwned(s, m, Without(s.nodes[m].owned, r), s.owner - {r});
         KeepsIntent(v, DropOwner(s, r)) && DropOwner(s, r).borrows == s.borrows
  {
    hide GoodBut, Settled, Slots, RefAllLk, Without, Copies, SetOwned, KeepsIntent, DropOwner, Inv;
    DropPrepare(s, r);
    var m := s.owner[r];
    var l := Without(s.nodes[m].owned, r);
    var v := SetOwned(s, m, l, s.owner - {r});
    var ids := Copies(r, multiset(s.nodes[m].owned)[r]);
    GoodParts(v, multiset(ids));
    OwnedBorrows(s, m, l, s.owner - {r});
    ReleasedKeeps(v, ids, r);
  }

  lemma ReleasedKeeps(v: State, ids: seq<Id>, r: Id)
    requires Shape(v) && r < |v.nodes| && Ownable(v.nodes[r].kind) && forall x :: x in ids ==> x == r
    ensures KeepsIntent(v, RefAllLk(v, ids)) && RefAllLk(v, ids).borrows == v.borrows
  {
    hide RefAllLk, Shape, KeepsIntent;
    RefAllLkFrame(v, ids, Rank(Member));
    KeepsFrom(v, RefAllLk(v, ids));
  }

  lemma TwinOwnerDropped(u: State, w: State, c: Id, r: Id)
    requires Twin(u, w, c) && Inv(u) && Inv(w)
    ensures Twin(DropOwner(u, r), DropOwner(w, r), c)
  {
    hide GoodBut, Settled, Slots, Twin, KeepsIntent, Without, SetOwned, DropOwner;
    OwnerAlike(u, w, c, r);
    if r in u.owner {
      InvIsGood(u);
      InvIsGood(w);
      IndexIsAlive(u, r);
      var m := u.owner[r];
      AliveAlike(u, w, c, m);
      DropKeeps(u, r);
      DropKeeps(w, r);
      TwinAll(u, w, c);
      var l := Without(u.nodes[m].owned, r);
      WithoutMembers(u.nodes[m].owned, r);
      KeepsItself(u);
      KeepsItself(w);
      TwinOwned(u, w, u, w, c, m, l, u.owner - {r}, w.owner - {r});
      OwnedBorrows(u, m, l, u.owner - {r});
      TwinAll(SetOwned(u, m, l, u.owner - {r}), SetOwned(w, m, l, w.owner - {r}), c);
      OwnedBorrows(w, m, l, w.owner - {r});
      TwinKeeps(SetOwned(u, m, l, u.owner - {r}), SetOwned(w, m, l, w.owner - {r}), DropOwner(u, r), DropOwner(w, r), c);
    } else {
      NotDropped(u, r);
      NotDropped(w, r);
    }
  }

  lemma OwnedBorrows(s: State, m: Id, l: seq<Id>, o: map<Id, Id>)
    requires m < |s.nodes|
    ensures SetOwned(s, m, l, o).borrows == s.borrows && |SetOwned(s, m, l, o).nodes| == |s.nodes|
    ensures forall i :: 0 <= i < |s.nodes| ==>
      SetOwned(s, m, l, o).nodes[i].up == s.nodes[i].up && SetOwned(s, m, l, o).nodes[i].kind == s.nodes[i].kind
  {
  }

  lemma NotDropped(s: State, r: Id)
    requires r !in s.owner
    ensures DropOwner(s, r) == s
  {
  }
}
