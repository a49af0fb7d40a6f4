/**
 A failed creation in the middle of a run. Between the two sections of a creator the others
 take any number of steps; when the creator then fails, the process is in the state that the
 same steps reach when the creation is refused at once.
 */
module RctNoTrace {
  import opened RctState
  import opened RctRefs
  import opened RctInvariant
  import opened RctCascade
  import opened RctSteps
  import opened RctCreation
  import opened RctProtocol
  import opened RctRooms
  import opened RctRollback
  import opened RctHistory
  import opened RctRuns
  import opened RctSurvival
  import opened RctTheorems
  import opened RctParallel
  import opened RctParallelRooms
  import opened RctCloseById
  import opened RctFewer
  import opened RctParallelCloses

  // ---------------------------------------------------------------- steps that do not notice

  /** A step of another thread that finds nothing that is there because of `c` only, does not
      finish the creation of `c`, and does not release what the creator of `c` holds. */
  ghost predicate Unaware(u: State, c: Id, st: Step)
    requires c < |u.nodes|
  {
    match st
    case BeginCreate(k, up, uuid, own) => ParentsFound(u, k, up) ==> forall p :: p in up ==> Clear(u, c, p)
    case CreationRefused(k, up, uuid, own) => ParentsFound(u, k, up) ==> forall p :: p in up ==> Clear(u, c, p)
    case CreatorSucceeds(d) => d != c
    case CreatorFails(d) => d != c
    case BorrowRef(i) => Clear(u, c, i)
    case ReleaseRef(i) => i in u.borrows - multiset(u.nodes[c].up)
    case CloseById(i) => true
    case OwnerAdded(m, r, front) => Clear(u, c, r)
    case OwnerDropped(r) => true
    case MemberJoins(room, prev, uuid, user) => true
    case RoomCreated(router, prev, ru, mu, user) => Found(u, router, Router) ==> Clear(u, c, router)
  }

  /** A router with something given up below it is closed where that is in order in both worlds. */
  ghost predicate ClosesThere(u: State, w: State, st: Step) {
    st.CloseById? && AboveGivenUp(u, st.i) ==> Disciplined(w, st)
  }

  // ---------------------------------------------------------------- the same step in the smaller world

  lemma ParentsClear(u: State, w: State, c: Id, up: seq<Id>)
    requires Twin(u, w, c) && Inv(u) && Inv(w) && c < |u.nodes| && forall p :: p in up ==> Clear(u, c, p)
    ensures forall p :: p in up ==> Agree(u, w, c, p)
  {
    hide Inv, Twin, Clear;
    forall p | p in up ensures Agree(u, w, c, p) { ClearExactly(u, w, c, p); }
  }

  /** What is not found in the larger world is not found in the smaller one. */
  lemma ParentsFewer(u: State, w: State, c: Id, k: Kind, up: seq<Id>)
    requires Twin(u, w, c) && Inv(u) && Inv(w) && !ParentsFound(u, k, up)
    ensures !ParentsFound(w, k, up)
  {
    hide Inv, Twin;
    if ParentsFound(w, k, up) {
      forall j | 0 <= j < |up| ensures Found(u, up[j], ParentKinds(k)[j]) { FoundOpen(u, w, c, up[j], ParentKinds(k)[j]); }
    }
  }

  lemma FoundOpen(u: State, w: State, c: Id, i: Id, k: Kind)
    requires Twin(u, w, c) && Inv(u) && Inv(w) && Found(w, i, k)
    ensures Found(u, i, k) && i != c && w.nodes[i].closed == u.nodes[i].closed && w.nodes[i].phase == u.nodes[i].phase
  {
    hide Inv, Twin;
    InvIsGood(u);
    InvIsGood(w);
    FewerAll(u, w, c);
    TwinAt(u, w, c, i);
  }

  lemma OtherBegins(u: State, w: State, c: Id, k: Kind, up: seq<Id>, uuid: Uuid, own: Wid)
    requires Twin(u, w, c) && Inv(u) && Inv(w)
    requires c < |u.nodes|
    requires var st := BeginCreate(k, up, uuid, own); Assumed(u, st) && Disciplined(u, st) && Unaware(u, c, st)
    ensures var st := BeginCreate(k, up, uuid, own); Assumed(w, st) && Disciplined(w, st) && Twin(Apply(u, st), Apply(w, st), c)
  {
    hide Inv, Twin, Begin, Clear;
    InvIsGood(u);
    InvIsGood(w);
    TwinAll(u, w, c);
    FewerAll(u, w, c);
    if ParentsFound(u, k, up) {
      ParentsClear(u, w, c, up);
      TwinBegin(u, w, c, k, up, uuid, own);
    } else {
      ParentsFewer(u, w, c, k, up);
      NotBegun(u, k, up, uuid, own);
      NotBegun(w, k, up, uuid, own);
    }
    if ParentsFound(w, k, up) {
      forall p | p in up ensures p < |w.nodes| && !w.nodes[p].closed {
        var j :| 0 <= j < |up| && up[j] == p;
        assert Found(w, up[j], ParentKinds(k)[j]);
        FoundOpen(u, w, c, p, ParentKinds(k)[j]);
      }
    }
  }

  lemma OtherRefused(u: State, w: State, c: Id, k: Kind, up: seq<Id>, uuid: Uuid, own: Wid)
    requires Twin(u, w, c) && Inv(u) && Inv(w) && k !in {Room, Member} && c < |u.nodes|
    requires ParentsFound(u, k, up) ==> forall p :: p in up ==> Clear(u, c, p)
    ensures Twin(FailEarly(u, k, up, uuid, own), FailEarly(w, k, up, uuid, own), c)
  {
    hide Inv, Twin, FailEarly, Clear;
    InvIsGood(u);
    InvIsGood(w);
    if ParentsFound(u, k, up) {
      ParentsClear(u, w, c, up);
      TwinRefused(u, w, c, k, up, uuid, own);
    } else {
      ParentsFewer(u, w, c, k, up);
      FailEarlyIsNothing(u, k, up, uuid, own);
      FailEarlyIsNothing(w, k, up, uuid, own);
    }
  }

  lemma OtherSucceeds(u: State, w: State, c: Id, d: Id)
    requires Twin(u, w, c) && Inv(u) && Inv(w) && d != c
    ensures Twin(Apply(u, CreatorSucceeds(d)), Apply(w, CreatorSucceeds(d)), c)
  {
    hide Inv, Twin, RefLk, SetPhase;
    InvIsGood(u);
    InvIsGood(w);
    UnderAlike(u, w, c, d);
    if UnderConstruction(u, d) { TwinFinish(u, w, c, d, Live, -INIT_REFS + 1); }
  }

  /** A counter is not larger in the smaller world. */
  lemma RefsLess(u: State, w: State, c: Id, d: Id)
    requires Twin(u, w, c) && Good(u) && Good(w) && Alive(u, d) && Alive(w, d)
    ensures w.nodes[d].refs <= u.nodes[d].refs && w.nodes[d].refs >= w.nodes[d].Main()
  {
    hide GoodBut, In;
    TwinAt(u, w, c, d);
    Fewer(u, w, c, 0);
    forall h | 0 <= h < |u.nodes| ensures w.nodes[h].Holds(d) <= u.nodes[h].Holds(d) { TwinAt(u, w, c, h); }
    InLess(w.nodes, u.nodes, d);
    AliveIffHeld(u, d);
    AliveIffHeld(w, d);
  }

  lemma OtherFails(u: State, w: State, c: Id, d: Id)
    requires Twin(u, w, c) && Inv(u) && Inv(w) && d != c && Disciplined(u, CreatorFails(d))
    ensures Disciplined(w, CreatorFails(d)) && Twin(Apply(u, CreatorFails(d)), Apply(w, CreatorFails(d)), c)
  {
    hide GoodBut, Settled, Slots, Twin, RefLk, SetPhase;
    InvIsGood(u);
    InvIsGood(w);
    UnderAlike(u, w, c, d);
    TwinAll(u, w, c);
    if UnderConstruction(u, d) {
      TwinAt(u, w, c, d);
      RefsLess(u, w, c, d);
      TwinFinish(u, w, c, d, Failed, -INIT_REFS);
    }
  }

  lemma OtherReleases(u: State, w: State, c: Id, i: Id)
    requires Twin(u, w, c) && Inv(u) && Inv(w) && i in u.borrows - multiset(u.nodes[c].up)
    ensures i in w.borrows && Twin(Release(u, i), Release(w, i), c)
  {
    hide Inv, Twin, Release;
    TwinAll(u, w, c);
    TwinRelease(u, w, c, i);
  }

  lemma OtherOwns(u: State, w: State, c: Id, m: Id, r: Id, front: bool)
    requires Twin(u, w, c) && Inv(u) && Inv(w)
    requires c < |u.nodes|
    requires var st := OwnerAdded(m, r, front); Assumed(u, st) && Disciplined(u, st) && Unaware(u, c, st)
    ensures var st := OwnerAdded(m, r, front); Assumed(w, st) && Disciplined(w, st) && Twin(Apply(u, st), Apply(w, st), c)
  {
    hide Inv, Twin, AddOwner;
    InvIsGood(u);
    InvIsGood(w);
    TwinAll(u, w, c);
    ClearExactly(u, w, c, r);
    OwnerAlike(u, w, c, r);
    if r in u.byId {
      GoodParts(u, multiset{});
      TwinAt(u, w, c, r);
      TwinAt(u, w, c, m);
      if m in u.nodes[c].up { UpKinds(u, c, m); }
    }
    TwinOwnerAdded(u, w, c, m, r, front);
  }

  lemma OtherJoins(u: State, w: State, c: Id, room: Id, prev: Option<Id>, uuid: Uuid, user: int)
    requires Twin(u, w, c) && Inv(u) && Inv(w) && DistinctUsers(u) && DistinctUsers(w)
    requires uuid !in u.byUuid && RoomReady(u, room)
    ensures uuid !in w.byUuid && RoomReady(w, room) && Twin(Join(u, room, prev, uuid, user), Join(w, room, prev, uuid, user), c)
  {
    hide Inv, Twin, Join, DistinctUsers;
    InvIsGood(u);
    InvIsGood(w);
    FewerAll(u, w, c);
    if Found(w, room, Room) { FoundOpen(u, w, c, room, Room); }
    TwinJoin(u, w, c, room, prev, uuid, user);
  }

  lemma OtherCreates(u: State, w: State, c: Id, router: Id, prev: Option<Id>, ru: Uuid, mu: Uuid, user: int)
    requires Twin(u, w, c) && Inv(u) && Inv(w) && DistinctUsers(u) && DistinctUsers(w) && c < |u.nodes|
    requires Found(u, router, Router) ==> Clear(u, c, router)
    requires ru !in u.byUuid && mu !in u.byUuid && ru != mu && (Found(u, router, Router) ==> !u.nodes[router].closed)
    ensures ru !in w.byUuid && mu !in w.byUuid && (Found(w, router, Router) ==> !w.nodes[router].closed)
    ensures Twin(CreateRoom(u, router, prev, ru, mu, user), CreateRoom(w, router, prev, ru, mu, user), c)
  {
    hide Inv, Twin, CreateRoom, DistinctUsers, Clear;
    InvIsGood(u);
    InvIsGood(w);
    FewerAll(u, w, c);
    if Found(w, router, Router) { FoundOpen(u, w, c, router, Router); }
    if Found(u, router, Router) {
      ClearExactly(u, w, c, router);
      TwinCreateRoom(u, w, c, router, prev, ru, mu, user);
    } else {
      NotCreated(u, router, prev, ru, mu, user);
      NotCreated(w, router, prev, ru, mu, user);
    }
  }

  lemma OtherBorrows(u: State, w: State, c: Id, i: Id)
    requires Twin(u, w, c) && Inv(u) && Inv(w) && c < |u.nodes| && Clear(u, c, i)
    ensures Twin(Borrow(u, i), Borrow(w, i), c)
  {
    hide Inv, Twin, Clear;
    InvIsGood(u);
    InvIsGood(w);
    ClearExactly(u, w, c, i);
    if i in u.byId {
      hide Borrow;
      TwinBorrow(u, w, c, i);
    }
  }

  /** What a step may do in the larger world it may do in the smaller one, and they stay twins. */
  lemma TwinStep(u: State, w: State, c: Id, st: Step)
    requires Twin(u, w, c) && Inv(u) && Inv(w) && DistinctUsers(u) && DistinctUsers(w) && c < |u.nodes|
    requires Assumed(u, st) && Disciplined(u, st) && Unaware(u, c, st) && ClosesThere(u, w, st)
    ensures Assumed(w, st) && Disciplined(w, st) && Twin(Apply(u, st), Apply(w, st), c)
  {
    hide Inv, DistinctUsers, Twin, Clear, Begin, FailEarly, RefLk, SetPhase, Borrow, Release, Close, AddOwner, DropOwner, Join, CreateRoom, MayClose, AboveGivenUp, RoomReady;
    match st {
      case BeginCreate(k, up, uuid, own) => OtherBegins(u, w, c, k, up, uuid, own);
      case CreationRefused(k, up, uuid, own) => OtherRefused(u, w, c, k, up, uuid, own);
      case CreatorSucceeds(d) => OtherSucceeds(u, w, c, d);
      case CreatorFails(d) => OtherFails(u, w, c, d);
      case BorrowRef(i) => OtherBorrows(u, w, c, i);
      case ReleaseRef(i) => OtherReleases(u, w, c, i);
      case CloseById(i) => OtherCloses(u, w, c, i);
      case OwnerAdded(m, r, front) => OtherOwns(u, w, c, m, r, front);
      case OwnerDropped(r) => TwinOwnerDropped(u, w, c, r);
      case MemberJoins(room, prev, uuid, user) => OtherJoins(u, w, c, room, prev, uuid, user);
      case RoomCreated(router, prev, ru, mu, user) => OtherCreates(u, w, c, router, prev, ru, mu, user);
    }
  }

  // ---------------------------------------------------------------- runs side by side

  ghost predicate RunUnaware(s: State, c: Id, steps: seq<Step>) {
    forall n :: 0 <= n < |steps| ==> c < |Run(s, steps[..n]).nodes| && Unaware(Run(s, steps[..n]), c, steps[n])
  }

  ghost predicate RunClosesThere(u: State, w: State, steps: seq<Step>) {
    forall n :: 0 <= n < |steps| ==> ClosesThere(Run(u, steps[..n]), Run(w, steps[..n]), steps[n])
  }

  lemma ClosesPrefix(u: State, w: State, steps: seq<Step>)
    requires RunClosesThere(u, w, steps) && steps != []
    ensures RunClosesThere(u, w, steps[..|steps| - 1])
    ensures var p := steps[..|steps| - 1]; ClosesThere(Run(u, p), Run(w, p), steps[|steps| - 1])
  {
    hide Run, ClosesThere;
    var p := steps[..|steps| - 1];
    forall n | 0 <= n < |p| ensures ClosesThere(Run(u, p[..n]), Run(w, p[..n]), p[n]) {
      assert p[..n] == steps[..n];
    }
  }

  lemma UnawarePrefix(s: State, c: Id, steps: seq<Step>)
    requires RunUnaware(s, c, steps) && steps != []
    ensures RunUnaware(s, c, steps[..|steps| - 1])
  {
    hide Run, Unaware;
    var p := steps[..|steps| - 1];
    forall n | 0 <= n < |p| ensures c < |Run(s, p[..n]).nodes| && Unaware(Run(s, p[..n]), c, p[n]) {
      assert p[..n] == steps[..n];
    }
  }

  lemma RunOkMore(s: State, steps: seq<Step>)
    requires steps != [] && RunOk(s, steps[..|steps| - 1])
    requires var t := Run(s, steps[..|steps| - 1]); var st := steps[|steps| - 1]; Assumed(t, st) && Disciplined(t, st)
    ensures RunOk(s, steps)
  {
    hide Run, Assumed, Disciplined;
    var p := steps[..|steps| - 1];
    forall n | 0 <= n < |steps| ensures Assumed(Run(s, steps[..n]), steps[n]) && Disciplined(Run(s, steps[..n]), steps[n]) {
      if n < |p| { assert p[..n] == steps[..n]; }
    }
  }

  lemma {:induction false} TwinRun(u: State, w: State, c: Id, steps: seq<Step>)
    requires Twin(u, w, c) && Inv(u) && Inv(w) && DistinctUsers(u) && DistinctUsers(w)
    requires RunOk(u, steps) && RunUnaware(u, c, steps) && RunClosesThere(u, w, steps)
    ensures RunOk(w, steps) && Twin(Run(u, steps), Run(w, steps), c) && Later(u, Run(u, steps))
    ensures Inv(Run(u, steps)) && DistinctUsers(Run(u, steps)) && Inv(Run(w, steps)) && DistinctUsers(Run(w, steps))
  {
    hide Inv, DistinctUsers, Twin, Apply, Assumed, Disciplined, Unaware, RunOk, RunUnaware, RunClosesThere, ClosesThere, Later;
    if steps == [] {
      RunOkNone(w);
      SameNodesLater(u, u);
    } else {
      var n := |steps| - 1;
      var p := steps[..n];
      RunOkPrefix(u, steps);
      UnawarePrefix(u, c, steps);
      ClosesPrefix(u, w, steps);
      TwinRun(u, w, c, p);
      LastOk(u, c, steps);
      TwinStep(Run(u, p), Run(w, p), c, steps[n]);
      StepInv(Run(u, p), steps[n]);
      StepInv(Run(w, p), steps[n]);
      RunOkMore(w, steps);
      ApplyLater(Run(u, p), steps[n]);
      LaterTrans(u, Run(u, p), Run(u, steps));
    }
  }

  lemma RunOkNone(s: State)
    ensures RunOk(s, [])
  {
  }

  lemma LastOk(s: State, c: Id, steps: seq<Step>)
    requires steps != [] && RunOk(s, steps) && RunUnaware(s, c, steps)
    ensures var t := Run(s, steps[..|steps| - 1]); var st := steps[|steps| - 1];
      Assumed(t, st) && Disciplined(t, st) && c < |t.nodes| && Unaware(t, c, st)
  {
    hide Run, Assumed, Disciplined, Unaware;
  }

  // ---------------------------------------------------------------- the beginning and the end

  /** Begun here and refused there. */
  lemma TwinsBegin(s: State, k: Kind, up: seq<Id>, uuid: Uuid, own: Wid)
    requires Inv(s) && DistinctUsers(s) && ParentsFound(s, k, up)
    requires Assumed(s, BeginCreate(k, up, uuid, own)) && Disciplined(s, BeginCreate(k, up, uuid, own))
    ensures var u := Begin(s, k, up, uuid, own); var w := FailEarly(s, k, up, uuid, own);
      && Twin(u, w, |s.nodes|) && u.nodes[|s.nodes|].up == up
      && Inv(u) && Inv(w) && DistinctUsers(u) && DistinctUsers(w)
  {
    hide Inv, DistinctUsers, Begin, FailEarly;
    var st := BeginCreate(k, up, uuid, own);
    StepInv(s, st);
    assert Apply(s, st) == Begin(s, k, up, uuid, own);
    RefusedStep(s, k, up, uuid, own);
    InvIsGood(s);
    BeginFrame(s, k, up, uuid, own);
    FailEarlyIsNothing(s, k, up, uuid, own);
    NewIsTwin(s, k, up, uuid, own);
  }

  lemma NewIsTwin(s: State, k: Kind, up: seq<Id>, uuid: Uuid, own: Wid)
    requires Good(s) && ParentsFound(s, k, up) && k !in {Room, Member}
    ensures var n := NewNode(s, k, up, uuid, own); Twin(Begin(s, k, up, uuid, own), Gap(s, Buried(n)), |s.nodes|)
  {
    hide GoodBut, Begin, ParentsFound, NewNode;
    var c := |s.nodes|;
    GoodParts(s, multiset{});
    BeginFrame(s, k, up, uuid, own);
    FoundAlive(s, k, up);
    assert c !in up;
    NoBorrow(s, c);
    forall i | 0 <= i < c ensures Apart(s.nodes[i], c) { NewApart(s, i); }
    NewNodeApart(s, k, up, uuid, own, c);
  }

  lemma NewApart(s: State, i: Id)
    requires Shape(s) && i < |s.nodes|
    ensures Apart(s.nodes[i], |s.nodes|)
  {
    hide Shape;
    UpKindIn(s, i);
    OwnedKinds(s, i);
  }

  lemma NewNodeApart(s: State, k: Kind, up: seq<Id>, uuid: Uuid, own: Wid, c: Id)
    requires c !in up
    ensures var n := NewNode(s, k, up, uuid, own);
      Apart(n, c) && n.phase == Building && n.kind == k && n.up == up && n.owned == []
  {
  }

  lemma NoBorrow(s: State, c: Id)
    requires Balanced(s, multiset{}) && c >= |s.nodes|
    ensures s.borrows[c] == 0
  {
  }

  lemma TwinAlone(u: State, w: State, c: Id)
    requires Twin(u, w, c) && Inv(u)
    ensures CreatorAlone(u, c)
  {
    hide GoodBut, Settled, Slots;
    InvIsGood(u);
    BuildingAlive(u, c);
    forall h | 0 <= h < |u.nodes| ensures u.nodes[h].Holds(c) == 0 { TwinAt(u, w, c, h); }
    InNone(u.nodes, c);
  }

  lemma TwinEnds(u: State, w: State, c: Id, ids: seq<Id>)
    requires Twin(u, w, c) && Inv(u) && Inv(w) && multiset(ids) == multiset(u.nodes[c].up)
    ensures UnderConstruction(u, c) && Indistinguishable(ReleaseAll(FinishFail(u, c), ids), w)
  {
    hide Inv, FinishFail, ReleaseAll, Indistinguishable, CreatorAlone;
    TwinAlone(u, w, c);
    AloneIs(u, c);
    forall i | 0 <= i < |u.nodes| && i !in DeadInBoth(u, w, c)
      ensures w.nodes[i] == u.nodes[i].(refs := w.nodes[i].refs, disposed := w.nodes[i].disposed)
    {
      TwinAt(u, w, c, i);
    }
    assert w.borrows == u.borrows - multiset(ids);
    FailedCreationLeavesNoTrace(u, c, ids, w);
  }

  lemma AloneIs(s: State, c: Id)
    requires CreatorAlone(s, c)
    ensures UnderConstruction(s, c)
  {
  }

  /** A creation that fails after any run of the others leaves what the same run leaves when the
      creation is refused at once; and that is a run that the others could make. The others may
      do what they like as long as they find nothing that is there because of the half-made
      resource only, leave the end of its creation to its creator, and release only what they hold
      themselves; a router above something given up they close where that is in order in both
      worlds. */
  lemma FailedRunLeavesNoTrace(s: State, k: Kind, up: seq<Id>, uuid: Uuid, own: Wid, steps: seq<Step>, ids: seq<Id>)
    requires Inv(s) && DistinctUsers(s) && ParentsFound(s, k, up) && multiset(ids) == multiset(up)
    requires Assumed(s, BeginCreate(k, up, uuid, own)) && Disciplined(s, BeginCreate(k, up, uuid, own))
    requires RunOk(Begin(s, k, up, uuid, own), steps) && RunUnaware(Begin(s, k, up, uuid, own), |s.nodes|, steps)
    requires RunClosesThere(Begin(s, k, up, uuid, own), FailEarly(s, k, up, uuid, own), steps)
    ensures
      var u := Run(Begin(s, k, up, uuid, own), steps);
      var w := FailEarly(s, k, up, uuid, own);
      && RunOk(w, steps) && UnderConstruction(u, |s.nodes|)
      && Indistinguishable(ReleaseAll(FinishFail(u, |s.nodes|), ids), Run(w, steps))
  {
    hide Inv, DistinctUsers, Begin, FailEarly, Run, RunOk, RunUnaware, RunClosesThere, Twin, FinishFail, ReleaseAll, Indistinguishable, Assumed, Disciplined;
    var c := |s.nodes|;
    var u, w := Begin(s, k, up, uuid, own), FailEarly(s, k, up, uuid, own);
    TwinsBegin(s, k, up, uuid, own);
    TwinRun(u, w, c, steps);
    TwinAll(Run(u, steps), Run(w, steps), c);
    assert LaterNode(u.nodes[c], Run(u, steps).nodes[c]) by { TwinAll(u, w, c); }
    TwinEnds(Run(u, steps), Run(w, steps), c, ids);
  }
}
