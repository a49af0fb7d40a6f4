/**
 What every lock-held section of a run does, and a consequence: which worker a resource counts for.
 */
module RctMeaning {
  import opened RctState
  import opened RctRefs
  import opened RctSteps
  import opened RctProtocol
  import opened RctRooms
  import opened RctRollback
  import opened RctSurvival
  import opened RctCloseById
  import opened RctRuns
  import opened RctHistory
  import opened RctTheorems
  import opened RctEffects
  import opened RctSeats

  // ---------------------------------------------------------------- every section

  /** What each section does. */
  ghost predicate Effect(s: State, st: Step, t: State) {
    match st
    case BeginCreate(k, up, uuid, own) => Begun(s, t, k, up, uuid, own)
    case CreationRefused(k, up, uuid, own) => Refused(s, t)
    case CreatorSucceeds(c) =>
      if Waiting(s, c) then Only(s, t, c, s.nodes[c].(phase := Live)) && t.borrows == s.borrows else t == s
    case CreatorFails(c) =>
      if Waiting(s, c) then Only(s, t, c, s.nodes[c].(phase := Failed)) && t.borrows == s.borrows else t == s
    case BorrowRef(i) =>
      if Alive(s, i) then Shut(s, t, {}) && |t.nodes| == |s.nodes| && t.borrows == s.borrows + multiset{i} else t == s
    case ReleaseRef(i) => Shut(s, t, {}) && |t.nodes| == |s.nodes| && t.borrows == s.borrows - multiset{i}
    case CloseById(i) => if Alive(s, i) then ClosedFrom(s, t, i) else t == s
    case OwnerAdded(m, r, front) => Owned(s, t, m, r, front)
    case OwnerDropped(r) => Forgotten(s, t, r)
    case MemberJoins(room, prev, uuid, user) => Joined(s, t, room, prev, uuid, user) && t.borrows == s.borrows
    case RoomCreated(router, prev, ru, mu, user) => RoomMade(s, t, router, prev, ru, mu, user) && t.borrows == s.borrows
  }

  /** Every section of a run has its effect and no other. */
  lemma {:induction false} StepMeans(s: State, st: Step)
    requires Inv(s) && DistinctUsers(s) && Assumed(s, st) && Disciplined(s, st)
    ensures Effect(s, st, Apply(s, st)) && Inv(Apply(s, st))
  {
    hide Inv, DistinctUsers, Begin, FailEarly, RefLk, SetPhase, Borrow, Release, Close, AddOwner, DropOwner, Join, CreateRoom,
      Begun, Refused, Only, Shut, ClosedFrom, Owned, Forgotten, Joined, RoomMade, MayClose;
    StepInv(s, st);
    match st {
      case BeginCreate(k, up, uuid, own) => BeginMeans(s, k, up, uuid, own);
      case CreationRefused(k, up, uuid, own) => RefusedMeans(s, k, up, uuid, own);
      case CreatorSucceeds(c) => if UnderConstruction(s, c) { FinishMeans(s, c, Live, -INIT_REFS + 1); }
      case CreatorFails(c) => if UnderConstruction(s, c) { FinishMeans(s, c, Failed, -INIT_REFS); }
      case BorrowRef(i) => BorrowMeans(s, i);
      case ReleaseRef(i) => ReleaseShut(s, i); ReleaseIntent(s, i);
      case CloseById(i) => CloseMeans(s, i);
      case OwnerAdded(m, r, front) => AddOwnerMeans(s, m, r, front);
      case OwnerDropped(r) => DropOwnerMeans(s, r);
      case MemberJoins(room, prev, uuid, user) => JoinMeans(s, room, prev, uuid, user); JoinInv(s, room, prev, uuid, user);
      case RoomCreated(router, prev, ru, mu, user) =>
        CreateRoomMeans(s, router, prev, ru, mu, user);
        CreateRoomInv(s, router, prev, ru, mu, user);
    }
  }

  /** The same along a run, from any thread. */
  lemma {:induction false} RunMeans(steps: seq<Step>, n: nat)
    requires RunOk(EMPTY, steps) && n < |steps|
    ensures Effect(Run(EMPTY, steps[..n]), steps[n], Run(EMPTY, steps[..n + 1]))
    decreases |steps|
  {
    hide Inv, DistinctUsers, Apply, Assumed, Disciplined, Effect;
    var m := |steps| - 1;
    var pre := steps[..m];
    RunOkPrefix(EMPTY, steps);
    RunInv(pre);
    if n == m {
      StepMeans(Run(EMPTY, pre), steps[m]);
      assert steps[..n + 1] == steps;
    } else {
      RunMeans(pre, n);
      assert pre[..n] == steps[..n] && pre[..n + 1] == steps[..n + 1];
    }
  }

  // ---------------------------------------------------------------- workers

  /** What runs on a worker carries the worker of its router; nothing else carries one but routers. */
  ghost predicate OneWorker(s: State) {
    forall x: Id :: Alive(s, x) ==> WorkerAt(s, x)
  }

  predicate WorkerAt(s: State, x: Id)
    requires x < |s.nodes|
  {
    match s.nodes[x].kind
    case Router => true
    case Room => s.nodes[x].wid == 0
    case Member => s.nodes[x].wid == 0
    case Observer => s.nodes[x].wid == 0
    case _ => s.nodes[x].up != [] && s.nodes[x].up[0] < |s.nodes| && s.nodes[x].wid == s.nodes[s.nodes[x].up[0]].wid
  }

  /** Whoever is new carries the worker it is to carry, and nobody else's changes. */
  lemma WorkersKept(s: State, t: State)
    requires OneWorker(s) && Later(s, t) && forall x: Id :: |s.nodes| <= x && Alive(t, x) ==> WorkerAt(t, x)
    ensures OneWorker(t)
  {
    forall x: Id | Alive(t, x) ensures WorkerAt(t, x) {
      if x < |s.nodes| {
        assert LaterNode(s.nodes[x], t.nodes[x]);
        assert WorkerAt(s, x);
        if s.nodes[x].up != [] && s.nodes[x].up[0] < |s.nodes| { assert LaterNode(s.nodes[s.nodes[x].up[0]], t.nodes[s.nodes[x].up[0]]); }
      }
    }
  }

  lemma NewWorker(s: State, st: Step, t: State, x: Id)
    requires Effect(s, st, t) && Later(s, t) && |s.nodes| <= x && Alive(t, x) && Assumed(s, st)
    ensures WorkerAt(t, x)
  {
    hide CanAddOwner, Forgotten, Shut;
    match st {
      case BeginCreate(k, up, uuid, own) =>
        if Parents(s, k, up) && up != [] { assert LaterNode(s.nodes[up[0]], t.nodes[up[0]]); }
      case CreationRefused(k, up, uuid, own) =>
      case MemberJoins(room, prev, uuid, user) =>
      case RoomCreated(router, prev, ru, mu, user) =>
      case OwnerDropped(r) => ForgottenSize(s, t, r);
      case _ =>
    }
  }

  lemma ForgottenSize(s: State, t: State, r: Id)
    requires Forgotten(s, t, r)
    ensures |t.nodes| == |s.nodes|
  {
  }

  lemma {:induction false} WorkersAgree(steps: seq<Step>)
    requires RunOk(EMPTY, steps)
    ensures OneWorker(Run(EMPTY, steps))
  {
    hide Inv, DistinctUsers, Apply, Assumed, Disciplined, Effect, Later, WorkerAt;
    if steps != [] {
      var n := |steps| - 1;
      var s, t := Run(EMPTY, steps[..n]), Run(EMPTY, steps);
      RunOkPrefix(EMPTY, steps);
      WorkersAgree(steps[..n]);
      RunInv(steps[..n]);
      assert Assumed(s, steps[n]);
      StepMeans(s, steps[n]);
      ApplyLater(s, steps[n]);
      forall x: Id | |s.nodes| <= x && Alive(t, x) ensures WorkerAt(t, x) { NewWorker(s, steps[n], t, x); }
      WorkersKept(s, t);
    }
  }
}
