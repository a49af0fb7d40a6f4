/**
 Exactly the disciplined steps keep the invariant: what the callers would have to see to, and the
 code does not check, is all that they would have to see to.
 */
module RctExact {
  import opened RctState
  import opened RctRefs
  import opened RctInvariant
  import opened RctCascade
  import opened RctSteps
  import opened RctCreation
  import opened RctProtocol
  import opened RctOwners
  import opened RctRooms
  import opened RctRollback
  import opened RctRuns
  import opened RctSurvival
  import opened RctInTime
  import opened RctCloseById
  import opened RctClosedParents

  lemma BeginBreaks(s: State, k: Kind, up: seq<Id>, uuid: Uuid, own: Wid)
    requires Inv(s) && uuid !in s.byUuid && k !in {Room, Member} && !Disciplined(s, BeginCreate(k, up, uuid, own))
    ensures !Inv(Begin(s, k, up, uuid, own))
  {
    hide GoodBut, Settled, Slots, Begin;
    BeginExact(s, k, up, uuid, own);
  }

  lemma FailBreaks(s: State, c: Id)
    requires Inv(s) && !Disciplined(s, CreatorFails(c))
    ensures UnderConstruction(s, c) && !Inv(FinishFail(s, c))
  {
    hide GoodBut, Settled, Slots, FinishFail;
    InvIsGood(s);
    FinishFailExact(s, c);
  }

  lemma OwnerBreaks(s: State, m: Id, r: Id, front: bool)
    requires Inv(s) && (r in s.byId ==> CanAddOwner(s, m, r)) && !Disciplined(s, OwnerAdded(m, r, front))
    ensures !Inv(AddOwner(s, m, r, front))
  {
    hide GoodBut, Settled, Slots, AddOwner;
    InvIsGood(s);
    IndexIsAlive(s, r);
    ById(s);
    AddOwnerExact(s, m, r, front);
  }

  lemma CloseBreaks(s: State, i: Id)
    requires Inv(s) && (i < |s.nodes| ==> s.nodes[i].kind != Room) && !MayClose(s, i)
    ensures !Inv(Close(s, i))
  {
    hide Inv, Close, ClearBelow, Remains;
    CloseByIdExactly(s, i);
  }

  /** A step keeps the invariant if and only if it is disciplined. */
  lemma StepExactly(s: State, st: Step)
    requires Inv(s) && DistinctUsers(s) && Assumed(s, st)
    ensures Inv(Apply(s, st)) <==> Disciplined(s, st)
  {
    hide Inv, DistinctUsers, Begin, FailEarly, RefLk, SetPhase, Borrow, Release, Close, AddOwner, DropOwner, Join, CreateRoom, MayClose;
    if Disciplined(s, st) {
      StepInv(s, st);
    } else {
      match st {
        case BeginCreate(k, up, uuid, own) => BeginBreaks(s, k, up, uuid, own);
        case CreatorFails(c) => FailBreaks(s, c);
        case CloseById(i) => CloseBreaks(s, i);
        case OwnerAdded(m, r, front) => OwnerBreaks(s, m, r, front);
        case MemberJoins(room, prev, uuid, user) => JoinExact(s, room, prev, uuid, user);
        case RoomCreated(router, prev, ru, mu, user) => CreateRoomExact(s, router, prev, ru, mu, user);
        case _ =>
      }
    }
  }

  /** So a run keeps the invariant at every step if and only if all its steps are disciplined. */
  lemma {:induction false} RunExactly(s: State, steps: seq<Step>)
    requires Inv(s) && DistinctUsers(s)
    requires forall n :: 0 <= n < |steps| ==> Assumed(Run(s, steps[..n]), steps[n])
    ensures (forall n :: 0 <= n <= |steps| ==> Inv(Run(s, steps[..n]))) <==> RunOk(s, steps)
  {
    hide Inv, DistinctUsers, Apply, Assumed, Disciplined, RunOk;
    if steps == [] {
      NothingDone(s);
    } else {
      var m := |steps| - 1;
      var p := steps[..m];
      assert forall n :: 0 <= n <= m ==> p[..n] == steps[..n];
      assert steps[..|steps|] == steps;
      RunExactly(s, p);
      if RunOk(s, p) {
        RunKeeps(s, p);
        StepExactly(Run(s, p), steps[m]);
        RunOkLast(s, steps);
      } else if RunOk(s, steps) {
        RunOkPrefix(s, steps);
      }
    }
  }

  lemma NothingDone(s: State)
    ensures RunOk(s, []) && Run(s, []) == s
  {
  }

  lemma {:induction false} RunKeeps(s: State, steps: seq<Step>)
    requires Inv(s) && DistinctUsers(s) && RunOk(s, steps)
    ensures Inv(Run(s, steps)) && DistinctUsers(Run(s, steps))
  {
    hide Inv, DistinctUsers, Apply, Assumed, Disciplined;
    if steps != [] {
      var n := |steps| - 1;
      RunOkPrefix(s, steps);
      RunKeeps(s, steps[..n]);
      StepInv(Run(s, steps[..n]), steps[n]);
    }
  }

  lemma RunOkLast(s: State, steps: seq<Step>)
    requires steps != [] && RunOk(s, steps[..|steps| - 1])
    ensures var t := Run(s, steps[..|steps| - 1]); var st := steps[|steps| - 1];
      RunOk(s, steps) <==> Assumed(t, st) && Disciplined(t, st)
  {
    hide Run, Assumed, Disciplined;
    var p := steps[..|steps| - 1];
    assert forall n :: 0 <= n < |p| ==> p[..n] == steps[..n];
    if Assumed(Run(s, p), steps[|p|]) && Disciplined(Run(s, p), steps[|p|]) {
      forall n | 0 <= n < |steps| ensures Assumed(Run(s, steps[..n]), steps[n]) && Disciplined(Run(s, steps[..n]), steps[n]) {
        if n < |p| { assert p[..n] == steps[..n]; }
      }
    }
  }
}
