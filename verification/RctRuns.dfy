/**
 Whole runs of the resource graph: any interleaving of lock-held sections of any number of
 threads, starting from the empty process.
 */
module RctRuns {
  import opened RctState
  import opened RctRefs
  import opened RctInvariant
  import opened RctRelease
  import opened RctClose
  import opened RctCascade
  import opened RctSteps
  import opened RctCreation
  import opened RctProtocol
  import opened RctOwners
  import opened RctRooms
  import opened RctRollback
  import opened RctSurvival
  import opened RctInTime
  import opened RctCloseById

  datatype Step =
    | BeginCreate(kind: Kind, up: seq<Id>, uuid: Uuid, own: Wid)
    | CreationRefused(kind: Kind, up: seq<Id>, uuid: Uuid, own: Wid)
    | CreatorSucceeds(c: Id)
    | CreatorFails(c: Id)
    | BorrowRef(i: Id)
    | ReleaseRef(i: Id)
    | CloseById(i: Id)
    | OwnerAdded(m: Id, r: Id, front: bool)
    | OwnerDropped(r: Id)
    | MemberJoins(room: Id, prev: Option<Id>, uuid: Uuid, user: int)
    | RoomCreated(router: Id, prev: Option<Id>, roomUuid: Uuid, uuid: Uuid, user: int)

  function Apply(s: State, st: Step): State {
    match st
    case BeginCreate(k, up, uuid, own) => Begin(s, k, up, uuid, own)
    case CreationRefused(k, up, uuid, own) => FailEarly(s, k, up, uuid, own)
    case CreatorSucceeds(c) => if UnderConstruction(s, c) then FinishOk(s, c) else s
    case CreatorFails(c) => if UnderConstruction(s, c) then FinishFail(s, c) else s
    case BorrowRef(i) => Borrow(s, i)
    case ReleaseRef(i) => Release(s, i)
    case CloseById(i) => Close(s, i)
    case OwnerAdded(m, r, front) => AddOwner(s, m, r, front)
    case OwnerDropped(r) => DropOwner(s, r)
    case MemberJoins(room, prev, uuid, user) => Join(s, room, prev, uuid, user)
    case RoomCreated(router, prev, ru, mu, user) => CreateRoom(s, router, prev, ru, mu, user)
  }

  /** What the steps of a thread rely on by construction: fresh uuids, releases of references
      that the thread holds, rooms that are closed only through their router, and a handler
      that hands a resource it has just created to a member it holds. */
  ghost predicate Assumed(s: State, st: Step) {
    match st
    case BeginCreate(k, up, uuid, own) => k !in {Room, Member} && uuid !in s.byUuid
    case CreationRefused(k, up, uuid, own) => k !in {Room, Member}
    case CreatorSucceeds(c) => true
    case CreatorFails(c) => true
    case BorrowRef(i) => true
    case ReleaseRef(i) => i in s.borrows
    case CloseById(i) => i < |s.nodes| ==> s.nodes[i].kind != Room
    case OwnerAdded(m, r, front) => r in s.byId ==> CanAddOwner(s, m, r)
    case OwnerDropped(r) => true
    case MemberJoins(room, prev, uuid, user) => uuid !in s.byUuid
    case RoomCreated(router, prev, ru, mu, user) => ru !in s.byUuid && mu !in s.byUuid && ru != mu
  }

  /** What the code would have to check but does not: children are created under open parents,
      a creator does not fail after its resource was closed and taken by others, a close does
      not come upon a resource below that its creator gave up, and what was given up itself is
      closed only if nobody goes on holding it, a resource has one owner. */
  ghost predicate Disciplined(s: State, st: Step) {
    match st
    case BeginCreate(k, up, uuid, own) => ParentsFound(s, k, up) ==> forall p :: p in up ==> p < |s.nodes| && !s.nodes[p].closed
    case CreatorFails(c) => UnderConstruction(s, c) && s.nodes[c].closed ==> s.nodes[c].refs == INIT_REFS - 1
    case CloseById(i) => MayClose(s, i)
    case OwnerAdded(m, r, front) => r in s.owner ==> s.owner[r] == m
    case MemberJoins(room, prev, uuid, user) => RoomReady(s, room)
    case RoomCreated(router, prev, ru, mu, user) => Found(s, router, Router) ==> !s.nodes[router].closed
    case _ => true
  }

  function Run(s: State, steps: seq<Step>): State {
    if steps == [] then s else Apply(Run(s, steps[..|steps| - 1]), steps[|steps| - 1])
  }

  ghost predicate RunOk(s: State, steps: seq<Step>) {
    forall n :: 0 <= n < |steps| ==>
      Assumed(Run(s, steps[..n]), steps[n]) && Disciplined(Run(s, steps[..n]), steps[n])
  }

  // ---------------------------------------------------------------- one step

  lemma {:induction false} StepInv(s: State, st: Step)
    requires Inv(s) && DistinctUsers(s) && Assumed(s, st) && Disciplined(s, st)
    ensures Inv(Apply(s, st)) && DistinctUsers(Apply(s, st))
  {
    hide Inv, DistinctUsers, Begin, FailEarly, RefLk, SetPhase, Borrow, Release, Close, AddOwner, DropOwner, Join, CreateRoom;
    match st {
      case BeginCreate(k, up, uuid, own) => BeginStep(s, k, up, uuid, own);
      case CreationRefused(k, up, uuid, own) => RefusedStep(s, k, up, uuid, own);
      case CreatorSucceeds(c) => if UnderConstruction(s, c) { FinishOkInv(s, c); FinishDistinct(s, c, Live, -INIT_REFS + 1); }
      case CreatorFails(c) => if UnderConstruction(s, c) { FinishFailInv(s, c); FinishDistinct(s, c, Failed, -INIT_REFS); }
      case BorrowRef(i) => BorrowStep(s, i);
      case ReleaseRef(i) => ReleaseInv(s, i); ReleaseDistinct(s, i);
      case CloseById(i) => CloseStep(s, i);
      case OwnerAdded(m, r, front) => OwnerAddedStep(s, m, r, front);
      case OwnerDropped(r) => DropOwnerInv(s, r); DropDistinct(s, r);
      case MemberJoins(room, prev, uuid, user) => JoinInv(s, room, prev, uuid, user);
      case RoomCreated(router, prev, ru, mu, user) => CreateRoomInv(s, router, prev, ru, mu, user);
    }
  }

  /** The invariant in terms of the states of the whole process. */
  lemma {:induction false} RunInv(steps: seq<Step>)
    requires RunOk(EMPTY, steps)
    ensures Inv(Run(EMPTY, steps)) && DistinctUsers(Run(EMPTY, steps))
  {
    hide Inv, DistinctUsers, Apply, Assumed, Disciplined;
    if steps == [] {
      EmptyInv();
    } else {
      var n := |steps| - 1;
      RunOkPrefix(EMPTY, steps);
      RunInv(steps[..n]);
      StepInv(Run(EMPTY, steps[..n]), steps[n]);
    }
  }

  lemma {:induction false} RunOkPrefix(s: State, steps: seq<Step>)
    requires RunOk(s, steps) && steps != []
    ensures RunOk(s, steps[..|steps| - 1])
  {
    hide Run, Assumed, Disciplined;
    var p := steps[..|steps| - 1];
    forall n | 0 <= n < |p| ensures Assumed(Run(s, p[..n]), p[n]) && Disciplined(Run(s, p[..n]), p[n]) {
      assert p[..n] == steps[..n];
    }
  }

  lemma EmptyInv()
    ensures Inv(EMPTY) && DistinctUsers(EMPTY)
  {
    forall w | w != 0 ensures LoadOf(EMPTY.load, w) == |CarriedBy(EMPTY.nodes, EMPTY.byId, w)| {
      assert CarriedBy(EMPTY.nodes, EMPTY.byId, w) == {};
    }
    forall g ensures g in EMPTY.gauges && EMPTY.gauges[g] == |CountedBy(EMPTY.nodes, EMPTY.byId, g)| {
      assert CountedBy(EMPTY.nodes, EMPTY.byId, g) == {};
      match g { case Rooms => case RoomUsers => case Streams => }
    }
  }

  // ---------------------------------------------------------------- the cases

  lemma {:induction false} BeginStep(s: State, k: Kind, up: seq<Id>, uuid: Uuid, own: Wid)
    requires Inv(s) && DistinctUsers(s) && k !in {Room, Member} && uuid !in s.byUuid
    requires ParentsFound(s, k, up) ==> forall p :: p in up ==> p < |s.nodes| && !s.nodes[p].closed
    ensures Inv(Begin(s, k, up, uuid, own)) && DistinctUsers(Begin(s, k, up, uuid, own))
  {
    if ParentsFound(s, k, up) {
      BeginExact(s, k, up, uuid, own);
      BeginDistinct(s, k, up, uuid, own);
    }
  }

  lemma RefusedStep(s: State, k: Kind, up: seq<Id>, uuid: Uuid, own: Wid)
    requires Inv(s) && DistinctUsers(s) && k !in {Room, Member}
    ensures Inv(FailEarly(s, k, up, uuid, own)) && DistinctUsers(FailEarly(s, k, up, uuid, own))
  {
    hide GoodBut, Settled, Slots, FailEarly;
    FailEarlyInv(s, k, up, uuid, own);
    FailEarlyIsNothing(s, k, up, uuid, own);
    if ParentsFound(s, k, up) { GapDistinct(s, Buried(NewNode(s, k, up, uuid, own))); }
  }

  lemma GapDistinct(s: State, n: Node)
    requires DistinctUsers(s) && n.disposed
    ensures DistinctUsers(Gap(s, n))
  {
    var t := Gap(s, n);
    forall x, y | 0 <= x < |t.nodes| && 0 <= y < |t.nodes| && SameSeat(t.nodes[x], t.nodes[y]) ensures x == y {
      assert SameSeat(s.nodes[x], s.nodes[y]);
    }
  }

  lemma BeginDistinct(s: State, k: Kind, up: seq<Id>, uuid: Uuid, own: Wid)
    requires Inv(s) && DistinctUsers(s) && k != Member && ParentsFound(s, k, up)
    ensures DistinctUsers(Begin(s, k, up, uuid, own))
  {
    hide GoodBut, Settled, Slots, DistinctUsers, OnlyRefs, Register, Append;
    HeldTwiceGood(s, k, up);
    DistinctOnlyRefs(s, HeldTwice(s, up));
    DistinctRegister(HeldTwice(s, up), NewNode(s, k, up, uuid, own));
  }

  lemma FinishDistinct(s: State, c: Id, p: Phase, n: int)
    requires Inv(s) && DistinctUsers(s) && UnderConstruction(s, c) && p != Building
    ensures DistinctUsers(RefLk(SetPhase(s, c, p), c, n))
  {
    var u := SetPhase(s, c, p);
    SetPhaseFrame(s, c, p);
    RefLkFrame(u, c, n);
    assert FrameAt(u, RefLk(u, c, n), c);
    assert DistinctUsers(u) by {
      forall x, y | 0 <= x < |u.nodes| && 0 <= y < |u.nodes| && SameSeat(u.nodes[x], u.nodes[y]) ensures x == y {
        assert SameSeat(s.nodes[x], s.nodes[y]);
      }
    }
    DistinctEvolves(u, RefLk(u, c, n));
  }

  lemma BorrowStep(s: State, i: Id)
    requires Inv(s) && DistinctUsers(s)
    ensures Inv(Borrow(s, i)) && DistinctUsers(Borrow(s, i))
  {
    BorrowInv(s, i);
    if i in s.byId {
      BorrowGood(s, multiset{}, i);
      DistinctOnlyRefs(s, Borrow(s, i));
    }
  }

  lemma CloseStep(s: State, i: Id)
    requires Inv(s) && DistinctUsers(s) && MayClose(s, i) && (i < |s.nodes| ==> s.nodes[i].kind != Room)
    ensures Inv(Close(s, i)) && DistinctUsers(Close(s, i))
  {
    hide GoodBut, Settled, Slots, DistinctUsers, Close, Remains, Paid, Plain, ClearBelow;
    InvIsGood(s);
    if i in s.byId {
      GoodParts(s, multiset{});
      assert Registered(s, {}, i);
      if GivenUp(s, i) {
        PaidAny(s, i);
        PaidInv(s, i);
        PaidDistinct(s, i);
      } else {
        PlainAny(s, i);
        PlainInv(s, i);
        PlainDistinct(s, i);
      }
    } else {
      NotClosed(s, i);
    }
  }

  lemma NotClosed(s: State, i: Id)
    requires i !in s.byId
    ensures Close(s, i) == s
  {
  }

  lemma PlainDistinct(s: State, i: Id)
    requires Inv(s) && DistinctUsers(s) && Plain(s, i) && i in s.byId
    ensures DistinctUsers(Close(s, i))
  {
    hide GoodBut, Settled, Slots, DistinctUsers, CloseLk, Borrow, Release, OnlyRefs, ClosesDown, Close;
    var u := Borrow(s, i);
    InvIsGood(s);
    BorrowGood(s, multiset{}, i);
    DistinctOnlyRefs(s, u);
    DistinctDown(u, CloseLk(u, i), i);
    ReleaseDistinct(CloseLk(u, i), i);
  }

  lemma PaidDistinct(s: State, i: Id)
    requires Inv(s) && DistinctUsers(s) && Paid(s, i) && !Remains(s, i, i)
    ensures DistinctUsers(Close(s, i))
  {
    hide Inv, DistinctUsers, CloseLk, Borrow, Release, Close, Remains, OnlyRefs, ClosesDown, Relabel;
    InvIsGood(s);
    GivenUpKind(s, i);
    BorrowGood(s, multiset{}, i);
    DistinctOnlyRefs(s, Borrow(s, i));
    PaidClose(s, i);
    var t := CloseLk(Lent(s, i), i);
    DistinctRelabel(Borrow(s, i), i, Live, s.borrows);
    DistinctDown(Lent(s, i), t, i);
    DistinctRelabel(t, i, Failed, s.borrows);
  }

  lemma DistinctRelabel(s: State, i: Id, p: Phase, m: multiset<Id>)
    requires DistinctUsers(s) && i < |s.nodes|
    ensures DistinctUsers(Relabel(s, i, p, m))
  {
    var t := Relabel(s, i, p, m);
    forall x, y | 0 <= x < |t.nodes| && 0 <= y < |t.nodes| && SameSeat(t.nodes[x], t.nodes[y]) ensures x == y {
      assert SameSeat(s.nodes[x], s.nodes[y]);
    }
  }

  lemma DistinctDown(s: State, t: State, b: Id)
    requires DistinctUsers(s) && ClosesDown(s, t, b)
    ensures DistinctUsers(t)
  {
    assert |t.nodes| == |s.nodes|;
    forall x, y | 0 <= x < |t.nodes| && 0 <= y < |t.nodes| && SameSeat(t.nodes[x], t.nodes[y]) ensures x == y {
      DownAt(s, t, b, x);
      DownAt(s, t, b, y);
      assert SameSeat(s.nodes[x], s.nodes[y]);
    }
  }

  lemma {:induction false} OwnerAddedStep(s: State, m: Id, r: Id, front: bool)
    requires Inv(s) && DistinctUsers(s) && (r in s.byId ==> CanAddOwner(s, m, r)) && (r in s.owner ==> s.owner[r] == m)
    ensures Inv(AddOwner(s, m, r, front)) && DistinctUsers(AddOwner(s, m, r, front))
  {
    hide GoodBut, Settled, Slots, DistinctUsers, RefLk, OnlyRefs;
    if r in s.byId {
      AddOwnerExact(s, m, r, front);
      AddOwnerUnfold(s, m, r, front);
      DistinctOnlyRefs(s, RefLk(s, r, 1));
      SetOwnedDistinct(RefLk(s, r, 1), m, OwnedNext(s, m, r, front), s.owner[r := m]);
    }
  }

  lemma SetOwnedDistinct(s: State, m: Id, l: seq<Id>, owner: map<Id, Id>)
    requires DistinctUsers(s) && m < |s.nodes|
    ensures DistinctUsers(SetOwned(s, m, l, owner))
  {
    var t := SetOwned(s, m, l, owner);
    forall x, y | 0 <= x < |t.nodes| && 0 <= y < |t.nodes| && SameSeat(t.nodes[x], t.nodes[y]) ensures x == y {
      assert SameSeat(s.nodes[x], s.nodes[y]);
    }
  }

  lemma DropDistinct(s: State, r: Id)
    requires Inv(s) && DistinctUsers(s)
    ensures DistinctUsers(DropOwner(s, r))
  {
    hide GoodBut, Settled, Slots, DistinctUsers, RefAllLk, SetOwned, Shape, Without, Copies;
    if r in s.owner {
      DropPrepare(s, r);
      var m := s.owner[r];
      var l := Without(s.nodes[m].owned, r);
      var u := SetOwned(s, m, l, s.owner - {r});
      var ids := Copies(r, multiset(s.nodes[m].owned)[r]);
      SetOwnedSize(s, m, l, s.owner - {r});
      SetOwnedDistinct(s, m, l, s.owner - {r});
      GoodParts(u, multiset(ids));
      RefAllLkFrame(u, ids, Rank(Member));
      DistinctEvolves(u, RefAllLk(u, ids));
    }
  }
}
