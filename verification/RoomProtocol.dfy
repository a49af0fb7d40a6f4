/**
 Who sits in a room and when an empty room is given up (src/rct/rct_room.c).

 The last member to leave starts an idle timer; when it fires and the room is still empty,
 the router of the room is asked to close, which in the end closes the room. The timer, the
 request in flight and the outcome of scheduling belong to the surroundings: each step says
 what they did.
 */
module RoomProtocol {

  /** A member; `id` grows with every join. */
  datatype Seat = Seat(id: nat, user: int)

  datatype Room = Room(
    members: seq<Seat>,
    next: nat,           // id of the next member
    pending: bool,       // close_pending_task
    timers: nat,         // idle timers of this room that have been scheduled and have not fired
    inFlight: bool,      // the router was asked to close and has not closed yet
    open: bool,
    unscheduled: bool    // the scheduler refused the timer when the room last became empty
  )

  datatype Step =
    | Joins(user: int, scheduled: bool)
    | Leaves(id: nat, scheduled: bool)
    | TimerFires
    | RouterCloses(scheduled: bool)

  // ---------------------------------------------------------------- the list of members

  predicate Seated(l: seq<Seat>, id: nat) {
    exists x :: x in l && x.id == id
  }

  /** Unlinks the member `id`. */
  function Unlinked(l: seq<Seat>, id: nat): (r: seq<Seat>)
    ensures forall x :: x in r ==> x in l
  {
    if l == [] then [] else if l[0].id == id then l[1..] else [l[0]] + Unlinked(l[1..], id)
  }

  /** The first member that belongs to `user`. */
  function FirstOf(l: seq<Seat>, user: int): (i: nat)
    ensures i <= |l| && (i < |l| ==> l[i].user == user)
    ensures forall j :: 0 <= j < i ==> l[j].user != user
  {
    if l == [] then 0 else if l[0].user == user then 0 else
      var j := FirstOf(l[1..], user);
      j + 1
  }

  // ---------------------------------------------------------------- the steps

  /** _member_close_lk */
  function MemberClosed(r: Room, id: nat, scheduled: bool): Room {
    var r1 := r.(members := Unlinked(r.members, id));
    if r1.members == [] && !r1.pending then
      if scheduled then r1.(pending := true, timers := r1.timers + 1, unscheduled := false)
      else r1.(pending := false, unscheduled := true)
    else r1
  }

  /** _rct_room_join_lk: an earlier membership of the same user is closed first. */
  function Joined(r: Room, user: int, scheduled: bool): Room {
    var i := FirstOf(r.members, user);
    var r1 := if i < |r.members| then MemberClosed(r, r.members[i].id, scheduled) else r;
    r1.(members := r1.members + [Seat(r1.next, user)], next := r1.next + 1)
  }

  /** _room_close_if_no_members_task: the request to the router is sent with the flag still set. */
  function Fired(r: Room): Room {
    if r.timers == 0 then r
    else
      var r1 := r.(timers := r.timers - 1);
      if r1.members == [] then r1.(inFlight := true) else r1.(pending := false)
  }

  /** _rct_room_close_lk: the members are closed one by one from the front. */
  function Emptied(r: Room, scheduled: bool): Room
    decreases |r.members|
  {
    if r.members == [] then r
    else
      assert |Unlinked(r.members, r.members[0].id)| < |r.members|;
      Emptied(MemberClosed(r, r.members[0].id, scheduled), scheduled)
  }

  function Apply(r: Room, st: Step): Room {
    match st
    case Joins(user, scheduled) => Joined(r, user, scheduled)
    case Leaves(id, scheduled) => if Seated(r.members, id) then MemberClosed(r, id, scheduled) else r
    case TimerFires => Fired(r)
    case RouterCloses(scheduled) =>
      if r.open then Emptied(r.(open := false), scheduled).(inFlight := false) else r
  }

  /** A room begins with its first member. */
  function Created(user: int): Room {
    Room([Seat(0, user)], 1, false, 0, false, true, false)
  }

  function Run(r: Room, steps: seq<Step>): Room {
    if steps == [] then r else Apply(Run(r, steps[..|steps| - 1]), steps[|steps| - 1])
  }

  // ---------------------------------------------------------------- what every run keeps

  /** Members stand in the order in which they joined, each user once. */
  predicate Seating(r: Room) {
    InRow(r.members) && forall x :: x in r.members ==> x.id < r.next
  }

  predicate InRow(l: seq<Seat>) {
    forall i, j :: 0 <= i < j < |l| ==> Apart(l[i], l[j])
  }

  predicate Apart(x: Seat, y: Seat) {
    x.id < y.id && x.user != y.user
  }

  /** The flag says exactly that the room is being watched: by one timer, or by the request
      that the timer led to, never by both. */
  predicate Watch(r: Room) {
    && r.timers <= 1
    && !(r.timers == 1 && r.inFlight)
    && (r.open ==> (r.pending <==> r.timers == 1 || r.inFlight))
    && (r.timers == 1 || r.inFlight ==> r.pending)
  }

  /** An open room that nobody is in will be closed, unless the scheduler refused. */
  predicate NotForgotten(r: Room) {
    r.open && r.members == [] ==> r.timers == 1 || r.inFlight || r.unscheduled
  }

  predicate Inv(r: Room) {
    Seating(r) && Watch(r) && NotForgotten(r)
  }

  lemma RowTail(l: seq<Seat>)
    requires InRow(l) && l != []
    ensures InRow(l[1..]) && forall y :: y in l[1..] ==> Apart(l[0], y)
  {
    forall y | y in l[1..] ensures Apart(l[0], y) {
      var j :| 0 <= j < |l[1..]| && l[1..][j] == y;
      assert l[j + 1] == y;
    }
  }

  lemma RowCons(x: Seat, t: seq<Seat>)
    requires InRow(t) && forall y :: y in t ==> Apart(x, y)
    ensures InRow([x] + t)
  {
    var l := [x] + t;
    forall i, j | 0 <= i < j < |l| ensures Apart(l[i], l[j]) {
      assert l[j] == t[j - 1];
      if i > 0 { assert l[i] == t[i - 1]; }
    }
  }

  lemma RowSnoc(t: seq<Seat>, x: Seat)
    requires InRow(t) && forall y :: y in t ==> Apart(y, x)
    ensures InRow(t + [x])
  {
    var l := t + [x];
    forall i, j | 0 <= i < j < |l| ensures Apart(l[i], l[j]) {
      assert l[i] == t[i];
      if j < |t| { assert l[j] == t[j]; }
    }
  }

  /** Unlinking takes out the member and nobody else, and keeps the order. */
  lemma {:induction false} UnlinkedRow(l: seq<Seat>, id: nat)
    requires InRow(l)
    ensures InRow(Unlinked(l, id))
    ensures forall x :: x in Unlinked(l, id) <==> x in l && x.id != id
  {
    hide InRow;
    if l != [] {
      RowTail(l);
      UnlinkedRow(l[1..], id);
      assert l == [l[0]] + l[1..];
      if l[0].id != id {
        RowCons(l[0], Unlinked(l[1..], id));
      } else {
        forall x | x in l[1..] ensures x.id != id { assert Apart(l[0], x); }
        assert Unlinked(l, id) == l[1..];
      }
      forall x ensures x in Unlinked(l, id) <==> x in l && x.id != id {
        assert x in l <==> x == l[0] || x in l[1..];
      }
    }
  }

  lemma MemberClosedInv(r: Room, id: nat, scheduled: bool)
    requires Inv(r) || (Seating(r) && Watch(r) && !r.open)
    ensures var t := MemberClosed(r, id, scheduled);
      && t.members == Unlinked(r.members, id) && t.next == r.next && t.open == r.open && t.inFlight == r.inFlight
      && Seating(t) && Watch(t) && (Seated(r.members, id) ==> NotForgotten(t))
  {
    hide InRow;
    UnlinkedRow(r.members, id);
  }

  lemma JoinedInv(r: Room, user: int, scheduled: bool)
    requires Inv(r)
    ensures Inv(Joined(r, user, scheduled))
  {
    hide InRow, MemberClosed;
    var i := FirstOf(r.members, user);
    if i < |r.members| {
      var id := r.members[i].id;
      var r1 := MemberClosed(r, id, scheduled);
      MemberClosedInv(r, id, scheduled);
      UnlinkedRow(r.members, id);
      OnlyOne(r.members, i);
      RowSnoc(r1.members, Seat(r1.next, user));
    } else {
      RowSnoc(r.members, Seat(r.next, user));
    }
  }

  /** Nobody else in the row belongs to the user of seat `i`. */
  lemma OnlyOne(l: seq<Seat>, i: nat)
    requires InRow(l) && i < |l|
    ensures forall x :: x in l && x.id != l[i].id ==> x.user != l[i].user
  {
    forall x | x in l && x.id != l[i].id ensures x.user != l[i].user {
      var j :| 0 <= j < |l| && l[j] == x;
      assert j < i ==> Apart(l[j], l[i]);
      assert i < j ==> Apart(l[i], l[j]);
    }
  }

  lemma {:induction false} EmptiedInv(r: Room, scheduled: bool)
    requires Seating(r) && Watch(r) && !r.open
    ensures var t := Emptied(r, scheduled);
      Seating(t) && Watch(t) && t.members == [] && !t.open && t.next == r.next
    decreases |r.members|
  {
    hide MemberClosed, InRow;
    if r.members != [] {
      var id := r.members[0].id;
      MemberClosedInv(r, id, scheduled);
      EmptiedInv(MemberClosed(r, id, scheduled), scheduled);
    }
  }

  lemma StepInv(r: Room, st: Step)
    requires Inv(r)
    ensures Inv(Apply(r, st))
  {
    hide MemberClosed, InRow, Joined, Emptied;
    match st {
      case Joins(user, scheduled) => JoinedInv(r, user, scheduled);
      case Leaves(id, scheduled) => MemberClosedInv(r, id, scheduled);
      case TimerFires =>
      case RouterCloses(scheduled) => if r.open { EmptiedInv(r.(open := false), scheduled); }
    }
  }

  /** In every reachable state of a room: distinct users in join order, at most one idle timer,
      and an open room without members has its timer or its router's close under way, unless
      the scheduler refused the timer. */
  lemma {:induction false} RunInv(user: int, steps: seq<Step>)
    ensures Inv(Run(Created(user), steps))
  {
    if steps != [] {
      var pre := steps[..|steps| - 1];
      RunInv(user, pre);
      StepInv(Run(Created(user), pre), steps[|steps| - 1]);
    }
  }

  // ---------------------------------------------------------------- with a willing scheduler

  predicate Scheduled(st: Step) {
    match st
    case Joins(user, scheduled) => scheduled
    case Leaves(id, scheduled) => scheduled
    case TimerFires => true
    case RouterCloses(scheduled) => scheduled
  }

  lemma {:induction false} AlwaysScheduled(user: int, steps: seq<Step>)
    requires forall i :: 0 <= i < |steps| ==> Scheduled(steps[i])
    ensures !Run(Created(user), steps).unscheduled
  {
    hide Apply;
    if steps != [] {
      var pre := steps[..|steps| - 1];
      var r := Run(Created(user), pre);
      AlwaysScheduled(user, pre);
      ApplyScheduled(r, steps[|steps| - 1]);
    }
  }

  lemma {:induction false} EmptiedScheduled(r: Room)
    requires !r.unscheduled
    ensures !Emptied(r, true).unscheduled
    decreases |r.members|
  {
    if r.members != [] {
      assert |Unlinked(r.members, r.members[0].id)| < |r.members|;
      EmptiedScheduled(MemberClosed(r, r.members[0].id, true));
    }
  }

  lemma ApplyScheduled(r: Room, st: Step)
    requires !r.unscheduled && Scheduled(st)
    ensures !Apply(r, st).unscheduled
  {
    if st.RouterCloses? { EmptiedScheduled(r.(open := false)); }
  }

  /** Once the router was asked to close, the request stands until the router answers, whoever
      joins or leaves meanwhile. */
  lemma {:induction false} RequestStands(r: Room, later: seq<Step>)
    requires r.open && r.inFlight && forall st :: st in later ==> !st.RouterCloses?
    ensures Run(r, later).open && Run(r, later).inFlight
  {
    if later != [] {
      var pre := later[..|later| - 1];
      assert later[|later| - 1] in later;
      RequestStands(r, pre);
    }
  }

  lemma {:induction false} EmptiedAll(r: Room, scheduled: bool)
    ensures Emptied(r, scheduled).members == [] && Emptied(r, scheduled).open == r.open
    decreases |r.members|
  {
    if r.members != [] {
      assert |Unlinked(r.members, r.members[0].id)| < |r.members|;
      EmptiedAll(MemberClosed(r, r.members[0].id, scheduled), scheduled);
    }
  }

  /** A room that everybody has left goes away: the timer asks its router to close, and nothing
      that happens until the router answers takes that back. When it answers, the room is closed
      and whoever joined in between has left. */
  lemma EmptyRoomGoesAway(user: int, steps: seq<Step>, later: seq<Step>, scheduled: bool)
    requires forall i :: 0 <= i < |steps| ==> Scheduled(steps[i])
    requires Run(Created(user), steps).open && Run(Created(user), steps).members == []
    requires forall st :: st in later ==> !st.RouterCloses?
    ensures var t := Run(Apply(Run(Created(user), steps), TimerFires), later);
      && t.open && t.inFlight
      && Apply(t, RouterCloses(scheduled)).members == [] && !Apply(t, RouterCloses(scheduled)).open
  {
    hide MemberClosed, Inv, InRow, Run, Emptied;
    var r := Run(Created(user), steps);
    RunInv(user, steps);
    AlwaysScheduled(user, steps);
    Watched(r);
    var t := Run(Apply(r, TimerFires), later);
    RequestStands(Apply(r, TimerFires), later);
    EmptiedAll(t.(open := false), scheduled);
  }

  lemma Watched(r: Room)
    requires Inv(r) && r.open && r.members == [] && !r.unscheduled
    ensures r.timers == 1 || r.inFlight
  {
  }

  /** When the scheduler refuses, the room is forgotten until somebody comes and goes again. */
  lemma RefusedTimerForgets()
    ensures var r := Run(Created(7), [Leaves(0, false)]);
      r.open && r.members == [] && r.timers == 0 && !r.inFlight
  {
    var steps := [Leaves(0, false)];
    assert steps[..0] == [];
    assert Run(Created(7), steps) == Apply(Run(Created(7), []), steps[0]);
    assert Created(7).members[0].id == 0;
  }

  // ---------------------------------------------------------------- in place

  /** The room as the program updates it. */
  class RoomObject {
    var room: Room

    constructor (user: int)
      ensures room == Created(user) && Inv(room)
    {
      room := Created(user);
    }

    /** _member_close_lk: the pointer walk that unlinks, then the timer. */
    method MemberClose(id: nat, scheduled: bool)
      modifies this
      ensures room == MemberClosed(old(room), id, scheduled)
    {
      Unlink(id);
      if room.members == [] && !room.pending {
        room := room.(pending := true);
        if scheduled {
          room := room.(timers := room.timers + 1, unscheduled := false);
        } else {
          room := room.(pending := false, unscheduled := true);
        }
      }
    }

    method Unlink(id: nat)
      modifies this
      ensures room == old(room).(members := Unlinked(old(room.members), id))
    {
      var l := room.members;
      var i := 0;
      while i < |l| && l[i].id != id
        invariant 0 <= i <= |l| && !Seated(l[..i], id) && room == old(room)
      {
        NotSeatedMore(l, i, id);
        i := i + 1;
      }
      UnlinkedAt(l, i, id);
      if i < |l| { room := room.(members := l[..i] + l[i + 1..]); }
    }

    /** _rct_room_join_lk */
    method Join(user: int, scheduled: bool)
      requires Inv(room)
      modifies this
      ensures room == Joined(old(room), user, scheduled) && Inv(room)
    {
      hide MemberClosed, Inv;
      JoinedInv(room, user, scheduled);
      var l := room.members;
      var i := FindUser(user);
      if i < |l| { MemberClose(l[i].id, scheduled); }
      room := room.(members := room.members + [Seat(room.next, user)], next := room.next + 1);
    }

    /** The walk that looks for an earlier seat of the user. */
    method FindUser(user: int) returns (i: nat)
      ensures i == FirstOf(room.members, user)
    {
      var l := room.members;
      i := 0;
      while i < |l| && l[i].user != user
        invariant 0 <= i <= |l| && FirstOf(l, user) == i + FirstOf(l[i..], user)
      {
        assert l[i..][1..] == l[i + 1..];
        i := i + 1;
      }
    }

    /** _room_close_if_no_members_task */
    method TimerTask()
      requires Inv(room) && room.timers > 0
      modifies this
      ensures room == Fired(old(room)) && Inv(room)
    {
      StepInv(room, TimerFires);
      room := room.(timers := room.timers - 1);
      if room.members == [] {
        room := room.(inFlight := true);
      } else {
        room := room.(pending := false);
      }
    }

    /** The router closed: every member is closed in turn. */
    method RouterClosed(scheduled: bool)
      requires Inv(room)
      modifies this
      ensures room == Apply(old(room), RouterCloses(scheduled)) && Inv(room)
    {
      hide MemberClosed;
      StepInv(room, RouterCloses(scheduled));
      if room.open {
        room := room.(open := false);
        ghost var start := room;
        while room.members != []
          invariant Emptied(start, scheduled) == Emptied(room, scheduled)
          decreases |room.members|
        {
          assert |Unlinked(room.members, room.members[0].id)| < |room.members|;
          ghost var before := room;
          MemberClose(room.members[0].id, scheduled);
          ClosedMembers(before, before.members[0].id, scheduled);
        }
        room := room.(inFlight := false);
      }
    }
  }

  lemma NotSeatedMore(l: seq<Seat>, i: nat, id: nat)
    requires i < |l| && !Seated(l[..i], id) && l[i].id != id
    ensures !Seated(l[..i + 1], id)
  {
    assert l[..i + 1] == l[..i] + [l[i]];
  }

  lemma {:induction false} UnlinkedAt(l: seq<Seat>, i: nat, id: nat)
    requires i <= |l| && !Seated(l[..i], id) && (i < |l| ==> l[i].id == id)
    ensures i < |l| ==> Unlinked(l, id) == l[..i] + l[i + 1..]
    ensures i == |l| ==> Unlinked(l, id) == l
  {
    if i > 0 {
      var t := l[1..];
      assert l[..i] == [l[0]] + t[..i - 1];
      assert l[0] in l[..i];
      UnlinkedAt(t, i - 1, id);
      if i < |l| { assert [l[0]] + (t[..i - 1] + t[i..]) == l[..i] + l[i + 1..]; }
    }
  }

  lemma ClosedMembers(r: Room, id: nat, scheduled: bool)
    ensures MemberClosed(r, id, scheduled).members == Unlinked(r.members, id)
  {
  }
}
