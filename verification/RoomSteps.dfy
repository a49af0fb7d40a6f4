/**
 What each step makes of a room, in terms of who sits in it, its timer and the request to its
 router, whatever way the step goes about it.
 */
module RoomSteps {
  import opened RoomProtocol

  /** The row afterwards has the members before that satisfy `stays`, and `more`. */
  ghost predicate Row(before: seq<Seat>, after: seq<Seat>, stays: Seat -> bool, more: set<Seat>) {
    InRow(after) && forall x :: x in after <==> (x in before && stays(x)) || x in more
  }

  /** Leaving, or what takes a seat away: the timer is started exactly if nobody is left and the
      room is not watched yet. */
  predicate TimerAfter(r: Room, t: Room, emptied: bool, scheduled: bool) {
    if emptied && !r.pending then
      if scheduled then t.timers == r.timers + 1 && t.pending && !t.unscheduled
      else t.timers == r.timers && !t.pending && t.unscheduled
    else t.timers == r.timers && t.pending == r.pending && t.unscheduled == r.unscheduled
  }

  lemma {:induction false} UnlinkedEmpty(l: seq<Seat>, id: nat)
    requires InRow(l) && Seated(l, id)
    ensures Unlinked(l, id) == [] <==> |l| == 1
  {
    if |l| > 1 && l[0].id != id {
      assert |Unlinked(l, id)| >= 1;
    }
  }

  /** A join: an earlier seat of the user is given up, everybody else stays, the new member comes
      last with the next number. */
  lemma JoinMeans(r: Room, user: int, scheduled: bool)
    requires Inv(r)
    ensures var t := Apply(r, Joins(user, scheduled));
      && Row(r.members, t.members, (x: Seat) => x.user != user, {Seat(r.next, user)})
      && t.members != [] && t.members[|t.members| - 1] == Seat(r.next, user)
      && t.next == r.next + 1 && t.open == r.open && t.inFlight == r.inFlight
      && TimerAfter(r, t, |r.members| == 1 && r.members[0].user == user, scheduled)
  {
    hide InRow, Unlinked;
    JoinedInv(r, user, scheduled);
    var i := FirstOf(r.members, user);
    if i < |r.members| {
      var id := r.members[i].id;
      assert Seated(r.members, id);
      UnlinkedRow(r.members, id);
      UnlinkedEmpty(r.members, id);
      OnlyOne(r.members, i);
      OnlyUser(r.members, i);
    }
  }

  lemma OnlyUser(l: seq<Seat>, i: nat)
    requires InRow(l) && i < |l|
    ensures forall x :: x in l ==> (x.user == l[i].user <==> x.id == l[i].id)
  {
    forall x | x in l ensures x.user == l[i].user <==> x.id == l[i].id {
      var j :| 0 <= j < |l| && l[j] == x;
      assert j < i ==> Apart(l[j], l[i]);
      assert i < j ==> Apart(l[i], l[j]);
    }
  }

  /** A departure takes one member away and nobody else. */
  lemma LeaveMeans(r: Room, id: nat, scheduled: bool)
    requires Inv(r)
    ensures var t := Apply(r, Leaves(id, scheduled));
      if forall x :: x in r.members ==> x.id != id then t == r
      else
        && Row(r.members, t.members, (x: Seat) => x.id != id, {})
        && t.next == r.next && t.open == r.open && t.inFlight == r.inFlight
        && TimerAfter(r, t, |r.members| == 1, scheduled)
  {
    hide InRow, Unlinked;
    if Seated(r.members, id) {
      UnlinkedRow(r.members, id);
      UnlinkedEmpty(r.members, id);
    }
  }

  /** The timer asks the router of an empty room to close, and stands down in an occupied one. */
  lemma TimerMeans(r: Room)
    ensures var t := Apply(r, TimerFires);
      && t.members == r.members && t.next == r.next && t.open == r.open && t.unscheduled == r.unscheduled
      && (r.timers == 0 ==> t == r)
      && (r.timers > 0 ==> t.timers == r.timers - 1)
      && (r.timers > 0 && r.members == [] ==> t.inFlight && t.pending == r.pending)
      && (r.timers > 0 && r.members != [] ==> t.inFlight == r.inFlight && !t.pending)
  {
  }

  /** When the router closes, everybody leaves and the request is answered. */
  lemma RouterMeans(r: Room, scheduled: bool)
    requires Inv(r)
    ensures var t := Apply(r, RouterCloses(scheduled));
      if !r.open then t == r
      else
        && t.members == [] && t.next == r.next && !t.open && !t.inFlight
        && TimerAfter(r, t, r.members != [], scheduled)
  {
    hide InRow, Unlinked, Emptied;
    if r.open { EmptiedMeans(r.(open := false), scheduled); }
  }

  lemma {:induction false} EmptiedMeans(r: Room, scheduled: bool)
    requires Seating(r) && Watch(r) && !r.open
    ensures var t := Emptied(r, scheduled);
      && t.members == [] && t.next == r.next && !t.open && t.inFlight == r.inFlight
      && TimerAfter(r, t, r.members != [], scheduled)
    decreases |r.members|
  {
    hide InRow, Unlinked;
    if r.members != [] {
      var id := r.members[0].id;
      assert Seated(r.members, id);
      MemberClosedInv(r, id, scheduled);
      UnlinkedRow(r.members, id);
      UnlinkedEmpty(r.members, id);
      Shorter(r.members);
      EmptiedMeans(MemberClosed(r, id, scheduled), scheduled);
    }
  }

  lemma Shorter(l: seq<Seat>)
    requires l != []
    ensures |Unlinked(l, l[0].id)| < |l|
  {
  }

  // ---------------------------------------------------------------- over whole runs

  lemma RunLast(user: int, steps: seq<Step>, n: nat)
    requires n < |steps|
    ensures Run(Created(user), steps[..n + 1]) == Apply(Run(Created(user), steps[..n]), steps[n])
  {
    assert steps[..n + 1][..n] == steps[..n];
  }

  /** The router is asked to close by the timer only, and only when nobody is in the room. */
  lemma OnlyEmptyRoomsAreGivenUp(user: int, steps: seq<Step>, n: nat)
    requires n < |steps|
    requires !Run(Created(user), steps[..n]).inFlight && Run(Created(user), steps[..n + 1]).inFlight
    ensures steps[n] == TimerFires && Run(Created(user), steps[..n]).members == []
  {
    hide Inv, Apply, Run, Row;
    var r := Run(Created(user), steps[..n]);
    RunLast(user, steps, n);
    RunInv(user, steps[..n]);
    match steps[n] {
      case Joins(u, scheduled) => JoinMeans(r, u, scheduled);
      case Leaves(id, scheduled) => LeaveMeans(r, id, scheduled);
      case TimerFires => TimerMeans(r);
      case RouterCloses(scheduled) => RouterMeans(r, scheduled);
    }
  }

  /** A timer that fires on an occupied room leaves no trace, and the next departure of its last
      member starts another one. */
  lemma OccupiedRoomStays(user: int, steps: seq<Step>, id: nat)
    requires var r := Run(Created(user), steps); r.open && r.members != [] && r.timers > 0
    ensures var r := Run(Created(user), steps); var t := Apply(r, TimerFires);
      && t.members == r.members && t.open && !t.inFlight && !t.pending && t.timers == 0
      && (|t.members| == 1 && t.members[0].id == id ==>
            var v := Apply(t, Leaves(id, true)); v.members == [] && v.timers == 1 && v.pending)
  {
    hide Apply, Run, InRow;
    var r := Run(Created(user), steps);
    RunInv(user, steps);
    TimerMeans(r);
    StepInv(r, TimerFires);
    var t := Apply(r, TimerFires);
    LeaveMeans(t, id, true);
    if |t.members| == 1 && t.members[0].id == id {
      assert t.members[0] in t.members;
      NobodyElse(t.members, Apply(t, Leaves(id, true)).members, id);
    }
  }

  lemma NobodyElse(l: seq<Seat>, m: seq<Seat>, id: nat)
    requires |l| == 1 && l[0].id == id && Row(l, m, (x: Seat) => x.id != id, {})
    ensures m == []
  {
    forall x ensures x !in m { assert x in l ==> x == l[0]; }
    SomeIn(m);
  }

  lemma SomeIn(m: seq<Seat>)
    ensures m != [] ==> exists x :: x in m
  {
    if m != [] { assert m[0] in m; }
  }

  /** In any reachable open room that is not being watched, the departure of the last member starts
      the timer. */
  lemma LastDeparture(user: int, steps: seq<Step>, id: nat)
    requires var r := Run(Created(user), steps);
      r.open && |r.members| == 1 && r.members[0].id == id && r.timers == 0 && !r.inFlight
    ensures var t := Apply(Run(Created(user), steps), Leaves(id, true)); t.members == [] && t.timers == 1 && t.pending && t.open
  {
    hide Apply, Run, InRow;
    var r := Run(Created(user), steps);
    RunInv(user, steps);
    LeaveMeans(r, id, true);
    assert r.members[0] in r.members;
    NobodyElse(r.members, Apply(r, Leaves(id, true)).members, id);
  }
}
