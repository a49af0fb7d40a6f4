/**
 What becomes of submitted tasks: what is in the queue is what was submitted, in that order; how
 a task ended is what its handler said of it; and a worker that is left alone deals with all of
 them up to the first one that is postponed.
 */
module TaskOutcomes {
  import opened TaskQueue

  // ---------------------------------------------------------------- submissions

  datatype Submission = Submission(id: int, kind: Option<int>)

  /** The tasks that were submitted with a kind that has a handler. */
  function Submitted(steps: seq<Step>, handled: set<int>): seq<Submission> {
    if steps == [] then []
    else
      var last := steps[|steps| - 1];
      Submitted(steps[..|steps| - 1], handled) +
      if last.Submit? && last.kind in handled then [Submission(last.id, Some(last.kind))] else []
  }

  function Present(tasks: seq<Task>): (r: seq<Submission>)
    ensures |r| == |tasks| && forall i :: 0 <= i < |r| ==> r[i].id == tasks[i].id && r[i].kind == tasks[i].kind
  {
    if tasks == [] then []
    else Present(tasks[..|tasks| - 1]) + [Submission(tasks[|tasks| - 1].id, tasks[|tasks| - 1].kind)]
  }

  lemma SamePresent(a: seq<Task>, b: seq<Task>)
    requires |a| == |b| && forall i :: 0 <= i < |a| ==> a[i].id == b[i].id && a[i].kind == b[i].kind
    ensures Present(a) == Present(b)
  {
    forall i | 0 <= i < |a| ensures Present(a)[i] == Present(b)[i] {}
  }

  /** The queue holds what it held at the start and then, in order, every task that was submitted
      with a kind that has a handler, each with its id and kind. */
  lemma {:induction false} QueueIsSubmissions(s: State, handled: set<int>, steps: seq<Step>)
    ensures Present(Run(s, handled, steps).tasks) == Present(s.tasks) + Submitted(steps, handled)
  {
    hide Present, Apply;
    if steps != [] {
      var n := |steps| - 1;
      var pre := steps[..n];
      QueueIsSubmissions(s, handled, pre);
      PresentStep(Run(s, handled, pre), handled, steps[n]);
      var more := if steps[n].Submit? && steps[n].kind in handled then [Submission(steps[n].id, Some(steps[n].kind))] else [];
      assert Submitted(steps, handled) == Submitted(pre, handled) + more;
      assert (Present(s.tasks) + Submitted(pre, handled)) + more == Present(s.tasks) + (Submitted(pre, handled) + more);
    }
  }

  lemma PresentStep(r: State, handled: set<int>, st: Step)
    ensures Present(Apply(r, handled, st).tasks) ==
      Present(r.tasks) + if st.Submit? && st.kind in handled then [Submission(st.id, Some(st.kind))] else []
  {
    hide Visit, Find;
    var t := Apply(r, handled, st);
    if st.Submit? && st.kind in handled {
      assert t.tasks[..|r.tasks|] == r.tasks;
    } else {
      SamePresent(t.tasks, r.tasks);
    }
  }

  // ---------------------------------------------------------------- outcomes

  /** At this step the task `id` was answered with `status` by its handler, or found to be of a kind
      that has none. */
  predicate EndsWith(r: State, handled: set<int>, st: Step, id: int, kind: Option<int>, status: int) {
    || (st == Answer(status) && status != 0 && r.worker.Handling? && r.worker.current == id)
    || (st == Take && status == -1 && (kind.None? || kind.value !in handled)
        && r.worker.Working? && r.worker.pending != [] && r.worker.pending[|r.worker.pending| - 1] == id)
  }

  /** What one step does to the statuses: at most the first unfinished task gets one. */
  lemma StatusStep(r: State, k0: nat, k: nat, handled: set<int>, st: Step, i: nat)
    requires TaskQueue.Inv(r, k0, k) && i < |r.tasks|
    ensures var t := Apply(r, handled, st);
      && i < |t.tasks| && t.tasks[i].id == r.tasks[i].id && t.tasks[i].kind == r.tasks[i].kind
      && (t.tasks[i].status != r.tasks[i].status ==>
            i == k && EndsWith(r, handled, st, r.tasks[i].id, r.tasks[i].kind, t.tasks[i].status))
  {
    hide Reverse, Ids, Visit;
    var t := Apply(r, handled, st);
    if st.Take? && r.worker.Working? {
      LastPending(r.tasks, k, r.worker.pending);
      FindIs(r.tasks, k);
      if r.tasks[i].id == r.tasks[k].id { SameId(r.tasks, i, k); }
    } else if st.Answer? && r.worker.Handling? {
      CurrentIs(r, k0, k);
      if r.tasks[i].id == r.tasks[k].id { SameId(r.tasks, i, k); }
    }
  }

  ghost predicate Ended(s: State, handled: set<int>, steps: seq<Step>, n: nat, id: int, kind: Option<int>, status: int) {
    n < |steps| && EndsWith(Run(s, handled, steps[..n]), handled, steps[n], id, kind, status)
  }

  /** A task that was not finished at the start has the status that its handler answered, or -1
      because its kind has no handler. */
  lemma {:induction false} StatusIsOutcome(s: State, k0: nat, handled: set<int>, steps: seq<Step>, i: nat)
    requires Start(s, k0) && RunOk(s, handled, steps) && k0 <= i < |Run(s, handled, steps).tasks|
    requires Run(s, handled, steps).tasks[i].status != 0
    ensures var t := Run(s, handled, steps).tasks[i]; exists n: nat :: Ended(s, handled, steps, n, t.id, t.kind, t.status)
  {
    hide Apply, Start, Inv, EndsWith, Assumed;
    if steps == [] {
      NothingEnded(s, k0, i);
    } else {
      var m := |steps| - 1;
      var pre := steps[..m];
      OkPrefix(s, handled, steps);
      var r := Run(s, handled, pre);
      var k := TaskQueue.RunInv(s, k0, handled, pre);
      if i < |r.tasks| && Apply(r, handled, steps[m]).tasks[i].status == r.tasks[i].status {
        StatusStep(r, k0, k, handled, steps[m], i);
        StatusIsOutcome(s, k0, handled, pre, i);
        var n: nat :| Ended(s, handled, pre, n, r.tasks[i].id, r.tasks[i].kind, r.tasks[i].status);
        assert pre[..n] == steps[..n];
        assert Ended(s, handled, steps, n, r.tasks[i].id, r.tasks[i].kind, r.tasks[i].status);
      } else if i < |r.tasks| {
        StatusStep(r, k0, k, handled, steps[m], i);
        var t := Run(s, handled, steps).tasks[i];
        assert Ended(s, handled, steps, m, t.id, t.kind, t.status);
      } else {
        NewIsOpen(r, handled, steps[m], i);
      }
    }
  }

  lemma OkPrefix(s: State, handled: set<int>, steps: seq<Step>)
    requires RunOk(s, handled, steps) && steps != []
    ensures RunOk(s, handled, steps[..|steps| - 1])
  {
    hide Run, Assumed;
    var p := steps[..|steps| - 1];
    forall n | 0 <= n < |p| ensures Assumed(Run(s, handled, p[..n]), p[n]) { assert p[..n] == steps[..n]; }
  }

  lemma NothingEnded(s: State, k0: nat, i: nat)
    requires Start(s, k0) && k0 <= i < |s.tasks|
    ensures s.tasks[i].status == 0
  {
  }

  lemma NewIsOpen(r: State, handled: set<int>, st: Step, i: nat)
    requires |r.tasks| <= i < |Apply(r, handled, st).tasks|
    ensures Apply(r, handled, st).tasks[i].status == 0
  {
    hide Visit, Find;
  }

  /** What is finished stays as it is. */
  lemma {:induction false} FinishedStays(s: State, k0: nat, handled: set<int>, steps: seq<Step>, n: nat, i: nat)
    requires Start(s, k0) && RunOk(s, handled, steps) && n <= |steps| && i < |Run(s, handled, steps[..n]).tasks|
    requires Run(s, handled, steps[..n]).tasks[i].status != 0
    ensures i < |Run(s, handled, steps).tasks| && Run(s, handled, steps).tasks[i] == Run(s, handled, steps[..n]).tasks[i]
    decreases |steps|
  {
    hide Apply, Start, Assumed;
    if n == |steps| {
      assert steps[..n] == steps;
    } else {
      var m := |steps| - 1;
      var pre := steps[..m];
      OkPrefix(s, handled, steps);
      assert pre[..n] == steps[..n];
      FinishedStays(s, k0, handled, pre, n, i);
      var k := TaskQueue.RunInv(s, k0, handled, pre);
      StatusStep(Run(s, handled, pre), k0, k, handled, steps[m], i);
    }
  }

  // ---------------------------------------------------------------- what a step of the worker does

  function AllButLast(l: seq<int>): (r: seq<int>)
    requires l != []
    ensures |r| == |l| - 1 && forall i :: 0 <= i < |r| ==> r[i] == l[i]
  {
    l[..|l| - 1]
  }

  /** The worker goes on with what is pending, and looks at the queue again when nothing is. */
  predicate GoesOn(w: Worker, pending: seq<int>) {
    (w == Scanning && pending == []) || (w == Working(pending) && pending != [])
  }

  /** A step that is out of place changes nothing; waking starts a search, and a shutdown stops the worker
      between two tasks. */
  lemma OutOfPlace(r: State, handled: set<int>, status: int)
    ensures Apply(r, handled, Wake) == if r.worker == Idle then State(r.tasks, Scanning, r.log) else r
    ensures Apply(r, handled, Shutdown) == if r.worker.Working? then State(r.tasks, Idle, r.log) else r
    ensures !r.worker.Scanning? ==> Apply(r, handled, Scan) == r
    ensures !r.worker.Working? ==> Apply(r, handled, Take) == r
    ensures !r.worker.Handling? ==> Apply(r, handled, Answer(status)) == r
  {
  }

  /** The worker takes the oldest unfinished task: it goes to its handler, or is marked as failed
      if it has none. */
  lemma TakeMeans(r: State, k0: nat, k: nat, handled: set<int>)
    requires TaskQueue.Inv(r, k0, k) && r.worker.Working?
    ensures k < |r.tasks| && r.tasks[k].status == 0
    ensures var t := Apply(r, handled, Take); var x := r.tasks[k];
      if x.kind.Some? && x.kind.value in handled then
        t.worker == Handling(AllButLast(r.worker.pending), x.id) && t.tasks == r.tasks && t.log == r.log
      else t.tasks == r.tasks[k := Task(x.id, x.kind, -1)] && t.log == r.log + [x.id] && GoesOn(t.worker, AllButLast(r.worker.pending))
  {
    hide Reverse, Ids, Visit, Split;
    LastPending(r.tasks, k, r.worker.pending);
    FindIs(r.tasks, k);
    FirstOpen(r.tasks, k);
    UpdateOne(r.tasks, k, -1);
  }

  lemma FirstOpen(tasks: seq<Task>, k: nat)
    requires Split(tasks, k) && k < |tasks|
    ensures tasks[k].status == 0
  {
  }

  lemma UpdateOne(tasks: seq<Task>, k: nat, status: int)
    requires Sorted(tasks) && k < |tasks|
    ensures Update(tasks, tasks[k].id, status) == tasks[k := Task(tasks[k].id, tasks[k].kind, status)]
  {
    var u := Update(tasks, tasks[k].id, status);
    forall i | 0 <= i < |tasks| ensures u[i] == tasks[k := Task(tasks[k].id, tasks[k].kind, status)][i] {
      if tasks[i].id == tasks[k].id { SameId(tasks, i, k); }
    }
  }

  /** The handler's answer is the status of its task and of no other; the answer 0 leaves the task
      for later and sends the worker to rest. */
  lemma AnswerMeans(r: State, k0: nat, k: nat, handled: set<int>, status: int)
    requires TaskQueue.Inv(r, k0, k) && r.worker.Handling?
    ensures k < |r.tasks| && r.worker.current == r.tasks[k].id
    ensures var t := Apply(r, handled, Answer(status)); var x := r.tasks[k];
      if status == 0 then t.tasks == r.tasks && t.log == r.log && t.worker == Idle
      else t.tasks == r.tasks[k := Task(x.id, x.kind, status)] && t.log == r.log + [x.id] && GoesOn(t.worker, r.worker.pending)
  {
    hide Reverse, Ids, Visit, Split;
    CurrentIs(r, k0, k);
    UpdateOne(r.tasks, k, status);
  }

  // ---------------------------------------------------------------- a worker that is left alone

  lemma {:induction false} RunTwice(s: State, handled: set<int>, a: seq<Step>, b: seq<Step>)
    ensures Run(s, handled, a + b) == Run(Run(s, handled, a), handled, b)
    decreases |b|
  {
    if b == [] {
      assert a + b == a;
    } else {
      var n := |b| - 1;
      assert (a + b)[..|a + b| - 1] == a + b[..n];
      RunTwice(s, handled, a, b[..n]);
    }
  }

  lemma RunOne(s: State, handled: set<int>, st: Step)
    ensures Run(s, handled, [st]) == Apply(s, handled, st)
  {
    assert [st][..0] == [];
  }

  predicate NoSubmit(steps: seq<Step>) {
    forall st :: st in steps ==> !st.Submit?
  }

  lemma {:induction false} Unsubmitted(s: State, handled: set<int>, steps: seq<Step>)
    requires NoSubmit(steps)
    ensures RunOk(s, handled, steps)
  {
    hide Run;
    forall n | 0 <= n < |steps| ensures Assumed(Run(s, handled, steps[..n]), steps[n]) { assert steps[n] in steps; }
  }

  /** From a working or searching worker on. */
  lemma {:induction false} WorkFrom(r: State, k0: nat, k: nat, handled: set<int>, handler: Task -> int) returns (steps: seq<Step>)
    requires TaskQueue.Inv(r, k0, k) && (r.worker.Scanning? || (r.worker.Working? && k + |r.worker.pending| == |r.tasks|))
    ensures NoSubmit(steps) && Run(r, handled, steps).worker == Idle
    ensures Run(r, handled, steps).tasks == Drained(r.tasks, k, handled, handler)
    decreases |r.tasks| - k, if r.worker.Scanning? then 2 else 0
  {
    hide Visit, Reverse, Ids, Sorted, Split, Drained, Run, Update, Find, Inv, Apply;
    Limits(r, k0, k);
    DrainStep(r.tasks, k, handled, handler);
    if r.worker.Scanning? {
      steps := FromScan(r, k0, k, handled, handler);
    } else {
      TakeMeans(r, k0, k, handled);
      var t := Apply(r, handled, Take);
      var k1 := StepInv(r, k0, k, handled, Take);
      RunOne(r, handled, Take);
      var x := r.tasks[k];
      if x.kind.Some? && x.kind.value in handled {
        var status := handler(x);
        TakeStays(r, k0, k, handled);
        AnswerMeans(t, k0, k, handled, status);
        RunOne(t, handled, Answer(status));
        RunTwice(r, handled, [Take], [Answer(status)]);
        var u := Apply(t, handled, Answer(status));
        if status == 0 {
          steps := [Take] + [Answer(status)];
        } else {
          AnswerMoves(t, k0, k, handled, status);
          var rest := WorkFrom(u, k0, k + 1, handled, handler);
          steps := ([Take] + [Answer(status)]) + rest;
          RunTwice(r, handled, [Take] + [Answer(status)], rest);
          assert u.tasks == r.tasks[k := x.(status := status)];
        }
      } else {
        TakeMoves(r, k0, k, handled);
        var rest := WorkFrom(t, k0, k + 1, handled, handler);
        steps := [Take] + rest;
        RunTwice(r, handled, [Take], rest);
        assert t.tasks == r.tasks[k := x.(status := -1)];
      }
    }
  }

  lemma {:induction false} FromScan(r: State, k0: nat, k: nat, handled: set<int>, handler: Task -> int) returns (steps: seq<Step>)
    requires TaskQueue.Inv(r, k0, k) && r.worker.Scanning?
    ensures NoSubmit(steps) && Run(r, handled, steps).worker == Idle
    ensures Run(r, handled, steps).tasks == Drained(r.tasks, k, handled, handler)
    decreases |r.tasks| - k, 1
  {
    hide Visit, Reverse, Ids, Sorted, Split, Drained, Run, Update, Find, Inv, Apply;
    Limits(r, k0, k);
    DrainStep(r.tasks, k, handled, handler);
    ScanMeans(r, k0, k, handled);
    var t := Apply(r, handled, Scan);
    RunOne(r, handled, Scan);
    if k == |r.tasks| {
      steps := [Scan];
    } else {
      var rest := WorkFrom(t, k0, k, handled, handler);
      steps := [Scan] + rest;
      RunTwice(r, handled, [Scan], rest);
    }
  }

  lemma Limits(r: State, k0: nat, k: nat)
    requires TaskQueue.Inv(r, k0, k)
    ensures k <= |r.tasks|
  {
  }

  /** Looking at the queue finds all that is unfinished, oldest last, or sends the worker to rest. */
  lemma ScanMeans(r: State, k0: nat, k: nat, handled: set<int>)
    requires TaskQueue.Inv(r, k0, k) && r.worker.Scanning?
    ensures k <= |r.tasks|
    ensures var t := Apply(r, handled, Scan);
      && t.tasks == r.tasks && t.log == r.log && TaskQueue.Inv(t, k0, k)
      && (if k == |r.tasks| then t.worker == Idle
          else t.worker == Working(Reverse(Ids(r.tasks[k..]))) && k + |t.worker.pending| == |t.tasks|)
  {
    hide Visit, Reverse, Ids, Sorted, Split;
    Bounded(r.tasks, k);
    VisitIs(r.tasks, k);
    var k1 := StepInv(r, k0, k, handled, Scan);
    ScanKeeps(r, k0, k);
    if k == |r.tasks| { assert r.tasks[k..] == []; NothingListed(); }
  }

  lemma TakeStays(r: State, k0: nat, k: nat, handled: set<int>)
    requires TaskQueue.Inv(r, k0, k) && r.worker.Working? && k + |r.worker.pending| == |r.tasks| && k < |r.tasks|
    requires r.tasks[k].kind.Some? && r.tasks[k].kind.value in handled
    ensures var t := Apply(r, handled, Take);
      TaskQueue.Inv(t, k0, k) && t.worker.Handling? && t.worker.pending == r.worker.pending[..|r.worker.pending| - 1]
  {
    hide Visit, Reverse, Ids, Sorted, Split, Update;
    LastPending(r.tasks, k, r.worker.pending);
    FindIs(r.tasks, k);
    var p := r.worker.pending;
    assert p == p[..|p| - 1] + [p[|p| - 1]];
  }

  lemma AnswerMoves(t: State, k0: nat, k: nat, handled: set<int>, status: int)
    requires TaskQueue.Inv(t, k0, k) && t.worker.Handling? && status != 0 && k + 1 + |t.worker.pending| == |t.tasks|
    ensures var u := Apply(t, handled, Answer(status));
      TaskQueue.Inv(u, k0, k + 1) && |u.tasks| == |t.tasks|
      && (u.worker.Scanning? || (u.worker.Working? && k + 1 + |u.worker.pending| == |u.tasks|))
  {
    hide Visit, Reverse, Ids, Sorted, Split, Update;
    AnswerKeeps(t, k0, k, status);
  }

  lemma TakeMoves(r: State, k0: nat, k: nat, handled: set<int>)
    requires TaskQueue.Inv(r, k0, k) && r.worker.Working? && k + |r.worker.pending| == |r.tasks| && k < |r.tasks|
    requires !(r.tasks[k].kind.Some? && r.tasks[k].kind.value in handled)
    ensures var u := Apply(r, handled, Take);
      TaskQueue.Inv(u, k0, k + 1) && |u.tasks| == |r.tasks|
      && (u.worker.Scanning? || (u.worker.Working? && k + 1 + |u.worker.pending| == |u.tasks|))
  {
    hide Visit, Reverse, Ids, Sorted, Split, Update;
    var p := r.worker.pending;
    LastPending(r.tasks, k, p);
    FindIs(r.tasks, k);
    UpdateKeeps(r, k0, k, p[..|p| - 1], -1);
  }

  /** A worker that is woken and left alone can go on, by its own steps, until every task is dealt
      with up to the first one that is postponed, and then rests. */
  lemma WorkedOff(s: State, k: nat, handled: set<int>, handler: Task -> int) returns (steps: seq<Step>)
    requires Start(s, k)
    ensures NoSubmit(steps) && RunOk(s, handled, steps) && Run(s, handled, steps).worker == Idle
    ensures Run(s, handled, steps).tasks == Drained(s.tasks, k, handled, handler)
  {
    hide Drained, Run, Inv, Sorted, Split, RunOk;
    StartInv(s, k);
    var t := Apply(s, handled, Wake);
    var k1 := StepInv(s, k, k, handled, Wake);
    Woken(s, k);
    RunOne(s, handled, Wake);
    var rest := WorkFrom(t, k, k, handled, handler);
    steps := [Wake] + rest;
    RunTwice(s, handled, [Wake], rest);
    Unsubmitted(s, handled, steps);
  }

  lemma Woken(s: State, k: nat)
    requires Start(s, k)
    ensures TaskQueue.Inv(s.(worker := Scanning), k, k)
  {
    StartInv(s, k);
  }
}
