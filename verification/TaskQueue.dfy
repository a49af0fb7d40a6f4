/**
 The durable task queue (src/gr_task_worker.c). Tasks stay in the database after they are done;
 the worker finds what is left by walking from the newest task back to the first finished one.
 Submitting and working interleave freely.
 */
module TaskQueue {

  datatype Option<+T> = None | Some(value: T)

  /** Status 0 stands for "not done yet". */
  datatype Task = Task(id: int, kind: Option<int>, status: int)

  /** `pending` is the worker's list, newest first: it is filled by pushing and read by popping. */
  datatype Worker =
    | Idle
    | Scanning
    | Working(pending: seq<int>)
    | Handling(pending: seq<int>, current: int)

  datatype State = State(
    tasks: seq<Task>,  // in the order of their ids
    worker: Worker,
    log: seq<int>      // ids in the order in which they were marked as done
  )

  datatype Step =
    | Submit(id: int, kind: int)
    | Wake
    | Scan
    | Take
    | Answer(status: int)
    | Shutdown

  // ---------------------------------------------------------------- the database

  function Reverse(l: seq<int>): (r: seq<int>)
    ensures |r| == |l| && forall i :: 0 <= i < |l| ==> r[i] == l[|l| - 1 - i]
  {
    if l == [] then [] else Reverse(l[1..]) + [l[0]]
  }

  /** _pt_task_visitor over the collection, newest first, stopping at a finished task. */
  function Visit(tasks: seq<Task>): seq<int> {
    if tasks == [] || tasks[|tasks| - 1].status != 0 then []
    else [tasks[|tasks| - 1].id] + Visit(tasks[..|tasks| - 1])
  }

  /** All unfinished tasks, in order. */
  function Unfinished(tasks: seq<Task>): seq<int> {
    if tasks == [] then []
    else Unfinished(tasks[..|tasks| - 1]) + if tasks[|tasks| - 1].status == 0 then [tasks[|tasks| - 1].id] else []
  }

  function Ids(tasks: seq<Task>): (r: seq<int>)
    ensures |r| == |tasks| && forall i :: 0 <= i < |r| ==> r[i] == tasks[i].id
  {
    if tasks == [] then [] else [tasks[0].id] + Ids(tasks[1..])
  }

  /** _pt_task_update */
  function Update(tasks: seq<Task>, id: int, status: int): (r: seq<Task>)
    ensures |r| == |tasks|
    ensures forall i :: 0 <= i < |tasks| ==> r[i] == if tasks[i].id == id then tasks[i].(status := status) else tasks[i]
  {
    if tasks == [] then []
    else [if tasks[0].id == id then tasks[0].(status := status) else tasks[0]] + Update(tasks[1..], id, status)
  }

  function Find(tasks: seq<Task>, id: int): Option<Task> {
    if tasks == [] then None else if tasks[0].id == id then Some(tasks[0]) else Find(tasks[1..], id)
  }

  // ---------------------------------------------------------------- the steps

  /** After a task is dealt with: the next one, or another look at the database. */
  function Onward(pending: seq<int>): Worker {
    if pending == [] then Scanning else Working(pending)
  }

  /** A task whose handler does not exist, or whose type cannot be read, is marked as failed. */
  function TakeNext(s: State, pending: seq<int>, handled: set<int>): State
    requires pending != []
  {
    var id := pending[|pending| - 1];
    var rest := pending[..|pending| - 1];
    match Find(s.tasks, id)
    case None => s.(worker := Onward(rest))
    case Some(t) =>
      if t.kind.Some? && t.kind.value in handled then s.(worker := Handling(rest, id))
      else State(Update(s.tasks, id, -1), Onward(rest), s.log + [id])
  }

  function Apply(s: State, handled: set<int>, st: Step): State {
    match st
    case Submit(id, kind) =>
      if kind in handled then s.(tasks := s.tasks + [Task(id, Some(kind), 0)]) else s
    case Wake => if s.worker.Idle? then s.(worker := Scanning) else s
    case Scan =>
      if s.worker.Scanning? then
        s.(worker := if Visit(s.tasks) == [] then Idle else Working(Visit(s.tasks)))
      else s
    case Take => if s.worker.Working? && s.worker.pending != [] then TakeNext(s, s.worker.pending, handled) else s
    case Answer(status) =>
      if s.worker.Handling? then
        if status == 0 then s.(worker := Idle)
        else State(Update(s.tasks, s.worker.current, status), Onward(s.worker.pending), s.log + [s.worker.current])
      else s
    case Shutdown => if s.worker.Working? then s.(worker := Idle) else s
  }

  /** The database gives new tasks growing ids. */
  predicate Assumed(s: State, st: Step) {
    match st
    case Submit(id, kind) => forall t :: t in s.tasks ==> t.id < id
    case _ => true
  }

  function Run(s: State, handled: set<int>, steps: seq<Step>): State {
    if steps == [] then s else Apply(Run(s, handled, steps[..|steps| - 1]), handled, steps[|steps| - 1])
  }

  ghost predicate RunOk(s: State, handled: set<int>, steps: seq<Step>) {
    forall n :: 0 <= n < |steps| ==> Assumed(Run(s, handled, steps[..n]), steps[n])
  }

  // ---------------------------------------------------------------- what every run keeps

  ghost predicate Sorted(tasks: seq<Task>) {
    forall i, j :: 0 <= i < j < |tasks| ==> tasks[i].id < tasks[j].id
  }

  /** Everything before `k` is finished, nothing from `k` on is. */
  ghost predicate Split(tasks: seq<Task>, k: nat) {
    k <= |tasks| && forall i :: 0 <= i < |tasks| ==> (tasks[i].status != 0 <==> i < k)
  }

  /** The worker's list is the run of tasks that follows the first unfinished one. */
  ghost predicate Ahead(tasks: seq<Task>, k: nat, w: Worker) {
    match w
    case Idle => true
    case Scanning => true
    case Working(p) => p != [] && k + |p| <= |tasks| && p == Reverse(Ids(tasks[k..k + |p|]))
    case Handling(p, id) => k + 1 + |p| <= |tasks| && Reverse(Ids(tasks[k..k + 1 + |p|])) == p + [id]
  }

  /** Beginning with `k0` finished tasks. */
  ghost predicate Inv(s: State, k0: nat, k: nat) {
    && Sorted(s.tasks) && Split(s.tasks, k) && Ahead(s.tasks, k, s.worker)
    && k0 <= k && s.log == Ids(s.tasks[k0..k])
  }

  // ---------------------------------------------------------------- the walk

  lemma {:induction false} VisitIs(tasks: seq<Task>, k: nat)
    requires Split(tasks, k)
    ensures Visit(tasks) == Reverse(Ids(tasks[k..]))
    decreases |tasks|
  {
    hide Reverse, Ids;
    var n := |tasks|;
    NothingListed();
    if k < n {
      var pre := tasks[..n - 1];
      VisitIs(pre, k);
      assert tasks[k..] == pre[k..] + [tasks[n - 1]];
      ReverseIdsSnoc(pre[k..], tasks[n - 1]);
    } else {
      assert tasks[k..] == [];
    }
  }

  lemma NothingListed()
    ensures Reverse(Ids([])) == []
  {
  }

  lemma ReverseIdsSnoc(l: seq<Task>, t: Task)
    ensures Reverse(Ids(l + [t])) == [t.id] + Reverse(Ids(l))
  {
    var a, b := Reverse(Ids(l + [t])), [t.id] + Reverse(Ids(l));
    assert |a| == |b|;
    forall i | 0 <= i < |a| ensures a[i] == b[i] {
    }
  }

  lemma {:induction false} UnfinishedIs(tasks: seq<Task>, k: nat)
    requires Split(tasks, k)
    ensures Unfinished(tasks) == Ids(tasks[k..])
    decreases |tasks|
  {
    hide Ids;
    var n := |tasks|;
    NoIds();
    if n > 0 {
      var pre := tasks[..n - 1];
      UnfinishedIs(pre, if k < n then k else n - 1);
      if k < n {
        assert tasks[k..] == pre[k..] + [tasks[n - 1]];
        IdsSnoc(pre[k..], tasks[n - 1]);
      } else {
        assert pre[n - 1..] == [] && tasks[k..] == [];
      }
    } else {
      assert tasks[k..] == [];
    }
  }

  lemma NoIds()
    ensures Ids([]) == []
  {
  }

  lemma IdsSnoc(l: seq<Task>, t: Task)
    ensures Ids(l + [t]) == Ids(l) + [t.id]
  {
  }

  /** Stopping early loses nothing: the walk collects what a full filter would, newest first. */
  lemma EarlyStopIsFullFilter(tasks: seq<Task>, k: nat)
    requires Split(tasks, k)
    ensures Visit(tasks) == Reverse(Unfinished(tasks))
  {
    VisitIs(tasks, k);
    UnfinishedIs(tasks, k);
  }

  // ---------------------------------------------------------------- one step

  lemma SameId(tasks: seq<Task>, i: nat, j: nat)
    requires Sorted(tasks) && i < |tasks| && j < |tasks| && tasks[i].id == tasks[j].id
    ensures i == j
  {
  }

  lemma SortedSnoc(tasks: seq<Task>, t: Task)
    requires Sorted(tasks) && forall x :: x in tasks ==> x.id < t.id
    ensures Sorted(tasks + [t])
  {
    var u := tasks + [t];
    forall i, j | 0 <= i < j < |u| ensures u[i].id < u[j].id {
      assert u[i] in tasks;
    }
  }

  lemma {:induction false} AheadSnoc(tasks: seq<Task>, k: nat, w: Worker, t: Task)
    requires Ahead(tasks, k, w)
    ensures Ahead(tasks + [t], k, w)
  {
    hide Reverse, Ids;
    var u := tasks + [t];
    match w {
      case Working(p) => assert u[k..k + |p|] == tasks[k..k + |p|];
      case Handling(p, id) => assert u[k..k + 1 + |p|] == tasks[k..k + 1 + |p|];
      case _ =>
    }
  }

  lemma {:induction false} SubmitKeeps(s: State, k0: nat, k: nat, t: Task)
    requires Inv(s, k0, k) && t.status == 0 && forall x :: x in s.tasks ==> x.id < t.id
    ensures Inv(s.(tasks := s.tasks + [t]), k0, k)
  {
    hide Ahead, Sorted, Ids;
    SortedSnoc(s.tasks, t);
    AheadSnoc(s.tasks, k, s.worker, t);
    assert (s.tasks + [t])[k0..k] == s.tasks[k0..k];
  }

  lemma {:induction false} FindIs(tasks: seq<Task>, k: nat)
    requires Sorted(tasks) && k < |tasks|
    ensures Find(tasks, tasks[k].id) == Some(tasks[k])
  {
    if k > 0 {
      assert tasks[0].id < tasks[k].id;
      FindIs(tasks[1..], k - 1);
    }
  }

  lemma UpdatedAt(tasks: seq<Task>, k: nat, status: int)
    requires Sorted(tasks) && Split(tasks, k) && k < |tasks| && status != 0
    ensures var u := Update(tasks, tasks[k].id, status);
      Sorted(u) && Split(u, k + 1) && u[..k] == tasks[..k] && u[k].id == tasks[k].id && u[k + 1..] == tasks[k + 1..]
  {
    var u := Update(tasks, tasks[k].id, status);
    forall i | 0 <= i < |u| ensures u[i].id == tasks[i].id && (i != k ==> u[i] == tasks[i]) {
      if i < k { assert tasks[i].id < tasks[k].id; } else if k < i { assert tasks[k].id < tasks[i].id; }
    }
    forall i, j | 0 <= i < j < |u| ensures u[i].id < u[j].id { assert tasks[i].id < tasks[j].id; }
  }

  /** Marking the first unfinished task as done moves the boundary by one. */
  lemma {:induction false} UpdateKeeps(s: State, k0: nat, k: nat, rest: seq<int>, status: int)
    requires Inv(s, k0, k) && status != 0 && k + 1 + |rest| <= |s.tasks|
    requires rest == Reverse(Ids(s.tasks[k + 1..k + 1 + |rest|]))
    ensures var id := s.tasks[k].id; Inv(State(Update(s.tasks, id, status), Onward(rest), s.log + [id]), k0, k + 1)
  {
    hide Update, Sorted, Split, Reverse, Ids;
    var id := s.tasks[k].id;
    var u := Update(s.tasks, id, status);
    UpdatedAt(s.tasks, k, status);
    assert u[k0..k + 1] == u[..k][k0..] + [u[k]];
    assert u[..k][k0..] == s.tasks[k0..k];
    IdsSnoc(s.tasks[k0..k], u[k]);
    IdsOf(u[k0..k], s.tasks[k0..k], u[k], s.tasks[k]);
    assert u[k + 1..k + 1 + |rest|] == u[k + 1..][..|rest|] == s.tasks[k + 1..k + 1 + |rest|];
  }

  lemma IdsOf(a: seq<Task>, b: seq<Task>, x: Task, y: Task)
    requires a == b && x.id == y.id
    ensures Ids(a + [x]) == Ids(b) + [y.id]
  {
    IdsSnoc(a, x);
  }

  lemma LastPending(tasks: seq<Task>, k: nat, p: seq<int>)
    requires p != [] && k + |p| <= |tasks| && p == Reverse(Ids(tasks[k..k + |p|]))
    ensures p[|p| - 1] == tasks[k].id && p[..|p| - 1] == Reverse(Ids(tasks[k + 1..k + |p|]))
  {
    var rest := Reverse(Ids(tasks[k + 1..k + |p|]));
    assert |rest| == |p| - 1;
    forall i | 0 <= i < |rest| ensures p[..|p| - 1][i] == rest[i] {
    }
  }

  lemma StepInv(s: State, k0: nat, k: nat, handled: set<int>, st: Step) returns (k1: nat)
    requires Inv(s, k0, k) && Assumed(s, st)
    ensures k <= k1 && Inv(Apply(s, handled, st), k0, k1)
  {
    hide Sorted, Split, Reverse, Ids, Update, Find;
    k1 := k;
    match st {
      case Submit(id, kind) => if kind in handled { SubmitKeeps(s, k0, k, Task(id, Some(kind), 0)); }
      case Scan => if s.worker.Scanning? { ScanKeeps(s, k0, k); }
      case Take => if s.worker.Working? { k1 := TakeKeeps(s, k0, k, handled); }
      case Answer(status) => if s.worker.Handling? && status != 0 { AnswerKeeps(s, k0, k, status); k1 := k + 1; }
      case _ =>
    }
  }

  lemma ScanKeeps(s: State, k0: nat, k: nat)
    requires Inv(s, k0, k) && s.worker.Scanning?
    ensures Inv(s.(worker := if Visit(s.tasks) == [] then Idle else Working(Visit(s.tasks))), k0, k)
  {
    hide Visit, Reverse, Ids, Sorted, Split;
    VisitIs(s.tasks, k);
    Bounded(s.tasks, k);
    assert s.tasks[k..k + |Visit(s.tasks)|] == s.tasks[k..];
  }

  lemma TakeKeeps(s: State, k0: nat, k: nat, handled: set<int>) returns (k1: nat)
    requires Inv(s, k0, k) && s.worker.Working?
    ensures k <= k1 && s.worker.pending != [] && Inv(TakeNext(s, s.worker.pending, handled), k0, k1)
  {
    hide Sorted, Split, Reverse, Ids, Update, Find;
    var p := s.worker.pending;
    var t := s.tasks[k];
    LastPending(s.tasks, k, p);
    FindIs(s.tasks, k);
    if t.kind.Some? && t.kind.value in handled {
      k1 := k;
      assert p == p[..|p| - 1] + [t.id];
    } else {
      k1 := k + 1;
      UpdateKeeps(s, k0, k, p[..|p| - 1], -1);
    }
  }

  lemma {:induction false} AnswerKeeps(s: State, k0: nat, k: nat, status: int)
    requires Inv(s, k0, k) && s.worker.Handling? && status != 0
    ensures var id := s.worker.current;
      Inv(State(Update(s.tasks, id, status), Onward(s.worker.pending), s.log + [id]), k0, k + 1)
  {
    hide Sorted, Split, Reverse, Ids, Update;
    var p := s.worker.pending + [s.worker.current];
    LastPending(s.tasks, k, p);
    assert p[..|p| - 1] == s.worker.pending;
    UpdateKeeps(s, k0, k, s.worker.pending, status);
  }

  // ---------------------------------------------------------------- runs

  ghost predicate Start(s: State, k0: nat) {
    Sorted(s.tasks) && Split(s.tasks, k0) && s.worker.Idle? && s.log == []
  }

  lemma {:induction false} RunInv(s: State, k0: nat, handled: set<int>, steps: seq<Step>) returns (k: nat)
    requires Start(s, k0) && RunOk(s, handled, steps)
    ensures Inv(Run(s, handled, steps), k0, k)
  {
    hide Apply, Inv, Assumed;
    if steps == [] {
      k := k0;
      StartInv(s, k0);
    } else {
      var n := |steps| - 1;
      var pre := steps[..n];
      forall m | 0 <= m < |pre| ensures Assumed(Run(s, handled, pre[..m]), pre[m]) { assert pre[..m] == steps[..m]; }
      var k1 := RunInv(s, k0, handled, pre);
      k := StepInv(Run(s, handled, pre), k0, k1, handled, steps[n]);
    }
  }

  lemma StartInv(s: State, k0: nat)
    requires Start(s, k0)
    ensures Inv(s, k0, k0)
  {
    assert s.tasks[k0..k0] == [];
  }

  /** In every reachable state the unfinished tasks are the newest ones, and the walk that
      stops at the first finished task collects them all. */
  lemma {:induction false} WalkSeesAll(s: State, k0: nat, handled: set<int>, steps: seq<Step>)
    requires Start(s, k0) && RunOk(s, handled, steps)
    ensures var t := Run(s, handled, steps).tasks;
      Visit(t) == Reverse(Unfinished(t)) && exists k :: Split(t, k)
  {
    var k := RunInv(s, k0, handled, steps);
    EarlyStopIsFullFilter(Run(s, handled, steps).tasks, k);
  }

  /** Tasks are finished in the order of submission, each at most once and none left out: the
      log is the list of all tasks that are finished now and were not at the start. */
  lemma {:induction false} FinishedInOrder(s: State, k0: nat, handled: set<int>, steps: seq<Step>)
    requires Start(s, k0) && RunOk(s, handled, steps)
    ensures var r := Run(s, handled, steps);
      && (forall i, j :: 0 <= i < j < |r.log| ==> r.log[i] < r.log[j])
      && (forall i :: 0 <= i < |r.tasks| ==> (r.tasks[i].status != 0 <==> i < k0 || r.tasks[i].id in r.log))
  {
    hide Run, RunOk, Start, Inv;
    var k := RunInv(s, k0, handled, steps);
    LogIs(Run(s, handled, steps), k0, k);
  }

  lemma LogIs(r: State, k0: nat, k: nat)
    requires Inv(r, k0, k)
    ensures forall i, j :: 0 <= i < j < |r.log| ==> r.log[i] < r.log[j]
    ensures forall i :: 0 <= i < |r.tasks| ==> (r.tasks[i].status != 0 <==> i < k0 || r.tasks[i].id in r.log)
  {
    hide Reverse, Ids;
    forall j | 0 <= j < |r.log| ensures r.log[j] == r.tasks[k0 + j].id {}
    forall i, j | 0 <= i < j < |r.log| ensures r.log[i] < r.log[j] {
      assert r.tasks[k0 + i].id < r.tasks[k0 + j].id;
    }
    forall i | 0 <= i < |r.tasks| ensures r.tasks[i].status != 0 <==> i < k0 || r.tasks[i].id in r.log {
      LogHas(r, k0, k, i);
    }
  }

  lemma LogHas(r: State, k0: nat, k: nat, i: nat)
    requires Sorted(r.tasks) && k0 <= k <= |r.tasks| && r.log == Ids(r.tasks[k0..k]) && i < |r.tasks|
    ensures k0 <= i < k <==> r.tasks[i].id in r.log
  {
    hide Ids;
    if k0 <= i < k { assert r.log[i - k0] == r.tasks[i].id; }
    if r.tasks[i].id in r.log {
      var j :| 0 <= j < |r.log| && r.log[j] == r.tasks[i].id;
      SameId(r.tasks, i, k0 + j);
    }
  }

  /** A handler that postpones its task leaves it and everything newer unfinished, so that the
      next walk begins with it again. */
  lemma {:induction false} PostponedStays(s: State, k0: nat, handled: set<int>, steps: seq<Step>)
    requires Start(s, k0) && RunOk(s, handled, steps) && Run(s, handled, steps).worker.Handling?
    ensures var r := Run(s, handled, steps); var t := Apply(r, handled, Answer(0));
      && t == r.(worker := Idle)
      && (forall x :: x in t.tasks ==> (x.status == 0 <==> x.id >= r.worker.current))
      && Visit(t.tasks) != [] && Visit(t.tasks)[|Visit(t.tasks)| - 1] == r.worker.current
  {
    hide Run, RunOk, Start, Ids, Reverse, Visit, Sorted, Split;
    var k := RunInv(s, k0, handled, steps);
    var r := Run(s, handled, steps);
    CurrentIs(r, k0, k);
    UnfinishedFrom(r.tasks, k);
  }

  lemma {:induction false} CurrentIs(r: State, k0: nat, k: nat)
    requires Inv(r, k0, k) && r.worker.Handling?
    ensures k < |r.tasks| && r.worker.current == r.tasks[k].id
  {
    hide Ids, Reverse;
    LastPending(r.tasks, k, r.worker.pending + [r.worker.current]);
  }

  lemma UnfinishedFrom(tasks: seq<Task>, k: nat)
    requires Sorted(tasks) && Split(tasks, k) && k < |tasks|
    ensures forall x :: x in tasks ==> (x.status == 0 <==> x.id >= tasks[k].id)
    ensures Visit(tasks) != [] && Visit(tasks)[|Visit(tasks)| - 1] == tasks[k].id
  {
    VisitIs(tasks, k);
    forall x | x in tasks ensures x.status == 0 <==> x.id >= tasks[k].id {
      var i :| 0 <= i < |tasks| && tasks[i] == x;
      if i < k { assert tasks[i].id < tasks[k].id; } else if k < i { assert tasks[k].id < tasks[i].id; }
    }
  }

  // ---------------------------------------------------------------- in place

  /** What one uninterrupted run of the worker makes of the tasks from `k` on. */
  function Drained(tasks: seq<Task>, k: nat, handled: set<int>, handler: Task -> int): (r: seq<Task>)
    ensures |r| == |tasks|
    decreases |tasks| - k
  {
    if k >= |tasks| then tasks
    else
      var t := tasks[k];
      if t.kind.None? || t.kind.value !in handled then Drained(tasks[k := t.(status := -1)], k + 1, handled, handler)
      else if handler(t) == 0 then tasks
      else Drained(tasks[k := t.(status := handler(t))], k + 1, handled, handler)
  }

  class TaskStore {
    var tasks: seq<Task>

    /** The walk of the visitor. */
    method Pending() returns (pending: seq<int>)
      ensures pending == Visit(tasks)
    {
      pending := [];
      var n := |tasks|;
      assert tasks[..n] == tasks;
      while n > 0 && tasks[n - 1].status == 0
        invariant 0 <= n <= |tasks|
        invariant Visit(tasks) == pending + Visit(tasks[..n])
      {
        assert tasks[..n][..n - 1] == tasks[..n - 1];
        pending := pending + [tasks[n - 1].id];
        n := n - 1;
      }
    }

    method Fetch(id: int, ghost k: nat) returns (t: Task)
      requires Sorted(tasks) && k < |tasks| && tasks[k].id == id
      ensures t == tasks[k]
    {
      var i := 0;
      while tasks[i].id != id
        invariant 0 <= i <= k
        decreases k - i
      {
        i := i + 1;
      }
      t := tasks[i];
      SameId(tasks, i, k);
    }

    method Mark(id: int, status: int, ghost k: nat)
      requires Sorted(tasks) && k < |tasks| && tasks[k].id == id
      modifies this
      ensures tasks == old(tasks)[k := old(tasks)[k].(status := status)]
    {
      var i := 0;
      while tasks[i].id != id
        invariant 0 <= i <= k && tasks == old(tasks)
        decreases k - i
      {
        i := i + 1;
      }
      SameId(tasks, i, k);
      tasks := tasks[i := tasks[i].(status := status)];
    }

    /** _persistent_tasks_worker, with nobody submitting meanwhile */
    method RunWorker(handled: set<int>, handler: Task -> int, ghost k0: nat)
      requires Sorted(tasks) && Split(tasks, k0)
      modifies this
      ensures tasks == Drained(old(tasks), k0, handled, handler)
    {
      hide Visit, Reverse, Ids, Split, Sorted, Drained;
      ghost var k: nat := k0;
      var pending := Pending();
      VisitIs(tasks, k);
      Bounded(tasks, k);
      while |pending| > 0
        invariant Sorted(tasks) && Split(tasks, k) && k + |pending| == |tasks| && pending == Reverse(Ids(tasks[k..]))
        invariant Drained(old(tasks), k0, handled, handler) == Drained(tasks, k, handled, handler)
        decreases |tasks| - k
      {
        ghost var before := tasks;
        assert tasks[k..k + |pending|] == tasks[k..];
        LastPending(tasks, k, pending);
        assert tasks[k + 1..k + |pending|] == tasks[k + 1..];
        DrainStep(tasks, k, handled, handler);
        var id := pending[|pending| - 1];
        pending := pending[..|pending| - 1];
        var t := Fetch(id, k);
        var status := -1;
        if t.kind.Some? && t.kind.value in handled {
          status := handler(t);
          if status == 0 { return; }
        }
        Mark(id, status, k);
        Marked(before, k, status);
        k := k + 1;
        if |pending| == 0 {
          pending := Pending();
          VisitIs(tasks, k);
        }
      }
      DrainStep(tasks, k, handled, handler);
    }
  }

  lemma Bounded(tasks: seq<Task>, k: nat)
    requires Split(tasks, k)
    ensures k <= |tasks|
  {
  }

  lemma DrainStep(tasks: seq<Task>, k: nat, handled: set<int>, handler: Task -> int)
    ensures k >= |tasks| ==> Drained(tasks, k, handled, handler) == tasks
    ensures k < |tasks| ==>
      (var t := tasks[k];
       var known := t.kind.Some? && t.kind.value in handled;
       Drained(tasks, k, handled, handler) ==
       if known && handler(t) == 0 then tasks
       else Drained(tasks[k := t.(status := if known then handler(t) else -1)], k + 1, handled, handler))
  {
  }

  lemma Marked(tasks: seq<Task>, k: nat, status: int)
    requires Sorted(tasks) && Split(tasks, k) && k < |tasks| && status != 0
    ensures var u := tasks[k := tasks[k].(status := status)];
      Sorted(u) && Split(u, k + 1) && u[k + 1..] == tasks[k + 1..]
  {
    var u := tasks[k := tasks[k].(status := status)];
    forall i, j | 0 <= i < j < |u| ensures u[i].id < u[j].id { assert tasks[i].id < tasks[j].id; }
  }

  /** A task with the answer of its handler, or marked as failed if it has none. */
  predicate DealtWith(t: Task, r: Task, handled: set<int>, handler: Task -> int) {
    && r.id == t.id && r.kind == t.kind
    && r.status == if t.kind.Some? && t.kind.value in handled then handler(t) else -1
  }

  /** An uninterrupted run deals with the unfinished tasks in order up to the first one that is
      postponed. */
  lemma {:induction false} DrainedIs(tasks: seq<Task>, k: nat, handled: set<int>, handler: Task -> int) returns (n: nat)
    requires Sorted(tasks) && Split(tasks, k)
    ensures var r := Drained(tasks, k, handled, handler);
      && k <= n <= |tasks| && Split(r, n) && r[..k] == tasks[..k] && r[n..] == tasks[n..]
      && (forall i :: k <= i < n ==> DealtWith(tasks[i], r[i], handled, handler))
      && (n < |tasks| ==> handler(tasks[n]) == 0 && tasks[n].kind.Some? && tasks[n].kind.value in handled)
    decreases |tasks| - k
  {
    hide Sorted, Split, Drained;
    Bounded(tasks, k);
    DrainStep(tasks, k, handled, handler);
    if k == |tasks| {
      n := k;
    } else {
      var t := tasks[k];
      var known := t.kind.Some? && t.kind.value in handled;
      if known && handler(t) == 0 {
        n := k;
      } else {
        var status := if known then handler(t) else -1;
        var u := tasks[k := t.(status := status)];
        Marked(tasks, k, status);
        n := DrainedIs(u, k + 1, handled, handler);
        DrainedFrom(tasks, u, Drained(u, k + 1, handled, handler), k, n, handled, handler);
      }
    }
  }

  lemma DrainedFrom(tasks: seq<Task>, u: seq<Task>, r: seq<Task>, k: nat, n: nat, handled: set<int>, handler: Task -> int)
    requires k < n <= |tasks| && |r| == |u| == |tasks| && u == tasks[k := u[k]] && DealtWith(tasks[k], u[k], handled, handler)
    requires r[..k + 1] == u[..k + 1] && r[n..] == u[n..] && forall i :: k + 1 <= i < n ==> DealtWith(u[i], r[i], handled, handler)
    ensures r[..k] == tasks[..k] && r[n..] == tasks[n..] && forall i :: k <= i < n ==> DealtWith(tasks[i], r[i], handled, handler)
  {
    assert r[..k] == r[..k + 1][..k] == u[..k + 1][..k] == tasks[..k];
    assert r[k] == r[..k + 1][k] == u[..k + 1][k] == u[k];
    assert u[n..] == tasks[n..];
  }
}
