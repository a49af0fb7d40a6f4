/**
 The log of gauge levels (src/gr_gauges.c, and the clean-up in src/gr_task_worker.c). It is
 compacted as it grows: repeated levels are not written, a maintained entry is moved forward
 in time, old entries are dropped. Clock times never decrease; setting and maintaining do not
 overlap.
 */
module GaugeLog {

  datatype Option<+T> = None | Some(value: T)

  /** One observation of a gauge. */
  datatype Point = Point(t: int, l: int)

  type Log = seq<Point>

  // ---------------------------------------------------------------- meaning

  /** The level at time `t`: that of the newest point which is not younger. */
  function LevelAt(log: Log, t: int): Option<int> {
    if log == [] then None
    else if log[|log| - 1].t <= t then Some(log[|log| - 1].l)
    else LevelAt(log[..|log| - 1], t)
  }

  ghost predicate Ordered(log: Log) {
    forall i, j :: 0 <= i < j < |log| ==> log[i].t <= log[j].t
  }

  ghost predicate Until(log: Log, now: int) {
    forall p :: p in log ==> p.t <= now
  }

  // ---------------------------------------------------------------- operations on one gauge

  /** _gauge_set_with_ts */
  function Set(log: Log, t: int, l: int): Log {
    if log == [] || log[|log| - 1].l != l then log + [Point(t, l)] else log
  }

  /** _gr_gauges_maintain_type */
  function Maintain(log: Log, t: int): Log {
    var n := |log|;
    if n == 0 then log
    else if n >= 2 && log[n - 1].l == log[n - 2].l then log[n - 1 := Point(t, log[n - 1].l)]
    else log + [Point(t, log[n - 1].l)]
  }

  /** The periodic clean-up deletes what is older than `t`. */
  function Prune(log: Log, t: int): Log {
    if log == [] then []
    else Prune(log[..|log| - 1], t) + if log[|log| - 1].t < t then [] else [log[|log| - 1]]
  }

  datatype Step = Sets(t: int, l: int) | Maintains(t: int) | Prunes(now: int, before: int)

  function TimeOf(st: Step): int {
    match st
    case Sets(t, l) => t
    case Maintains(t) => t
    case Prunes(now, before) => now
  }

  function Apply(log: Log, st: Step): Log {
    match st
    case Sets(t, l) => Set(log, t, l)
    case Maintains(t) => Maintain(log, t)
    case Prunes(now, before) => Prune(log, before)
  }

  /** The log that records every set and nothing else. */
  function Record(full: Log, st: Step): Log {
    if st.Sets? then full + [Point(st.t, st.l)] else full
  }

  function Run(steps: seq<Step>): Log {
    if steps == [] then [] else Apply(Run(steps[..|steps| - 1]), steps[|steps| - 1])
  }

  function Full(steps: seq<Step>): Log {
    if steps == [] then [] else Record(Full(steps[..|steps| - 1]), steps[|steps| - 1])
  }

  ghost predicate Clocked(steps: seq<Step>) {
    forall i, j :: 0 <= i < j < |steps| ==> TimeOf(steps[i]) <= TimeOf(steps[j])
  }

  // ---------------------------------------------------------------- levels

  lemma {:induction false} LevelIffStarted(log: Log, t: int)
    requires Ordered(log)
    ensures LevelAt(log, t).Some? <==> log != [] && log[0].t <= t
  {
    if |log| > 1 {
      LevelIffStarted(log[..|log| - 1], t);
    }
  }

  lemma LevelSnoc(log: Log, p: Point, t: int)
    ensures LevelAt(log + [p], t) == if p.t <= t then Some(p.l) else LevelAt(log, t)
  {
    assert (log + [p])[..|log|] == log;
  }

  lemma LevelLast(log: Log, t: int)
    requires log != [] && log[|log| - 1].t <= t
    ensures LevelAt(log, t) == Some(log[|log| - 1].l)
  {
  }

  /** Where the log has an answer it is the right one. */
  ghost predicate Agrees(log: Log, full: Log) {
    forall t :: LevelAt(log, t).Some? ==> LevelAt(log, t) == LevelAt(full, t)
  }

  ghost predicate Inv(log: Log, full: Log, now: int) {
    Ordered(log) && Until(log, now) && Agrees(log, full)
  }

  lemma OrderedSnoc(log: Log, p: Point, now: int)
    requires Ordered(log) && Until(log, now) && now <= p.t
    ensures Ordered(log + [p]) && Until(log + [p], p.t)
  {
    var m := log + [p];
    forall i, j | 0 <= i < j < |m| ensures m[i].t <= m[j].t {
      assert m[i] in log;
    }
  }

  lemma LastUntil(log: Log, now: int)
    requires Until(log, now) && log != []
    ensures log[|log| - 1].t <= now
  {
    assert log[|log| - 1] in log;
  }

  lemma SetKeeps(log: Log, full: Log, now: int, t: int, l: int)
    requires Inv(log, full, now) && now <= t
    ensures Inv(Set(log, t, l), full + [Point(t, l)], t)
  {
    var p := Point(t, l);
    forall x ensures LevelAt(Set(log, t, l), x).Some? ==> LevelAt(Set(log, t, l), x) == LevelAt(full + [p], x) {
      LevelSnoc(log, p, x);
      LevelSnoc(full, p, x);
      if log != [] && t <= x {
        LastUntil(log, now);
        LevelLast(log, x);
      }
    }
    OrderedSnoc(log, p, now);
  }

  lemma MoveLevel(log: Log, t: int, x: int)
    requires Ordered(log) && |log| >= 2 && log[|log| - 1].l == log[|log| - 2].l && log[|log| - 1].t <= t
    ensures var n := |log| - 1; LevelAt(log[n := Point(t, log[n].l)], x) == LevelAt(log, x)
  {
    var n := |log| - 1;
    var pre := log[..n];
    var p := Point(t, log[n].l);
    assert log[n := p] == pre + [p];
    LevelSnoc(pre, p, x);
    if log[n].t <= x {
      assert log[n - 1].t <= log[n].t;
      LevelLast(log, x);
      LevelLast(pre, x);
    }
  }

  lemma CopyLevel(log: Log, t: int, x: int)
    requires log != [] && log[|log| - 1].t <= t
    ensures LevelAt(log + [Point(t, log[|log| - 1].l)], x) == LevelAt(log, x)
  {
    LevelSnoc(log, Point(t, log[|log| - 1].l), x);
    if t <= x { LevelLast(log, x); }
  }

  /** Maintaining changes no level at any time. */
  lemma MaintainLevel(log: Log, now: int, t: int, x: int)
    requires Ordered(log) && Until(log, now) && now <= t
    ensures LevelAt(Maintain(log, t), x) == LevelAt(log, x)
  {
    if log != [] {
      LastUntil(log, now);
      CopyLevel(log, t, x);
      if |log| >= 2 && log[|log| - 1].l == log[|log| - 2].l { MoveLevel(log, t, x); }
    }
  }

  lemma MaintainOrdered(log: Log, now: int, t: int)
    requires Ordered(log) && Until(log, now) && now <= t
    ensures Ordered(Maintain(log, t)) && Until(Maintain(log, t), t)
  {
    if log != [] {
      var n := |log| - 1;
      var p := Point(t, log[n].l);
      OrderedSnoc(log, p, now);
      PrefixOrdered(log, now);
      OrderedSnoc(log[..n], p, now);
      assert log[n := p] == log[..n] + [p];
    }
  }

  lemma MaintainKeeps(log: Log, full: Log, now: int, t: int)
    requires Inv(log, full, now) && now <= t
    ensures Inv(Maintain(log, t), full, t)
  {
    hide Maintain, LevelAt;
    MaintainOrdered(log, now, t);
    forall x ensures LevelAt(Maintain(log, t), x).Some? ==> LevelAt(Maintain(log, t), x) == LevelAt(full, x) {
      MaintainLevel(log, now, t, x);
    }
  }

  lemma PrefixOrdered(log: Log, now: int)
    requires Ordered(log) && Until(log, now) && log != []
    ensures Ordered(log[..|log| - 1]) && Until(log[..|log| - 1], now)
  {
    var pre := log[..|log| - 1];
    forall p | p in pre ensures p.t <= now { assert p in log; }
  }

  /** Pruning drops a prefix of the log: exactly what is older than `t`. */
  lemma {:induction false} PruneIsSuffix(log: Log, t: int) returns (k: nat)
    requires Ordered(log)
    ensures k <= |log| && Prune(log, t) == log[k..]
    ensures forall i :: 0 <= i < |log| ==> (i < k <==> log[i].t < t)
  {
    if log == [] {
      k := 0;
    } else {
      var n := |log| - 1;
      var pre := log[..n];
      k := PruneIsSuffix(pre, t);
      if log[n].t < t {
        forall p | p in log ensures p.t < t {
          var i :| 0 <= i < |log| && log[i] == p;
        }
        PruneAll(log, t);
        k := n + 1;
      } else {
        PruneTail(log, t, k);
      }
    }
  }

  lemma PruneTail(log: Log, t: int, k: nat)
    requires log != [] && log[|log| - 1].t >= t
    requires var pre := log[..|log| - 1];
      k <= |pre| && Prune(pre, t) == pre[k..] && forall i :: 0 <= i < |pre| ==> (i < k <==> pre[i].t < t)
    ensures Prune(log, t) == log[k..] && forall i :: 0 <= i < |log| ==> (i < k <==> log[i].t < t)
  {
    var n := |log| - 1;
    assert log[..n][k..] + [log[n]] == log[k..];
    assert forall i :: 0 <= i < n ==> log[i] == log[..n][i];
  }

  lemma {:induction false} PruneAll(log: Log, t: int)
    ensures (forall p :: p in log ==> p.t < t) ==> Prune(log, t) == []
  {
    if log != [] {
      assert log[|log| - 1] in log;
      forall p | p in log[..|log| - 1] ensures p in log {}
      PruneAll(log[..|log| - 1], t);
    }
  }

  lemma {:induction false} SuffixLevel(log: Log, k: nat, t: int)
    requires k <= |log|
    ensures LevelAt(log[k..], t).Some? ==> LevelAt(log[k..], t) == LevelAt(log, t)
    decreases |log|
  {
    if k < |log| {
      var n := |log| - 1;
      assert log[k..][..n - k] == log[..n][k..];
      SuffixLevel(log[..n], k, t);
    }
  }

  lemma PruneKeeps(log: Log, full: Log, now: int, before: int, t: int)
    requires Inv(log, full, now) && now <= t
    ensures Inv(Prune(log, before), full, t)
  {
    var k := PruneIsSuffix(log, before);
    forall x ensures LevelAt(log[k..], x).Some? ==> LevelAt(log[k..], x) == LevelAt(full, x) {
      SuffixLevel(log, k, x);
    }
  }

  // ---------------------------------------------------------------- runs

  function Now(steps: seq<Step>): int {
    if steps == [] then 0 else TimeOf(steps[|steps| - 1])
  }

  lemma {:induction false} RunInv(steps: seq<Step>)
    requires Clocked(steps)
    ensures Inv(Run(steps), Full(steps), Now(steps))
  {
    if steps != [] {
      var n := |steps| - 1;
      var pre := steps[..n];
      RunInv(pre);
      var now := if pre == [] then TimeOf(steps[n]) else Now(pre);
      EmptyInv(now);
      assert pre == [] ==> Run(pre) == [] && Full(pre) == [];
      match steps[n] {
        case Sets(t, l) => SetKeeps(Run(pre), Full(pre), now, t, l);
        case Maintains(t) => MaintainKeeps(Run(pre), Full(pre), now, t);
        case Prunes(t, before) => PruneKeeps(Run(pre), Full(pre), now, before, t);
      }
    }
  }

  lemma EmptyInv(now: int)
    ensures Inv([], [], now)
  {
  }

  /** Compaction preserves meaning: at any time from the oldest surviving point on, the level
      is that of the log of all sets. */
  lemma CompactionPreservesLevels(steps: seq<Step>, t: int)
    requires Clocked(steps) && Run(steps) != [] && Run(steps)[0].t <= t
    ensures LevelAt(Run(steps), t).Some? && LevelAt(Run(steps), t) == LevelAt(Full(steps), t)
  {
    RunInv(steps);
    LevelIffStarted(Run(steps), t);
  }

  /** Without pruning nothing is lost at all. */
  lemma {:induction false} WithoutPruning(steps: seq<Step>, t: int)
    requires Clocked(steps) && forall st :: st in steps ==> !st.Prunes?
    ensures LevelAt(Run(steps), t) == LevelAt(Full(steps), t)
  {
    RunInv(steps);
    Started(steps);
    LevelIffStarted(Run(steps), t);
    FullOrdered(steps);
    LevelIffStarted(Full(steps), t);
  }

  lemma {:induction false} FullOrdered(steps: seq<Step>)
    requires Clocked(steps)
    ensures Ordered(Full(steps)) && Until(Full(steps), Now(steps))
  {
    if steps != [] {
      var n := |steps| - 1;
      FullOrdered(steps[..n]);
      if steps[n].Sets? {
        if n == 0 { assert Full(steps[..n]) == []; }
        OrderedSnoc(Full(steps[..n]), Point(steps[n].t, steps[n].l), if n == 0 then steps[n].t else Now(steps[..n]));
      }
    }
  }

  lemma {:induction false} Started(steps: seq<Step>)
    requires forall st :: st in steps ==> !st.Prunes?
    ensures |Run(steps)| > 0 <==> |Full(steps)| > 0
    ensures |Full(steps)| > 0 ==> Run(steps)[0].t == Full(steps)[0].t
  {
    if steps != [] {
      var n := |steps| - 1;
      forall st | st in steps[..n] ensures !st.Prunes? { assert st in steps; }
      assert steps[n] in steps;
      Started(steps[..n]);
    }
  }

  // ---------------------------------------------------------------- growth

  /** Setting a gauge writes a point exactly if that changes its present level, and afterwards the
      level is what was set. */
  lemma SetMeans(log: Log, now: int, t: int, l: int)
    requires Ordered(log) && Until(log, now) && now <= t
    ensures var m := Set(log, t, l);
      && |m| == (if LevelAt(log, t) == Some(l) then |log| else |log| + 1)
      && m[..|log|] == log && LevelAt(m, t) == Some(l)
      && (forall x :: x < t ==> LevelAt(m, x) == LevelAt(log, x))
  {
    if log != [] {
      LastUntil(log, now);
      LevelLast(log, t);
    }
    forall x ensures LevelAt(log + [Point(t, l)], x) == if t <= x then Some(l) else LevelAt(log, x) {
      LevelSnoc(log, Point(t, l), x);
    }
  }

  /** No level stands three times in a row. */
  ghost predicate Compact(log: Log) {
    forall i :: 0 <= i && i + 2 < |log| && log[i].l == log[i + 1].l ==> log[i + 1].l != log[i + 2].l
  }

  lemma CompactSnoc(log: Log, p: Point)
    requires Compact(log) && (|log| >= 2 && log[|log| - 2].l == log[|log| - 1].l ==> log[|log| - 1].l != p.l)
    ensures Compact(log + [p])
  {
    var m := log + [p];
    forall i | 0 <= i && i + 2 < |m| && m[i].l == m[i + 1].l ensures m[i + 1].l != m[i + 2].l {
      assert m[i] == log[i] && m[i + 1] == log[i + 1];
      if i + 2 < |log| { assert m[i + 2] == log[i + 2]; }
    }
  }

  /** In every log a level is written twice in a row at most: when it was set, and when it was last
      found to last. */
  lemma {:induction false} RunCompact(steps: seq<Step>)
    requires Clocked(steps)
    ensures Compact(Run(steps))
  {
    if steps != [] {
      var n := |steps| - 1;
      var log := Run(steps[..n]);
      RunCompact(steps[..n]);
      RunInv(steps[..n]);
      match steps[n] {
        case Sets(t, l) => SetCompact(log, t, l);
        case Maintains(t) => MaintainCompact(log, t);
        case Prunes(now, before) => var k := PruneIsSuffix(log, before); SuffixCompact(log, k);
      }
    }
  }

  lemma SetCompact(log: Log, t: int, l: int)
    requires Compact(log)
    ensures Compact(Set(log, t, l))
  {
    if log == [] || log[|log| - 1].l != l { CompactSnoc(log, Point(t, l)); }
  }

  lemma MaintainCompact(log: Log, t: int)
    requires Compact(log)
    ensures Compact(Maintain(log, t))
  {
    var n := |log|;
    if n > 0 && !(n >= 2 && log[n - 1].l == log[n - 2].l) { CompactSnoc(log, Point(t, log[n - 1].l)); }
  }

  lemma SuffixCompact(log: Log, k: nat)
    requires Compact(log) && k <= |log|
    ensures Compact(log[k..])
  {
    var m := log[k..];
    forall i | 0 <= i && i + 2 < |m| && m[i].l == m[i + 1].l ensures m[i + 1].l != m[i + 2].l {
      assert m[i] == log[k + i] && m[i + 1] == log[k + i + 1] && m[i + 2] == log[k + i + 2];
    }
  }

  function MaintainAll(log: Log, times: seq<int>): Log {
    if times == [] then log else Maintain(MaintainAll(log, times[..|times| - 1]), times[|times| - 1])
  }

  /** However often the log is maintained, it grows by one point at most: by one exactly if it
      has a newest level that is not written twice yet. */
  lemma {:induction false} MaintenanceIsBounded(log: Log, times: seq<int>)
    requires times != []
    ensures var n := |log|; var m := MaintainAll(log, times);
      && |m| == (if n == 0 || (n >= 2 && log[n - 1].l == log[n - 2].l) then n else n + 1)
      && (n > 0 ==> |m| >= 2 && m[|m| - 1] == Point(times[|times| - 1], log[n - 1].l) && m[|m| - 2].l == log[n - 1].l)
  {
    var q := |times| - 1;
    if q > 0 {
      MaintenanceIsBounded(log, times[..q]);
    } else {
      assert MaintainAll(log, times[..q]) == log;
    }
  }

  // ---------------------------------------------------------------- the collection

  /** A document of the collection, which holds the logs of all gauges interleaved. */
  datatype Row = Row(id: int, g: int, p: Point)

  function Of(rows: seq<Row>, g: int): Log {
    if rows == [] then []
    else Of(rows[..|rows| - 1], g) + if rows[|rows| - 1].g == g then [rows[|rows| - 1].p] else []
  }

  /** The position of the newest row of `g` before position `n`, or `n`'s bound if there is none. */
  predicate Newest(rows: seq<Row>, g: int, n: nat, i: int) {
    && -1 <= i < n <= |rows|
    && (i >= 0 ==> rows[i].g == g)
    && forall j :: i < j < n ==> rows[j].g != g
  }

  lemma {:induction false} OfNewest(rows: seq<Row>, g: int, n: nat, i: int)
    requires Newest(rows, g, n, i)
    ensures Of(rows[..n], g) == if i < 0 then [] else Of(rows[..i], g) + [rows[i].p]
    decreases n
  {
    if n > 0 && i < n - 1 {
      assert rows[..n][..n - 1] == rows[..n - 1];
      OfNewest(rows, g, n - 1, i);
    } else if n > 0 {
      assert rows[..n][..i] == rows[..i];
    }
  }

  lemma OfSnoc(rows: seq<Row>, r: Row, g: int)
    ensures Of(rows + [r], g) == Of(rows, g) + if r.g == g then [r.p] else []
  {
    assert (rows + [r])[..|rows|] == rows;
  }

  /** The newest row of a gauge carries the newest point of its log. */
  lemma LatestOf(rows: seq<Row>, g: int, i: int)
    requires Newest(rows, g, |rows|, i) || (rows == [] && i == -1)
    ensures -1 <= i < |rows|
    ensures if i < 0 then Of(rows, g) == []
      else Of(rows, g) != [] && Of(rows, g)[|Of(rows, g)| - 1] == rows[i].p
  {
    if rows != [] {
      OfNewest(rows, g, |rows|, i);
      assert rows[..|rows|] == rows;
    }
  }

  /** Rewriting one row touches the log of its gauge only. */
  lemma {:induction false} OfRewrite(rows: seq<Row>, i: nat, r: Row, g: int)
    requires i < |rows| && r.g == rows[i].g && (g == r.g ==> forall j :: i < j < |rows| ==> rows[j].g != g)
    ensures Of(rows[i := r], g) == if r.g == g then Of(rows[..i], g) + [r.p] else Of(rows, g)
  {
    var n := |rows| - 1;
    if i < n {
      assert rows[i := r][..n] == rows[..n][i := r];
      OfRewrite(rows[..n], i, r, g);
      assert rows[..n][..i] == rows[..i];
    } else {
      assert rows[i := r][..n] == rows[..n];
    }
  }

  class GaugeStore {
    var rows: seq<Row>
    var next: int

    ghost predicate Valid() reads this {
      forall i :: 0 <= i < |rows| ==> rows[i].id < next
    }

    constructor ()
      ensures Valid() && rows == []
    {
      rows, next := [], 0;
    }

    /** Listing the rows of a gauge begins with the newest one. */
    method Latest(g: int, n: nat) returns (i: int)
      requires n <= |rows|
      ensures Newest(rows, g, n, i) || (n == 0 && i == -1)
    {
      i := n - 1;
      while i >= 0 && rows[i].g != g
        invariant -1 <= i < n || n == 0
        invariant -1 <= i
        invariant forall j :: i < j < n ==> rows[j].g != g
      {
        i := i - 1;
      }
    }

    /** ejdb_put_new */
    method PutNew(g: int, p: Point) returns (id: int)
      requires Valid()
      modifies this
      ensures Valid() && rows == old(rows) + [Row(id, g, p)] && id == old(next)
    {
      id := next;
      rows := rows + [Row(id, g, p)];
      next := next + 1;
    }

    /** _gauge_set_with_ts */
    method SetLevel(g: int, t: int, l: int)
      requires Valid()
      modifies this
      ensures Valid() && Of(rows, g) == Set(old(Of(rows, g)), t, l)
      ensures forall h :: h != g ==> Of(rows, h) == old(Of(rows, h))
    {
      hide Of, Newest;
      var i := Latest(g, |rows|);
      ghost var before := rows;
      LatestOf(rows, g, i);
      if i < 0 || rows[i].p.l != l {
        var id := PutNew(g, Point(t, l));
        OfSnoc(before, Row(id, g, Point(t, l)), g);
        forall h | h != g ensures Of(rows, h) == Of(before, h) {
          OfSnoc(before, Row(id, g, Point(t, l)), h);
          assert Of(before, h) + [] == Of(before, h);
        }
      }
    }

    /** _gr_gauges_maintain_type, including the second look at the newest rows, which finds the
        row just written followed by the one it copies. */
    method MaintainType(g: int, t: int)
      requires Valid()
      modifies this
      ensures Valid() && Of(rows, g) == Maintain(old(Of(rows, g)), t)
      ensures forall h :: h != g ==> Of(rows, h) == old(Of(rows, h))
    {
      var i := Latest(g, |rows|);
      if i < 0 {
        NoneOf(rows, g);
        return;
      }
      var j := Latest(g, i);
      ghost var before := rows;
      TwoNewest(rows, g, i, j);
      if j >= 0 && rows[j].p.l == rows[i].p.l {
        Rewrite(g, i, t);
      } else {
        Copy(g, i, j, t);
      }
    }

    /** ejdb_put_jbn on the newest row of the gauge */
    method Rewrite(g: int, i: nat, t: int)
      requires Valid() && Newest(rows, g, |rows|, i)
      modifies this
      ensures Valid() && Of(rows, g) == Of(old(rows)[..i], g) + [Point(t, old(rows)[i].p.l)]
      ensures forall h :: h != g ==> Of(rows, h) == Of(old(rows), h)
    {
      var r := Row(rows[i].id, g, Point(t, rows[i].p.l));
      ghost var before := rows;
      rows := rows[i := r];
      OfRewrite(before, i, r, g);
      forall h | h != g ensures Of(rows, h) == Of(before, h) { OfRewrite(before, i, r, h); }
    }

    /** ejdb_put_new_jbn and the check that follows it */
    method Copy(g: int, i: nat, j: int, t: int)
      requires Valid() && Newest(rows, g, |rows|, i) && (Newest(rows, g, i, j) || (i == 0 && j == -1))
      modifies this
      ensures Valid() && Of(rows, g) == Of(old(rows), g) + [Point(t, old(rows)[i].p.l)]
      ensures forall h :: h != g ==> Of(rows, h) == Of(old(rows), h)
    {
      var p := Point(t, rows[i].p.l);
      ghost var before := rows;
      var copied := rows[i].id;
      var id := PutNew(g, p);
      OfSnoc(before, Row(id, g, p), g);
      forall h | h != g ensures Of(rows, h) == Of(before, h) {
        OfSnoc(before, Row(id, g, p), h);
        assert Of(before, h) + [] == Of(before, h);
      }
      var i2 := Latest(g, |rows|);
      var j2 := Latest(g, i2);
      if rows[i2].id != id || (j2 >= 0 && rows[j2].id != copied) {
        assert false; // would delete the row again
      }
    }

    /** The clean-up query: all gauges at once. */
    method DeleteOlder(t: int)
      requires Valid()
      modifies this
      ensures Valid() && forall g :: Of(rows, g) == Prune(old(Of(rows, g)), t)
    {
      var kept: seq<Row> := [];
      ghost var before := rows;
      for i := 0 to |rows|
        invariant rows == before && Valid()
        invariant forall x :: x in kept ==> x.id < next
        invariant forall g :: Of(kept, g) == Prune(Of(rows[..i], g), t)
      {
        var r := rows[i];
        var more := if r.p.t < t then [] else [r];
        forall g ensures Of(kept + more, g) == Prune(Of(rows[..i + 1], g), t) { PruneStep(rows, i, kept, t, g); }
        kept := kept + more;
      }
      assert rows[..|rows|] == rows;
      rows := kept;
    }
  }

  lemma PruneStep(rows: seq<Row>, i: nat, kept: seq<Row>, t: int, g: int)
    requires i < |rows| && Of(kept, g) == Prune(Of(rows[..i], g), t)
    ensures Of(kept + (if rows[i].p.t < t then [] else [rows[i]]), g) == Prune(Of(rows[..i + 1], g), t)
  {
    var r := rows[i];
    assert rows[..i + 1] == rows[..i] + [r];
    assert kept + [] == kept && Of(rows[..i], g) + [] == Of(rows[..i], g) && Of(kept, g) + [] == Of(kept, g);
    OfSnoc(rows[..i], r, g);
    OfSnoc(kept, r, g);
    PruneSnoc(Of(rows[..i], g), r.p, t);
  }

  lemma PruneSnoc(log: Log, p: Point, t: int)
    ensures Prune(log + [p], t) == Prune(log, t) + if p.t < t then [] else [p]
  {
    assert (log + [p])[..|log|] == log;
  }

  lemma NoneOf(rows: seq<Row>, g: int)
    requires forall j :: 0 <= j < |rows| ==> rows[j].g != g
    ensures Of(rows, g) == []
  {
    if rows != [] {
      OfNewest(rows, g, |rows|, -1);
      assert rows[..|rows|] == rows;
    }
  }

  lemma TwoNewest(rows: seq<Row>, g: int, i: int, j: int)
    requires Newest(rows, g, |rows|, i) && i >= 0 && (Newest(rows, g, i, j) || (i == 0 && j == -1))
    ensures Of(rows, g) == Of(rows[..i], g) + [rows[i].p]
    ensures j < 0 ==> Of(rows[..i], g) == []
    ensures j >= 0 ==> Of(rows[..i], g) == Of(rows[..j], g) + [rows[j].p]
  {
    OfNewest(rows, g, |rows|, i);
    assert rows[..|rows|] == rows;
    if i > 0 { OfNewest(rows, g, i, j); }
  }
}
