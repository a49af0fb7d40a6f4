/**
 What the list of recent rooms contains: for every room that was visited its last visit, the
 latest first.
 */
module HistoryContents {
  import opened RoomHistory

  /** No later visit was to the same room. */
  ghost predicate LastVisit(visits: seq<Visit>, n: nat) {
    n < |visits| && forall m :: n < m < |visits| ==> visits[m].uuid != visits[n].uuid
  }

  predicate EntryFor(e: Entry, v: Visit) {
    e.uuid == Some(v.uuid) && e.cid == v.cid && e.ts == v.ts && e.name == v.name
  }

  /** `ns` are the last visits to each room, the latest first, and `l` has their entries. */
  ghost predicate Lists(l: seq<Entry>, visits: seq<Visit>, ns: seq<nat>) {
    && |ns| == |l| && Falling(ns)
    && (forall i :: 0 <= i < |ns| ==> LastVisit(visits, ns[i]) && EntryFor(l[i], visits[ns[i]]))
    && (forall n :: LastVisit(visits, n) ==> n in ns)
  }

  ghost predicate Falling(ns: seq<nat>) {
    forall i, j :: 0 <= i < j < |ns| ==> ns[i] > ns[j]
  }

  /** The client's list after any visits. */
  lemma {:induction false} ClientLists(visits: seq<Visit>) returns (ns: seq<nat>)
    ensures Lists(Client([], visits), visits, ns)
  {
    if visits == [] {
      ns := [];
    } else {
      var m := |visits| - 1;
      var pre := visits[..m];
      var v := visits[m];
      var was := ClientLists(pre);
      var c := Client([], pre);
      var i := IndexOf(c, v.uuid);
      SplicedIs(c, v.uuid);
      if i < |c| {
        ns := [m] + (was[..i] + was[i + 1..]);
        Replaced(c, visits, was, i, ns);
      } else {
        ns := [m] + was;
        Added(c, visits, was, ns);
      }
    }
  }

  lemma EarlierVisit(visits: seq<Visit>, n: nat)
    requires visits != [] && n < |visits| - 1
    ensures LastVisit(visits, n) <==> LastVisit(visits[..|visits| - 1], n) && visits[n].uuid != visits[|visits| - 1].uuid
  {
    var m := |visits| - 1;
    var pre := visits[..m];
    if LastVisit(visits, n) {
      forall k | n < k < |pre| ensures pre[k].uuid != pre[n].uuid { assert visits[k] == pre[k]; }
    }
    if LastVisit(pre, n) && visits[n].uuid != visits[m].uuid {
      forall k | n < k < |visits| ensures visits[k].uuid != visits[n].uuid {
        if k < m { assert pre[k] == visits[k]; }
      }
    }
  }

  lemma Added(c: seq<Entry>, visits: seq<Visit>, was: seq<nat>, ns: seq<nat>)
    requires visits != [] && Lists(c, visits[..|visits| - 1], was) && ns == [|visits| - 1] + was
    requires forall j :: 0 <= j < |c| ==> !Names(c[j], visits[|visits| - 1].uuid)
    ensures var v := visits[|visits| - 1]; Lists([EntryOf(v)] + c, visits, ns)
  {
    var m := |visits| - 1;
    var v := visits[m];
    var l := [EntryOf(v)] + c;
    forall i | 0 <= i < |ns| ensures LastVisit(visits, ns[i]) && EntryFor(l[i], visits[ns[i]]) {
      if i > 0 {
        assert ns[i] == was[i - 1] && l[i] == c[i - 1];
        EarlierVisit(visits, ns[i]);
      }
    }
    forall n: nat | LastVisit(visits, n) ensures n in ns {
      if n < m { EarlierVisit(visits, n); assert n in was; }
    }
  }

  lemma Replaced(c: seq<Entry>, visits: seq<Visit>, was: seq<nat>, i: nat, ns: seq<nat>)
    requires visits != [] && Lists(c, visits[..|visits| - 1], was) && i < |c| && ns == [|visits| - 1] + (was[..i] + was[i + 1..])
    requires var u := visits[|visits| - 1].uuid; Names(c[i], u) && forall j :: 0 <= j < i ==> !Names(c[j], u)
    ensures var v := visits[|visits| - 1]; Lists([EntryOf(v)] + (c[..i] + c[i + 1..]), visits, ns)
  {
    hide LastVisit, EntryFor, Falling;
    InRange(c, visits, was);
    var m := |visits| - 1;
    var v := visits[m];
    var l := [EntryOf(v)] + (c[..i] + c[i + 1..]);
    Newest(visits);
    Dropped(visits, was, i, ns);
    forall j | 0 <= j < |ns| ensures LastVisit(visits, ns[j]) && EntryFor(l[j], visits[ns[j]]) {
      if j > 0 {
        var q := if j - 1 < i then j - 1 else j;
        assert ns[j] == was[q] && l[j] == c[q];
        StillLast(c, visits, was, q, i);
      }
    }
    forall n: nat | LastVisit(visits, n) ensures n in ns { StillListed(c, visits, was, i, ns, n); }
  }

  lemma InRange(c: seq<Entry>, visits: seq<Visit>, was: seq<nat>)
    requires visits != [] && Lists(c, visits[..|visits| - 1], was)
    ensures forall q :: 0 <= q < |was| ==> was[q] < |visits| - 1
  {
  }

  lemma Newest(visits: seq<Visit>)
    requires visits != []
    ensures var m := |visits| - 1; LastVisit(visits, m) && EntryFor(EntryOf(visits[m]), visits[m])
  {
  }

  lemma Dropped(visits: seq<Visit>, was: seq<nat>, i: nat, ns: seq<nat>)
    requires visits != [] && Falling(was) && i < |was| && ns == [|visits| - 1] + (was[..i] + was[i + 1..])
    requires forall q :: 0 <= q < |was| ==> was[q] < |visits| - 1
    ensures Falling(ns)
  {
    forall j | 0 < j < |ns| ensures ns[j] == was[if j - 1 < i then j - 1 else j] {}
  }

  lemma StillLast(c: seq<Entry>, visits: seq<Visit>, was: seq<nat>, q: nat, i: nat)
    requires visits != [] && Lists(c, visits[..|visits| - 1], was) && q < |c| && i < |c| && q != i
    requires Names(c[i], visits[|visits| - 1].uuid)
    ensures LastVisit(visits, was[q]) && EntryFor(c[q], visits[was[q]])
  {
    var pre := visits[..|visits| - 1];
    OtherRoom(c, pre, was, q, i);
    assert EntryFor(c[i], pre[was[i]]) && EntryFor(c[q], pre[was[q]]);
    EarlierVisit(visits, was[q]);
  }

  lemma StillListed(c: seq<Entry>, visits: seq<Visit>, was: seq<nat>, i: nat, ns: seq<nat>, n: nat)
    requires visits != [] && Lists(c, visits[..|visits| - 1], was) && i < |c| && ns == [|visits| - 1] + (was[..i] + was[i + 1..])
    requires Names(c[i], visits[|visits| - 1].uuid) && LastVisit(visits, n)
    ensures n in ns
  {
    var m := |visits| - 1;
    if n < m {
      EarlierVisit(visits, n);
      var q :| 0 <= q < |was| && was[q] == n;
      assert EntryFor(c[i], visits[..m][was[i]]);
      assert q != i;
      assert ns[if q < i then q + 1 else q] == n;
    }
  }

  /** Two entries of the list are of different rooms. */
  lemma OtherRoom(c: seq<Entry>, visits: seq<Visit>, was: seq<nat>, q: nat, i: nat)
    requires Lists(c, visits, was) && q < |c| && i < |c| && q != i
    ensures visits[was[q]].uuid != visits[was[i]].uuid
  {
    if q < i { assert was[q] > was[i]; } else { assert was[i] > was[q]; }
  }

  /** The server's list after any visits: the entries of the last visit to each room, the latest
      first, as many as the bound allows. */
  lemma ServerLists(visits: seq<Visit>, max: int) returns (ns: seq<nat>)
    ensures Lists(Client([], visits), visits, ns)
    ensures var s := Server([], visits, max);
      && |s| == (var most := if max < 1 then 2 else max + 1; if |ns| <= most then |ns| else most)
      && forall i :: 0 <= i < |s| ==> EntryFor(s[i], visits[ns[i]])
  {
    ns := ClientLists(visits);
    BoundedIsPrefix([], visits, max);
    assert Take([], Bound(max) + 1) == [];
  }
}
