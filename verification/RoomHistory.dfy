/**
 The list of recently visited rooms. The server keeps a bounded list (src/grh_ws_user.c), the
 client an unbounded one (front/src/user.ts); both move the latest room to the front.
 */
module RoomHistory {

  datatype Option<+T> = None | Some(value: T)

  /** An entry; entries that cannot be read have no uuid. */
  datatype Entry = Entry(uuid: Option<string>, cid: string, ts: int, name: string)

  predicate Names(e: Entry, uuid: string) {
    e.uuid == Some(uuid)
  }

  // ---------------------------------------------------------------- both lists

  /** The walk of _on_room_member_join from index `i`: it ends at the entry of the same room,
      which is removed, or at the last entry that is to stay, after which the list is cut. */
  function Walk(l: seq<Entry>, uuid: string, max: int, i: nat): seq<Entry> {
    if l == [] then []
    else if Names(l[0], uuid) then l[1..]
    else if i >= max - 1 then [l[0]]
    else [l[0]] + Walk(l[1..], uuid, max, i + 1)
  }

  function ServerJoin(l: seq<Entry>, uuid: string, e: Entry, max: int): seq<Entry> {
    [e] + Walk(l, uuid, max, 0)
  }

  /** The first entry of the room is taken out. */
  function Spliced(l: seq<Entry>, uuid: string): seq<Entry> {
    if l == [] then [] else if Names(l[0], uuid) then l[1..] else [l[0]] + Spliced(l[1..], uuid)
  }

  /** addRoomHistoryEntry */
  function ClientJoin(l: seq<Entry>, uuid: string, e: Entry): seq<Entry> {
    [e] + Spliced(l, uuid)
  }

  function Take(l: seq<Entry>, n: int): seq<Entry> {
    if n <= 0 then [] else if n >= |l| then l else l[..n]
  }

  /** How many entries of the old list the server keeps; at least one. */
  function Bound(max: int): (b: nat)
    ensures b >= 1
  {
    if max < 1 then 1 else max
  }

  function IndexOf(l: seq<Entry>, uuid: string): (i: nat)
    ensures i <= |l| && (i < |l| ==> Names(l[i], uuid))
    ensures forall j :: 0 <= j < i ==> !Names(l[j], uuid)
  {
    if l == [] then 0 else if Names(l[0], uuid) then 0 else
      var j := IndexOf(l[1..], uuid);
      assert forall k :: 1 <= k < j + 1 ==> l[k] == l[1..][k - 1];
      j + 1
  }

  ghost predicate Distinct(l: seq<Entry>) {
    forall i, j :: 0 <= i < j < |l| && l[i].uuid.Some? ==> l[i].uuid != l[j].uuid
  }

  // ---------------------------------------------------------------- one join

  /** The list without position `i`. */
  function Out(l: seq<Entry>, i: nat): seq<Entry> {
    if i < |l| then l[..i] + l[i + 1..] else l
  }

  lemma OutCons(l: seq<Entry>, i: nat)
    requires l != [] && i > 0
    ensures Out(l, i) == [l[0]] + Out(l[1..], i - 1)
  {
    if i < |l| {
      assert l[1..][..i - 1] == l[1..i] && l[1..][i..] == l[i + 1..] && l[..i] == [l[0]] + l[1..i];
    } else {
      assert l == [l[0]] + l[1..];
    }
  }

  lemma TakeCons(l: seq<Entry>, n: int)
    requires l != [] && n > 0
    ensures Take(l, n) == [l[0]] + Take(l[1..], n - 1)
  {
  }

  lemma {:induction false} SplicedIs(l: seq<Entry>, uuid: string)
    ensures Spliced(l, uuid) == Out(l, IndexOf(l, uuid))
  {
    hide Out, IndexOf;
    OutHead(l);
    IndexHead(l, uuid);
    if l != [] && !Names(l[0], uuid) {
      SplicedIs(l[1..], uuid);
      OutCons(l, IndexOf(l, uuid));
    }
  }

  lemma OutHead(l: seq<Entry>)
    ensures Out(l, 0) == if l == [] then [] else l[1..]
  {
    if l != [] { assert l[..0] + l[1..] == l[1..]; }
  }

  lemma WalkHead(l: seq<Entry>, uuid: string, max: int, at: nat)
    ensures Walk(l, uuid, max, at) ==
      if l == [] then [] else if Names(l[0], uuid) then l[1..] else if at >= max - 1 then [l[0]]
      else [l[0]] + Walk(l[1..], uuid, max, at + 1)
  {
  }

  lemma IndexHead(l: seq<Entry>, uuid: string)
    ensures l == [] || Names(l[0], uuid) ==> IndexOf(l, uuid) == 0
    ensures l != [] && !Names(l[0], uuid) ==> IndexOf(l, uuid) == IndexOf(l[1..], uuid) + 1
  {
  }

  lemma {:induction false} WalkIs(l: seq<Entry>, uuid: string, max: int, at: nat)
    requires at < Bound(max)
    ensures var i := IndexOf(l, uuid); var left := Bound(max) - at;
      Walk(l, uuid, max, at) == if i < left then Out(l, i) else Take(l, left)
  {
    hide Out, Take, Walk, Names, IndexOf;
    OutHead(l);
    WalkHead(l, uuid, max, at);
    IndexHead(l, uuid);
    if l != [] && !Names(l[0], uuid) {
      OutCons(l, IndexOf(l, uuid));
      TakeCons(l, Bound(max) - at);
      TakeNone(l[1..]);
      if at < max - 1 { WalkIs(l[1..], uuid, max, at + 1); }
    }
  }

  lemma TakeNone(l: seq<Entry>)
    ensures Take(l, 0) == []
  {
  }

  /** For one join the server's list is a prefix of what the client would have exactly if the
      list was not overlong, or the room is not found before the cut: a room found early is
      taken out without cutting the list. */
  lemma JoinIsPrefixExactly(l: seq<Entry>, uuid: string, e: Entry, max: int)
    ensures ServerJoin(l, uuid, e, max) == Take(ClientJoin(l, uuid, e), Bound(max) + 1)
      <==> |l| <= Bound(max) + 1 || IndexOf(l, uuid) >= Bound(max)
  {
    hide Walk, Spliced;
    var i, b := IndexOf(l, uuid), Bound(max);
    WalkIs(l, uuid, max, 0);
    SplicedIs(l, uuid);
    if i >= b { CutBefore(l, i, b, e); }
  }

  /** What is taken out behind the cut does not show. */
  lemma CutBefore(l: seq<Entry>, i: nat, b: nat, e: Entry)
    requires i >= b
    ensures Take([e] + Out(l, i), b + 1) == [e] + Take(l, b)
  {
    if i < |l| { assert l[..i][..b] == l[..b]; }
  }

  /** What is taken out before the cut shows one entry more. */
  lemma CutAfter(l: seq<Entry>, i: nat, b: nat, e: Entry)
    requires i <= b < |l| - 1
    ensures Take([e] + Out(l[..b + 1], i), b + 1) == Take([e] + Out(l, i), b + 1)
  {
    var p := l[..b + 1];
    assert p[..i] == l[..i];
    assert p[i + 1..] == l[i + 1..b + 1];
    assert [e] + (l[..i] + l[i + 1..b + 1]) == ([e] + (l[..i] + l[i + 1..]))[..b + 1];
  }

  /** A client that is ahead by more entries than the server keeps makes no difference. */
  lemma TakeThenJoin(c: seq<Entry>, uuid: string, e: Entry, max: int)
    ensures Take(ClientJoin(Take(c, Bound(max) + 1), uuid, e), Bound(max) + 1) == Take(ClientJoin(c, uuid, e), Bound(max) + 1)
  {
    hide Spliced, Out;
    var b := Bound(max);
    var p := Take(c, b + 1);
    SplicedIs(c, uuid);
    SplicedIs(p, uuid);
    if |c| > b + 1 {
      var i, j := IndexOf(c, uuid), IndexOf(p, uuid);
      IndexOfPrefix(c, b + 1, uuid);
      if i <= b {
        CutAfter(c, i, b, e);
      } else {
        CutBefore(c, i, b, e);
        CutBefore(p, j, b, e);
        assert p[..b] == c[..b];
      }
    }
  }

  lemma {:induction false} IndexOfPrefix(l: seq<Entry>, n: nat, uuid: string)
    requires n <= |l|
    ensures IndexOf(l[..n], uuid) == if IndexOf(l, uuid) < n then IndexOf(l, uuid) else n
  {
    if n > 0 && !Names(l[0], uuid) {
      assert l[..n][1..] == l[1..][..n - 1];
      IndexOfPrefix(l[1..], n - 1, uuid);
    }
  }

  // ---------------------------------------------------------------- all joins

  datatype Visit = Visit(uuid: string, cid: string, ts: int, name: string)

  function EntryOf(v: Visit): Entry {
    Entry(Some(v.uuid), v.cid, v.ts, v.name)
  }

  function Server(start: seq<Entry>, visits: seq<Visit>, max: int): seq<Entry> {
    if visits == [] then start
    else
      var v := visits[|visits| - 1];
      ServerJoin(Server(start, visits[..|visits| - 1], max), v.uuid, EntryOf(v), max)
  }

  function Client(start: seq<Entry>, visits: seq<Visit>): seq<Entry> {
    if visits == [] then start
    else
      var v := visits[|visits| - 1];
      ClientJoin(Client(start, visits[..|visits| - 1]), v.uuid, EntryOf(v))
  }

  /** After any joins the server's list is exactly the front of the client's list. */
  lemma {:induction false} BoundedIsPrefix(start: seq<Entry>, visits: seq<Visit>, max: int)
    ensures Server(Take(start, Bound(max) + 1), visits, max) == Take(Client(start, visits), Bound(max) + 1)
  {
    if visits != [] {
      var n := |visits| - 1;
      var v := visits[n];
      var b := Bound(max);
      BoundedIsPrefix(start, visits[..n], max);
      var c := Client(start, visits[..n]);
      var s := Take(c, b + 1);
      JoinIsPrefixExactly(s, v.uuid, EntryOf(v), max);
      TakeThenJoin(c, v.uuid, EntryOf(v), max);
    }
  }

  lemma SplicedDistinct(l: seq<Entry>, uuid: string)
    requires Distinct(l)
    ensures Distinct(Spliced(l, uuid)) && forall e :: e in Spliced(l, uuid) ==> e in l && !Names(e, uuid)
  {
    hide Spliced;
    SplicedIs(l, uuid);
    var i := IndexOf(l, uuid);
    var s := Spliced(l, uuid);
    if i < |l| {
      forall k | 0 <= k < |s| ensures s[k] == l[if k < i then k else k + 1] {
      }
    }
  }

  lemma {:induction false} ClientDistinct(start: seq<Entry>, visits: seq<Visit>)
    requires Distinct(start)
    ensures Distinct(Client(start, visits))
  {
    if visits != [] {
      var n := |visits| - 1;
      ClientDistinct(start, visits[..n]);
      var c := Client(start, visits[..n]);
      SplicedDistinct(c, visits[n].uuid);
      var r := Client(start, visits);
      forall i, j | 0 <= i < j < |r| && r[i].uuid.Some? ensures r[i].uuid != r[j].uuid {
        assert r[j] == Spliced(c, visits[n].uuid)[j - 1];
        assert r[j] in Spliced(c, visits[n].uuid);
        if i > 0 { assert r[i] == Spliced(c, visits[n].uuid)[i - 1]; }
      }
    }
  }

  /** Hence the server's list has no duplicates, at most one entry more than the bound, and the
      latest room first. */
  lemma ServerHistory(visits: seq<Visit>, max: int)
    ensures var s := Server([], visits, max);
      && Distinct(s) && |s| <= Bound(max) + 1
      && (visits != [] ==> s != [] && s[0] == EntryOf(visits[|visits| - 1]))
  {
    BoundedIsPrefix([], visits, max);
    assert Take([], Bound(max) + 1) == [];
    ClientDistinct([], visits);
  }

  // ---------------------------------------------------------------- in place

  class History {
    var rooms: seq<Entry>

    /** _on_room_member_join */
    method OnMemberJoin(uuid: string, cid: string, ts: int, name: string, max: int)
      modifies this
      ensures rooms == ServerJoin(old(rooms), uuid, Entry(Some(uuid), cid, ts, name), max)
    {
      hide Walk, Out;
      var l := rooms;
      var i := 0;
      WalkIs(l, uuid, max, 0);
      while i < |l|
        invariant 0 <= i <= |l| && rooms == l && i <= IndexOf(l, uuid) && i < Bound(max)
      {
        assert Names(l[i], uuid) <==> l[i].uuid == Some(uuid);
        if l[i].uuid == Some(uuid) {
          assert IndexOf(l, uuid) == i;
          OutIs(l, i);
          rooms := l[..i] + l[i + 1..];
          break;
        }
        if i >= max - 1 {
          rooms := l[..i + 1];
          break;
        }
        i := i + 1;
      }
      OutIs(l, |l|);
      rooms := [Entry(Some(uuid), cid, ts, name)] + rooms;
    }
  }

  lemma OutIs(l: seq<Entry>, i: nat)
    ensures Out(l, i) == if i < |l| then l[..i] + l[i + 1..] else l
  {
  }

  class User {
    var rooms: seq<Entry>

    /** addRoomHistoryEntry */
    method AddRoomHistoryEntry(uuid: string, item: Entry)
      modifies this
      ensures rooms == ClientJoin(old(rooms), uuid, item)
    {
      var idx := 0;
      while idx < |rooms| && rooms[idx].uuid != Some(uuid)
        invariant 0 <= idx <= |rooms| && rooms == old(rooms)
        invariant IndexOf(rooms, uuid) == idx + IndexOf(rooms[idx..], uuid)
      {
        assert rooms[idx..][1..] == rooms[idx + 1..];
        idx := idx + 1;
      }
      SplicedIs(rooms, uuid);
      if idx < |rooms| { rooms := rooms[..idx] + rooms[idx + 1..]; }
      rooms := [item] + rooms;
    }
  }
}
