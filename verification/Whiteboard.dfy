/**
 How whiteboards are kept in step (front-whiteboard/src/collab.ts and utils.ts): a client sends
 the difference between its scene and what it last synchronized, and applies the differences
 that it receives.
 */
module Whiteboard {

  /** A property value; `Other` stands for arrays and nested objects. */
  datatype Json = Null | Bool(b: bool) | Num(n: int) | Str(s: string) | Other(text: string)

  type Object = map<string, Json>

  type Elements = map<string, Object>

  // ---------------------------------------------------------------- objects

  /** objectDiff */
  function Diff(from: Object, to: Object): Object {
    map k | k in from.Keys + to.Keys && (k !in to || k !in from || from[k] != to[k]) ::
      if k in to then to[k] else Null
  }

  /** Object.assign */
  function Assign(target: Object, source: Object): Object {
    target + source
  }

  /** Properties that are gone, as the difference reports them. */
  function Removed(from: Object, to: Object): Object {
    map k | k in from.Keys - to.Keys :: Null
  }

  /** The law of `objectDiff`: assigning the difference onto the old object gives the new one,
      with removed properties set to null. */
  lemma DiffLaw(from: Object, to: Object)
    ensures Assign(from, Diff(from, to)) == to + Removed(from, to)
  {
    var a, b := Assign(from, Diff(from, to)), to + Removed(from, to);
    forall k ensures k in a <==> k in b {}
    forall k | k in a ensures a[k] == b[k] {}
  }

  /** A difference taken again after it was assigned is empty exactly if no property was
      removed; each removed one is reported again. */
  lemma DiffAgain(from: Object, to: Object)
    ensures Diff(Assign(from, Diff(from, to)), to) == Removed(from, to)
    ensures Diff(Assign(from, Diff(from, to)), to) == map[] <==> from.Keys <= to.Keys
  {
    DiffLaw(from, to);
    var d := Diff(to + Removed(from, to), to);
    var r := Removed(from, to);
    forall k ensures k in d <==> k in r {}
    forall k | k in d ensures d[k] == r[k] {}
    if from.Keys <= to.Keys {
      assert r.Keys == {};
    } else {
      var k :| k in from.Keys && k !in to.Keys;
      assert k in r;
    }
  }

  predicate Truthy(o: Object, k: string) {
    k in o &&
    match o[k]
    case Null => false
    case Bool(b) => b
    case Num(n) => n != 0
    case Str(s) => s != ""
    case Other(text) => true
  }

  predicate Deleted(o: Object) {
    Truthy(o, "isDeleted")
  }

  predicate SameProperty(a: Object, b: Object, k: string) {
    (k in a <==> k in b) && (k in a ==> a[k] == b[k])
  }

  /** Neither the version nor its nonce has changed. */
  predicate SameVersion(a: Object, b: Object) {
    SameProperty(a, b, "version") && SameProperty(a, b, "versionNonce")
  }

  // ---------------------------------------------------------------- sending

  /** Elements without an id are passed over. */
  predicate HasId(i: Object) {
    "id" in i && i["id"].Str? && i["id"].s != ""
  }

  function Id(i: Object): string
    requires HasId(i)
  {
    i["id"].s
  }

  function Lookup(sync: Elements, id: string): Object {
    if id in sync then sync[id] else map[]
  }

  predicate Changed(sync: Elements, i: Object)
    requires HasId(i)
  {
    if Id(i) in sync then !SameVersion(sync[Id(i)], i) else !Deleted(i)
  }

  /** What periodicSend collects from the scene. */
  function Delta(sync: Elements, scene: seq<Object>): Elements {
    if scene == [] then map[]
    else
      var d := Delta(sync, scene[..|scene| - 1]);
      var i := scene[|scene| - 1];
      if HasId(i) && Changed(sync, i) then d[Id(i) := Diff(Lookup(sync, Id(i)), i)] else d
  }

  /** What periodicSend does to its own record after a successful send. */
  function Recorded(sync: Elements, delta: Elements): Elements {
    map id | id in sync.Keys + delta.Keys && !(id in delta && Deleted(delta[id])) ::
      if id in delta then Assign(Lookup(sync, id), delta[id]) else sync[id]
  }

  /** What onMessage does with a received difference. */
  function Received(sync: Elements, delta: Elements): Elements {
    map id | id in sync.Keys + delta.Keys && !(id in delta && Deleted(delta[id])) ::
      if id in delta then Assign(Lookup(sync, id), delta[id])["id" := Str(id)] else sync[id]
  }

  // ---------------------------------------------------------------- properties

  /** Ids are unique in a scene, and each element carries a version and a nonce. */
  ghost predicate WellFormed(scene: seq<Object>) {
    && (forall i :: 0 <= i < |scene| ==> "version" in scene[i] && "versionNonce" in scene[i])
    && UniqueIds(scene)
  }

  ghost predicate UniqueIds(scene: seq<Object>) {
    forall i, j :: 0 <= i < j < |scene| && HasId(scene[i]) && HasId(scene[j]) ==> Id(scene[i]) != Id(scene[j])
  }

  /** Every recorded element carries its key as id. */
  ghost predicate Keyed(sync: Elements) {
    forall id :: id in sync ==> "id" in sync[id] && sync[id]["id"] == Str(id)
  }

  lemma {:induction false} DeltaHas(sync: Elements, scene: seq<Object>, id: string)
    requires id in Delta(sync, scene)
    ensures exists i :: 0 <= i < |scene| && HasId(scene[i]) && Id(scene[i]) == id && Changed(sync, scene[i])
                        && Delta(sync, scene)[id] == Diff(Lookup(sync, id), scene[i])
  {
    var n := |scene| - 1;
    var i := scene[n];
    if !(HasId(i) && Changed(sync, i) && Id(i) == id) {
      DeltaHas(sync, scene[..n], id);
      var j :| 0 <= j < n && HasId(scene[..n][j]) && Id(scene[..n][j]) == id && Changed(sync, scene[..n][j])
               && Delta(sync, scene[..n])[id] == Diff(Lookup(sync, id), scene[..n][j]);
      assert scene[j] == scene[..n][j];
    }
  }

  /** With unique ids the difference has exactly the changed elements. */
  lemma {:induction false} DeltaIs(sync: Elements, scene: seq<Object>, k: nat)
    requires UniqueIds(scene) && k < |scene| && HasId(scene[k])
    ensures var id := Id(scene[k]);
      && (id in Delta(sync, scene) <==> Changed(sync, scene[k]))
      && (Changed(sync, scene[k]) ==> Delta(sync, scene)[id] == Diff(Lookup(sync, id), scene[k]))
  {
    var n := |scene| - 1;
    var pre := scene[..n];
    var id := Id(scene[k]);
    if k < n {
      assert pre[k] == scene[k];
      DeltaIs(sync, pre, k);
    } else {
      forall j | 0 <= j < n && HasId(pre[j]) ensures Id(pre[j]) != id { assert scene[j] == pre[j]; }
      DeltaLacks(sync, pre, id);
    }
  }

  lemma {:induction false} DeltaLacks(sync: Elements, scene: seq<Object>, id: string)
    requires forall j :: 0 <= j < |scene| && HasId(scene[j]) ==> Id(scene[j]) != id
    ensures id !in Delta(sync, scene)
  {
    if scene != [] {
      var n := |scene| - 1;
      forall j | 0 <= j < n && HasId(scene[..n][j]) ensures Id(scene[..n][j]) != id { assert scene[..n][j] == scene[j]; }
      DeltaLacks(sync, scene[..n], id);
    }
  }

  /** After an element was sent, it does not count as changed any more. */
  lemma SentOnce(sync: Elements, scene: seq<Object>, k: nat)
    requires WellFormed(scene) && k < |scene| && HasId(scene[k])
    ensures !Changed(Recorded(sync, Delta(sync, scene)), scene[k])
  {
    var i := scene[k];
    var id := Id(i);
    var last := Lookup(sync, id);
    DeltaIs(sync, scene, k);
    if Changed(sync, i) {
      DiffLaw(last, i);
    }
  }

  lemma {:induction false} NothingChanged(sync: Elements, scene: seq<Object>)
    requires forall k :: 0 <= k < |scene| && HasId(scene[k]) ==> !Changed(sync, scene[k])
    ensures Delta(sync, scene) == map[]
  {
    if scene != [] {
      NothingChanged(sync, scene[..|scene| - 1]);
    }
  }

  /** After a successful send, sending the same scene again sends no elements. */
  lemma SecondSendIsEmpty(sync: Elements, scene: seq<Object>)
    requires WellFormed(scene)
    ensures Delta(Recorded(sync, Delta(sync, scene)), scene) == map[]
  {
    forall k | 0 <= k < |scene| && HasId(scene[k]) ensures !Changed(Recorded(sync, Delta(sync, scene)), scene[k]) {
      SentOnce(sync, scene, k);
    }
    NothingChanged(Recorded(sync, Delta(sync, scene)), scene);
  }

  /** A difference taken by one client means the same to another: a replica that starts from the
      sender's record and applies the difference through onMessage ends with the sender's new
      record, and keys stay in step with ids. */
  lemma {:induction false} ReplicaFollows(sync: Elements, scene: seq<Object>)
    requires Keyed(sync)
    ensures Received(sync, Delta(sync, scene)) == Recorded(sync, Delta(sync, scene))
    ensures Keyed(Recorded(sync, Delta(sync, scene)))
  {
    hide Delta;
    var d := Delta(sync, scene);
    forall id | id in d ensures "id" in Assign(Lookup(sync, id), d[id]) && Assign(Lookup(sync, id), d[id])["id"] == Str(id) {
      SentKeepsId(sync, scene, id);
    }
    SameIfKeyed(sync, d);
  }

  lemma SentKeepsId(sync: Elements, scene: seq<Object>, id: string)
    requires id in Delta(sync, scene)
    ensures var o := Assign(Lookup(sync, id), Delta(sync, scene)[id]); "id" in o && o["id"] == Str(id)
  {
    DeltaHas(sync, scene, id);
    var i :| 0 <= i < |scene| && HasId(scene[i]) && Id(scene[i]) == id && Delta(sync, scene)[id] == Diff(Lookup(sync, id), scene[i]);
    DiffLaw(Lookup(sync, id), scene[i]);
  }

  lemma SameIfKeyed(sync: Elements, d: Elements)
    requires Keyed(sync)
    requires forall id :: id in d ==>
      "id" in Assign(Lookup(sync, id), d[id]) && Assign(Lookup(sync, id), d[id])["id"] == Str(id)
    ensures Received(sync, d) == Recorded(sync, d) && Keyed(Recorded(sync, d))
  {
    hide Assign, Deleted, Lookup;
    var a, b := Received(sync, d), Recorded(sync, d);
    assert a.Keys == b.Keys;
    forall id | id in d ensures Assign(Lookup(sync, id), d[id])["id" := Str(id)] == Assign(Lookup(sync, id), d[id]) {
      SetAgain(Assign(Lookup(sync, id), d[id]), "id", Str(id));
    }
    forall id | id in b ensures a[id] == b[id] {}
  }

  lemma SetAgain(o: Object, k: string, v: Json)
    requires k in o && o[k] == v
    ensures o[k := v] == o
  {
  }

  /** The record of a client that sends each scene in turn. */
  function Sender(sync: Elements, scenes: seq<seq<Object>>): Elements {
    if scenes == [] then sync
    else
      var s := Sender(sync, scenes[..|scenes| - 1]);
      Recorded(s, Delta(s, scenes[|scenes| - 1]))
  }

  /** The record of a client that receives what the sender sends. */
  function Replica(sync: Elements, scenes: seq<seq<Object>>): Elements {
    if scenes == [] then sync
    else
      Received(Replica(sync, scenes[..|scenes| - 1]), Delta(Sender(sync, scenes[..|scenes| - 1]), scenes[|scenes| - 1]))
  }

  /** Through any sequence of sends the replica's map is the sender's. */
  lemma {:induction false} ReplicaStaysInStep(sync: Elements, scenes: seq<seq<Object>>)
    requires Keyed(sync)
    ensures Replica(sync, scenes) == Sender(sync, scenes) && Keyed(Sender(sync, scenes))
  {
    if scenes != [] {
      var n := |scenes| - 1;
      ReplicaStaysInStep(sync, scenes[..n]);
      ReplicaFollows(Sender(sync, scenes[..n]), scenes[n]);
    }
  }

  /** The first message of a session sets the whole record. */
  function Synced(e: Elements): Elements {
    map id | id in e :: e[id]["id" := Str(id)]
  }

  // ---------------------------------------------------------------- in place

  class Collab {
    var elements: Elements
    var state: Object

    constructor ()
      ensures elements == map[] && state == map[]
    {
      elements, state := map[], map[];
    }

    /** objectDiff, key by key */
    static method ObjectDiff(from: Object, to: Object) returns (diff: Object)
      ensures diff == Diff(from, to)
    {
      diff := map[];
      var rest := from.Keys;
      while rest != {}
        invariant rest <= from.Keys
        invariant diff == map k | k in from.Keys - rest && k !in to :: Null
        decreases |rest|
      {
        var k :| k in rest;
        if k !in to { diff := diff[k := Null]; }
        rest := rest - {k};
      }
      assert diff == Removed(from, to);
      diff := AddChanged(from, to, diff);
    }

    /** The second loop of objectDiff. */
    static method AddChanged(from: Object, to: Object, gone: Object) returns (diff: Object)
      requires gone == Removed(from, to)
      ensures diff == Diff(from, to)
    {
      diff := gone;
      var rest := to.Keys;
      NoneChanged(from, to, gone);
      while rest != {}
        invariant rest <= to.Keys && diff == gone + ChangedIn(from, to, to.Keys - rest)
        decreases |rest|
      {
        hide ChangedIn;
        var k :| k in rest;
        ChangedMore(from, to, to.Keys - rest, k, gone);
        if k !in from || from[k] != to[k] { diff := diff[k := to[k]]; }
        assert to.Keys - (rest - {k}) == (to.Keys - rest) + {k};
        rest := rest - {k};
      }
      assert to.Keys - rest == to.Keys;
      AllChanged(from, to);
    }

    method Collect(scene: seq<Object>) returns (delta: Elements)
      ensures delta == Delta(elements, scene)
    {
      delta := map[];
      for n := 0 to |scene|
        invariant delta == Delta(elements, scene[..n])
      {
        assert scene[..n + 1][..n] == scene[..n];
        var i := scene[n];
        if HasId(i) {
          var id := i["id"].s;
          if (id !in elements && !Deleted(i)) || (id in elements && !SameVersion(elements[id], i)) {
            var diff := ObjectDiff(if id in elements then elements[id] else map[], i);
            delta := delta[id := diff];
          }
        }
      }
      assert scene[..|scene|] == scene;
    }

    /** periodicSend; `online` says whether the socket took the message. */
    method PeriodicSend(scene: seq<Object>, current: Object, online: bool) returns (sent: bool, e: Elements, s: Object)
      modifies this
      ensures e == Delta(old(elements), scene) && s == Diff(old(state), current)
      ensures sent == (online && (e != map[] || s != map[]))
      ensures elements == if sent then Recorded(old(elements), e) else old(elements)
      ensures state == if sent then Assign(old(state), s) else old(state)
    {
      e := Collect(scene);
      s := ObjectDiff(state, current);
      sent := online && (e != map[] || s != map[]);
      if sent {
        Record(e);
        state := Assign(state, s);
      }
    }

    method Record(e: Elements)
      modifies this`elements
      ensures elements == Recorded(old(elements), e)
    {
      hide Recorded;
      ghost var before := elements;
      ghost var done: Elements := map[];
      var rest := e.Keys;
      NothingYet(before);
      while rest != {}
        invariant rest <= e.Keys && done.Keys == e.Keys - rest && forall id :: id in done ==> done[id] == e[id]
        invariant elements == Recorded(before, done)
        decreases |rest|
      {
        var id :| id in rest;
        RecordedMore(before, done, id, e[id]);
        if Deleted(e[id]) {
          elements := elements - {id};
        } else {
          elements := elements[id := Assign(if id in elements then elements[id] else map[], e[id])];
        }
        done := done[id := e[id]];
        rest := rest - {id};
      }
      assert done == e;
    }

    /** The part of onMessage that applies a difference. */
    method OnElements(e: Elements)
      modifies this`elements
      ensures elements == Received(old(elements), e)
    {
      hide Received;
      ghost var before := elements;
      ghost var done: Elements := map[];
      var rest := e.Keys;
      NothingYet(before);
      while rest != {}
        invariant rest <= e.Keys && done.Keys == e.Keys - rest && forall id :: id in done ==> done[id] == e[id]
        invariant elements == Received(before, done)
        decreases |rest|
      {
        var id :| id in rest;
        ReceivedMore(before, done, id, e[id]);
        if Deleted(e[id]) {
          elements := elements - {id};
        } else {
          elements := elements[id := Assign(if id in elements then elements[id] else map[], e[id])["id" := Str(id)]];
        }
        done := done[id := e[id]];
        rest := rest - {id};
      }
      assert done == e;
    }

    /** The part of onMessage that starts a session. */
    method OnSync(e: Elements)
      modifies this
      ensures elements == Synced(e) && state == map[]
    {
      hide Synced;
      NothingYet(map[]);
      state := map[];
      elements := map[];
      ghost var done: Elements := map[];
      var rest := e.Keys;
      while rest != {}
        invariant rest <= e.Keys && state == map[]
        invariant done.Keys == e.Keys - rest && forall id :: id in done ==> done[id] == e[id]
        invariant elements == Synced(done)
        decreases |rest|
      {
        var id :| id in rest;
        SyncedMore(done, id, e[id]);
        elements := elements[id := e[id]["id" := Str(id)]];
        done := done[id := e[id]];
        rest := rest - {id};
      }
      assert done == e;
    }
  }

  /** The changed properties among `keys`. */
  function ChangedIn(from: Object, to: Object, keys: set<string>): Object {
    map k | k in keys && k in to && (k !in from || from[k] != to[k]) :: to[k]
  }

  lemma NoneChanged(from: Object, to: Object, gone: Object)
    ensures gone + ChangedIn(from, to, to.Keys - to.Keys) == gone
  {
  }

  lemma ChangedMore(from: Object, to: Object, keys: set<string>, k: string, gone: Object)
    requires k in to
    ensures gone + ChangedIn(from, to, keys + {k}) ==
      var d := gone + ChangedIn(from, to, keys); if k !in from || from[k] != to[k] then d[k := to[k]] else d
  {
    var a, b := ChangedIn(from, to, keys), ChangedIn(from, to, keys + {k});
    if k !in from || from[k] != to[k] {
      assert b == a[k := to[k]];
      assert gone + a[k := to[k]] == (gone + a)[k := to[k]];
    } else {
      assert b == a;
    }
  }

  lemma AllChanged(from: Object, to: Object)
    ensures Removed(from, to) + ChangedIn(from, to, to.Keys) == Diff(from, to)
  {
  }

  lemma SyncedMore(d: Elements, id: string, o: Object)
    ensures Synced(d[id := o]) == Synced(d)[id := o["id" := Str(id)]]
  {
  }

  lemma NothingYet(sync: Elements)
    ensures Recorded(sync, map[]) == sync && Received(sync, map[]) == sync && Synced(map[]) == map[]
  {
  }

  lemma RecordedMore(sync: Elements, d: Elements, id: string, o: Object)
    requires id !in d
    ensures var r := Recorded(sync, d);
      Recorded(sync, d[id := o]) == if Deleted(o) then r - {id} else r[id := Assign(Lookup(r, id), o)]
  {
    hide Assign, Deleted;
    var r := Recorded(sync, d);
    var a := Recorded(sync, d[id := o]);
    var b := if Deleted(o) then r - {id} else r[id := Assign(Lookup(r, id), o)];
    assert a.Keys == b.Keys;
  }

  lemma ReceivedMore(sync: Elements, d: Elements, id: string, o: Object)
    requires id !in d
    ensures var r := Received(sync, d);
      Received(sync, d[id := o]) == if Deleted(o) then r - {id} else r[id := Assign(Lookup(r, id), o)["id" := Str(id)]]
  {
    hide Assign, Deleted;
    var r := Received(sync, d);
    var a := Received(sync, d[id := o]);
    var b := if Deleted(o) then r - {id} else r[id := Assign(Lookup(r, id), o)["id" := Str(id)]];
    assert a.Keys == b.Keys;
  }
}
