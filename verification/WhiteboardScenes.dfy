/**
 What a client sends of a scene and what it then keeps on record, property by property.
 */
module WhiteboardScenes {
  import opened Whiteboard

  // ---------------------------------------------------------------- elements

  /** The element carries this id; the empty string is none. */
  predicate Carries(o: Object, id: string) {
    "id" in o && o["id"] == Str(id) && id != ""
  }

  /** What JavaScript takes for true. */
  predicate Holds(o: Object, k: string) {
    k in o && o[k] !in {Null, Bool(false), Num(0), Str("")}
  }

  predicate Differ(a: Object, b: Object, k: string) {
    (k in a && k !in b) || (k !in a && k in b) || (k in a && k in b && a[k] != b[k])
  }

  /** The element is to be sent: a recorded one when its version or its nonce changed, another one
      unless it is marked as deleted. */
  predicate ToSend(sync: Elements, i: Object, id: string) {
    if id in sync then Differ(sync[id], i, "version") || Differ(sync[id], i, "versionNonce") else !Holds(i, "isDeleted")
  }

  ghost predicate OneEach(scene: seq<Object>) {
    forall i, j, id :: 0 <= i < j < |scene| && Carries(scene[i], id) ==> !Carries(scene[j], id)
  }

  function Last(sync: Elements, id: string): Object {
    if id in sync then sync[id] else map[]
  }

  lemma CarriesId(o: Object, id: string)
    ensures Carries(o, id) <==> HasId(o) && Id(o) == id
  {
  }

  lemma HoldsIs(o: Object)
    ensures Holds(o, "isDeleted") <==> Deleted(o)
  {
  }

  lemma ToSendIs(sync: Elements, i: Object, id: string)
    requires Carries(i, id)
    ensures HasId(i) && (ToSend(sync, i, id) <==> Changed(sync, i))
  {
    HoldsIs(i);
  }

  lemma OneEachIs(scene: seq<Object>)
    requires OneEach(scene)
    ensures UniqueIds(scene)
  {
    forall i, j | 0 <= i < j < |scene| && HasId(scene[i]) && HasId(scene[j]) ensures Id(scene[i]) != Id(scene[j]) {
      CarriesId(scene[i], Id(scene[i]));
      CarriesId(scene[j], Id(scene[i]));
    }
  }

  // ---------------------------------------------------------------- sending

  /** The difference from `last` to `now`: what changed with its new value, what is gone as null. */
  ghost predicate IsDifference(last: Object, now: Object, d: Object) {
    && (forall p :: p in d <==> Differ(last, now, p))
    && (forall p :: p in d ==> d[p] == if p in now then now[p] else Null)
  }

  lemma DifferenceIs(last: Object, now: Object)
    ensures IsDifference(last, now, Diff(last, now))
  {
  }

  /** An element of the scene is sent exactly if it is to be sent, and then as its difference from
      what is on record. */
  lemma SentExactly(sync: Elements, scene: seq<Object>, k: nat, id: string)
    requires OneEach(scene) && k < |scene| && Carries(scene[k], id)
    ensures var d := Delta(sync, scene);
      && (id in d <==> ToSend(sync, scene[k], id))
      && (id in d ==> IsDifference(Last(sync, id), scene[k], d[id]))
  {
    hide ToSend, Changed, Diff, IsDifference;
    OneEachIs(scene);
    CarriesId(scene[k], id);
    ToSendIs(sync, scene[k], id);
    DeltaIs(sync, scene, k);
    DifferenceIs(Last(sync, id), scene[k]);
    LastIs(sync, id);
  }

  lemma LastIs(sync: Elements, id: string)
    ensures Last(sync, id) == Lookup(sync, id)
  {
  }

  /** Nothing is sent that is not in the scene. */
  lemma SentFromScene(sync: Elements, scene: seq<Object>, id: string)
    requires id in Delta(sync, scene)
    ensures exists k :: 0 <= k < |scene| && Carries(scene[k], id)
  {
    DeltaHas(sync, scene, id);
    var k :| 0 <= k < |scene| && HasId(scene[k]) && Id(scene[k]) == id;
    CarriesId(scene[k], id);
  }

  // ---------------------------------------------------------------- the record

  /** `r` is `now`, with null for what `last` had and `now` has not. */
  ghost predicate IsMerged(last: Object, now: Object, r: Object) {
    && (forall p :: p in r <==> p in last || p in now)
    && (forall p :: p in r ==> r[p] == if p in now then now[p] else Null)
  }

  /** The element has newly been marked as deleted. */
  predicate NewlyDeleted(last: Object, now: Object) {
    Holds(now, "isDeleted") && Differ(last, now, "isDeleted")
  }

  /** After a successful send, what was sent is on record as it is in the scene, unless it was
      newly marked as deleted: then it is off the record. */
  lemma RecordedAsInScene(sync: Elements, scene: seq<Object>, k: nat, id: string)
    requires OneEach(scene) && k < |scene| && Carries(scene[k], id) && ToSend(sync, scene[k], id)
    ensures var r := Recorded(sync, Delta(sync, scene)); var last := Last(sync, id);
      && (id in r <==> !NewlyDeleted(last, scene[k]))
      && (id in r ==> IsMerged(last, scene[k], r[id]))
  {
    hide ToSend, Delta;
    SentExactly(sync, scene, k, id);
    var d := Delta(sync, scene);
    HoldsIs(d[id]);
    LastIs(sync, id);
  }

  /** Everything else on record is as it was. */
  lemma RecordedElse(sync: Elements, scene: seq<Object>, id: string)
    requires OneEach(scene)
    requires forall k :: 0 <= k < |scene| && Carries(scene[k], id) ==> !ToSend(sync, scene[k], id)
    ensures var r := Recorded(sync, Delta(sync, scene)); (id in r <==> id in sync) && (id in r ==> r[id] == sync[id])
  {
    hide ToSend, Delta;
    if id in Delta(sync, scene) {
      SentFromScene(sync, scene, id);
      var k :| 0 <= k < |scene| && Carries(scene[k], id);
      SentExactly(sync, scene, k, id);
    }
  }

  /** What a client makes of a difference that it receives: properties are taken over, the id is the
      key, and what the difference marks as deleted goes off the record. */
  lemma ReceivedMeans(sync: Elements, delta: Elements, id: string)
    ensures var r := Received(sync, delta);
      && (id in r <==> (id in sync || id in delta) && !(id in delta && Holds(delta[id], "isDeleted")))
      && (id in r && id !in delta ==> r[id] == sync[id])
      && (id in r && id in delta ==>
            && (forall p :: p in r[id] <==> p == "id" || p in delta[id] || p in Last(sync, id))
            && (forall p :: p in r[id] ==>
                  r[id][p] == if p == "id" then Str(id) else if p in delta[id] then delta[id][p] else Last(sync, id)[p]))
  {
    if id in delta { HoldsIs(delta[id]); }
    LastIs(sync, id);
  }

  /** The first message of a session is the whole record, each element under its key as id. */
  lemma SessionStarts(e: Elements)
    ensures var r := Synced(e);
      && r.Keys == e.Keys && Keyed(r)
      && forall id :: id in e ==>
        && r[id].Keys == e[id].Keys + {"id"} && r[id]["id"] == Str(id)
        && forall p :: p in e[id] && p != "id" ==> r[id][p] == e[id][p]
  {
  }
}
