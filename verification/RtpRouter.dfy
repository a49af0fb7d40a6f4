/**
 Router capabilities (src/rct/rct_router.c): every codec of the configuration that the worker
 supports gets a payload type, and every video codec a retransmission codec (RFC 4588) right
 behind it. Types come from the dynamic range of RFC 3551, section 6.
 */
module RtpRouter {
  import opened RtpCodecs

  /** The types that the router may hand out, in order: 100 to 127, then 96 to 99. */
  function FirstTypes(n: nat): (r: seq<int>)
    ensures |r| == n && forall i :: 0 <= i < n ==> r[i] == if i < 28 then 100 + i else 68 + i
  {
    if n == 0 then [] else FirstTypes(n - 1) + [if n - 1 < 28 then 99 + n else 67 + n]
  }

  function Pool(): seq<int> {
    FirstTypes(32)
  }

  /** Where a payload type came from. */
  datatype Origin = Configured | Static | Pooled | Retransmit

  datatype Entry = Entry(codec: Codec, origin: Origin)

  datatype Work = Work(entries: seq<Entry>, pool: seq<int>, tooMany: bool)

  // ---------------------------------------------------------------- the algorithm

  predicate Supported(uc: Codec, ac: Codec) {
    && uc.mime.Some? && ac.mime == uc.mime
    && uc.clock.Some? && ac.clock == uc.clock
    && Or(uc.channels, 1) == Or(ac.channels, 1)
    && (uc.mime.value == "video/h264" ==> Or(uc.mode, 0) == Or(ac.mode, 0))
  }

  /** The supported codec with everything that the configuration says on top. */
  function Patched(ac: Codec, uc: Codec): Codec {
    Codec(First(uc.kind, ac.kind), First(uc.mime, ac.mime), First(uc.clock, ac.clock), First(uc.channels, ac.channels),
          First(uc.pt, ac.pt), First(uc.apt, ac.apt), First(uc.mode, ac.mode), First(uc.profile, ac.profile),
          ac.extra + uc.extra, if uc.feedback == [] then ac.feedback else uc.feedback)
  }

  function Without(pool: seq<int>, t: int): seq<int> {
    if pool == [] then [] else if pool[0] == t then pool[1..] else [pool[0]] + Without(pool[1..], t)
  }

  predicate IsVideo(c: Codec) {
    c.kind.Some? && |c.kind.value| <= 5 && c.kind.value == "video"[..|c.kind.value|]
  }

  function Rtx(c: Codec, t: int): Codec {
    Codec(Some("video"), Some("video/rtx"), c.clock, None, Some(t), Some(Or(c.pt, 0)), None, None, map[], [])
  }

  /** Settles the payload type of one matched codec and appends it. */
  function AddMedia(w: Work, uc: Codec, ac: Codec): Work {
    var c := Patched(ac, uc);
    if Or(uc.pt, 0) != 0 then
      Work(w.entries + [Entry(c, Configured)], Without(w.pool, Or(uc.pt, 0)), false)
    else if Or(c.pt, 0) != 0 then
      Work(w.entries + [Entry(c, Static)], w.pool, false)
    else if w.pool == [] then w.(tooMany := true)
    else Work(w.entries + [Entry(c.(pt := Some(w.pool[0])), Pooled)], w.pool[1..], false)
  }

  function AddRtx(w: Work, c: Codec): Work {
    if w.pool == [] then w.(tooMany := true)
    else Work(w.entries + [Entry(Rtx(c, w.pool[0]), Retransmit)], w.pool[1..], false)
  }

  /** One codec of the configuration against the supported ones. A codec that is described
      without a kind does not end the search. */
  function AddCodec(w: Work, uc: Codec, available: seq<Codec>): Work
    decreases |available|
  {
    if w.tooMany || available == [] then w
    else if !Supported(uc, available[0]) then AddCodec(w, uc, available[1..])
    else
      var w1 := AddMedia(w, uc, available[0]);
      if w1.tooMany then w1
      else
        var c := w1.entries[|w1.entries| - 1].codec;
        if c.kind.None? then AddCodec(w1, uc, available[1..])
        else if IsVideo(c) then AddRtx(w1, c)
        else w1
  }

  function AddAll(w: Work, users: seq<Codec>, available: seq<Codec>): Work
    decreases |users|
  {
    if w.tooMany || users == [] then w
    else AddAll(AddCodec(w, users[0], available), users[1..], available)
  }

  function Codecs(entries: seq<Entry>): (r: seq<Codec>)
    ensures |r| == |entries| && forall i :: 0 <= i < |r| ==> r[i] == entries[i].codec
  {
    if entries == [] then [] else Codecs(entries[..|entries| - 1]) + [entries[|entries| - 1].codec]
  }

  function Negotiated(users: seq<Codec>, available: seq<Codec>): Work {
    AddAll(Work([], Pool(), false), users, available)
  }

  // ---------------------------------------------------------------- what it keeps

  predicate Dynamic(t: int) {
    96 <= t <= 127
  }

  /** What the worker supports: nothing there is a retransmission codec, every codec has a
      kind, and no codec has a dynamic type of its own. */
  ghost predicate Sane(available: seq<Codec>) {
    forall ac :: ac in available ==> !IsRtx(ac) && ac.kind.Some? && !Dynamic(Or(ac.pt, 0))
  }

  function Types(entries: seq<Entry>): (r: seq<int>)
    ensures |r| == |entries| && forall i :: 0 <= i < |r| ==> r[i] == Or(entries[i].codec.pt, 0)
  {
    if entries == [] then [] else Types(entries[..|entries| - 1]) + [Or(entries[|entries| - 1].codec.pt, 0)]
  }

  ghost predicate NoRepeat(l: seq<int>) {
    forall i, j :: 0 <= i < j < |l| ==> l[i] != l[j]
  }

  predicate FromPool(o: Origin) {
    o == Pooled || o == Retransmit
  }

  /** The type at `j` was not in use when it was handed out. */
  ghost predicate FreshAt(e: seq<Entry>, j: nat)
    requires j < |e|
  {
    forall i :: 0 <= i < j ==> Or(e[i].codec.pt, 0) != Or(e[j].codec.pt, 0)
  }

  /** Types from the pool are dynamic and were free. */
  ghost predicate PoolTypes(e: seq<Entry>) {
    forall j :: 0 <= j < |e| && FromPool(e[j].origin) ==> Dynamic(Or(e[j].codec.pt, 0)) && FreshAt(e, j)
  }

  /** A type of the dynamic range is either still in the pool or in use, never both. */
  ghost predicate Accounted(w: Work) {
    && NoRepeat(w.pool)
    && (forall t :: t in w.pool ==> Dynamic(t) && t !in Types(w.entries))
    && (forall t :: Dynamic(t) && t !in w.pool ==> t in Types(w.entries))
  }

  predicate RtxAt(e: seq<Entry>, j: nat)
    requires j < |e|
  {
    && j > 0 && e[j - 1].origin != Retransmit && IsVideo(e[j - 1].codec)
    && e[j].codec == Rtx(e[j - 1].codec, Or(e[j].codec.pt, 0)) && e[j].codec.pt.Some?
    && e[j - 1].codec.pt == e[j].codec.apt
  }

  /** Every retransmission codec stands right behind the video codec whose type it names. */
  ghost predicate RtxBehindVideo(e: seq<Entry>) {
    && (forall j :: 0 <= j < |e| && e[j].origin == Retransmit ==> RtxAt(e, j))
    && (forall j :: 0 <= j < |e| ==> (IsRtx(e[j].codec) <==> e[j].origin == Retransmit) && e[j].codec.pt.Some?)
  }

  /** Every video codec but possibly the one just added has its retransmission codec. */
  ghost predicate VideoHasRtx(e: seq<Entry>, n: nat) {
    forall j :: 0 <= j < n && j < |e| && e[j].origin != Retransmit && IsVideo(e[j].codec) ==>
      j + 1 < |e| && e[j + 1].origin == Retransmit
  }

  ghost predicate Kept(w: Work, n: nat) {
    && Accounted(w) && PoolTypes(w.entries) && RtxBehindVideo(w.entries) && VideoHasRtx(w.entries, n)
    && n <= |w.entries| && (w.tooMany ==> w.pool == [])
  }

  // ---------------------------------------------------------------- proofs

  lemma TypesSnoc(e: seq<Entry>, x: Entry)
    ensures Types(e + [x]) == Types(e) + [Or(x.codec.pt, 0)]
  {
    assert (e + [x])[..|e|] == e;
  }

  lemma {:induction false} WithoutIs(pool: seq<int>, t: int)
    requires NoRepeat(pool)
    ensures NoRepeat(Without(pool, t)) && forall x :: x in Without(pool, t) <==> x in pool && x != t
  {
    if pool != [] {
      assert pool == [pool[0]] + pool[1..];
      WithoutIs(pool[1..], t);
      forall x | x in pool[1..] ensures x != pool[0] {
        var j :| 0 <= j < |pool[1..]| && pool[1..][j] == x;
        assert pool[j + 1] == x;
      }
      if pool[0] == t {
        TailIs(pool);
      } else {
        var rest := Without(pool[1..], t);
        forall i, j | 0 <= i < j < |rest| + 1 ensures ([pool[0]] + rest)[i] != ([pool[0]] + rest)[j] {
          assert rest[j - 1] in rest;
        }
      }
    }
  }

  lemma TailIs(pool: seq<int>)
    requires NoRepeat(pool) && pool != []
    ensures NoRepeat(pool[1..]) && forall x :: x in pool[1..] <==> x in pool && x != pool[0]
  {
    assert pool == [pool[0]] + pool[1..];
    forall x | x in pool[1..] ensures x != pool[0] {
      var j :| 0 <= j < |pool[1..]| && pool[1..][j] == x;
      assert pool[j + 1] == x;
    }
  }

  /** Appending an entry whose type leaves the pool keeps the account. */
  lemma AccountedSnoc(w: Work, x: Entry, pool: seq<int>)
    requires Accounted(w) && NoRepeat(pool)
    requires forall t :: t in pool <==> t in w.pool && t != Or(x.codec.pt, 0)
    ensures Accounted(Work(w.entries + [x], pool, false))
  {
    TypesSnoc(w.entries, x);
  }

  lemma PoolTypesSnoc(w: Work, x: Entry)
    requires Accounted(w) && PoolTypes(w.entries) && (FromPool(x.origin) ==> Or(x.codec.pt, 0) in w.pool)
    ensures PoolTypes(w.entries + [x])
  {
    var e := w.entries;
    var f := e + [x];
    forall j | 0 <= j < |f| && FromPool(f[j].origin) ensures Dynamic(Or(f[j].codec.pt, 0)) && FreshAt(f, j) {
      if j < |e| {
        assert FreshAt(e, j);
      } else {
        forall i | 0 <= i < j ensures Or(f[i].codec.pt, 0) != Or(f[j].codec.pt, 0) {
          assert Types(e)[i] in Types(e);
        }
      }
    }
  }

  lemma RtxSnoc(e: seq<Entry>, x: Entry)
    requires RtxBehindVideo(e) && x.codec.pt.Some? && (IsRtx(x.codec) <==> x.origin == Retransmit)
    requires x.origin == Retransmit ==> RtxAt(e + [x], |e|)
    ensures RtxBehindVideo(e + [x])
  {
    var f := e + [x];
    forall j | 0 <= j < |f| && f[j].origin == Retransmit ensures RtxAt(f, j) {
      if j < |e| { assert RtxAt(e, j); }
    }
  }

  /** What adding a media codec appends. */
  lemma AddMediaIs(w: Work, uc: Codec, ac: Codec)
    requires !w.tooMany && Supported(uc, ac) && !IsRtx(ac) && ac.kind.Some?
    ensures var w1 := AddMedia(w, uc, ac);
      if w1.tooMany then w1.entries == w.entries && w1.pool == w.pool == []
      else
        && |w1.entries| == |w.entries| + 1 && w1.entries == w.entries + [w1.entries[|w.entries|]]
        && w1 == Work(w1.entries, w1.pool, false)
        && var x := w1.entries[|w.entries|];
        x.origin != Retransmit && x.codec.kind.Some? && x.codec.pt.Some? && !IsRtx(x.codec)
  {
  }

  lemma VideoSnoc(e: seq<Entry>, x: Entry)
    requires VideoHasRtx(e, |e|)
    ensures VideoHasRtx(e + [x], |e|)
  {
  }

  lemma AddMediaKept(w: Work, uc: Codec, ac: Codec)
    requires Kept(w, |w.entries|) && !w.tooMany && Supported(uc, ac)
    requires !IsRtx(ac) && ac.kind.Some? && !Dynamic(Or(ac.pt, 0))
    ensures var w1 := AddMedia(w, uc, ac);
      && Kept(w1, |w.entries|) && (w1.tooMany ==> w1.entries == w.entries)
      && (!w1.tooMany ==>
            |w1.entries| == |w.entries| + 1 && w1.entries[|w.entries|].origin != Retransmit
            && w1.entries[|w.entries|].codec.kind.Some?)
  {
    hide Accounted, PoolTypes, RtxBehindVideo, AddMedia, VideoHasRtx, Supported, IsRtx, Or, NoRepeat;
    var w1 := AddMedia(w, uc, ac);
    AddMediaIs(w, uc, ac);
    if !w1.tooMany {
      var x := w1.entries[|w.entries|];
      PoolAfterMedia(w, uc, ac);
      AccountedSnoc(w, x, w1.pool);
      PoolTypesSnoc(w, x);
      RtxSnoc(w.entries, x);
      VideoSnoc(w.entries, x);
    } else {
      AccountedSame(w, w1);
    }
  }

  lemma AccountedSame(w: Work, w1: Work)
    requires Accounted(w) && w1.entries == w.entries && w1.pool == w.pool
    ensures Accounted(w1)
  {
  }

  lemma PoolAfterMedia(w: Work, uc: Codec, ac: Codec)
    requires Accounted(w) && !Dynamic(Or(ac.pt, 0)) && !AddMedia(w, uc, ac).tooMany
    ensures var w1 := AddMedia(w, uc, ac); var x := w1.entries[|w.entries|];
      && NoRepeat(w1.pool) && (forall t :: t in w1.pool <==> t in w.pool && t != Or(x.codec.pt, 0))
      && (FromPool(x.origin) ==> Or(x.codec.pt, 0) in w.pool)
  {
    if Or(uc.pt, 0) != 0 {
      WithoutIs(w.pool, Or(uc.pt, 0));
    } else if Or(Patched(ac, uc).pt, 0) == 0 {
      TailIs(w.pool);
    }
  }

  lemma AddRtxKept(w: Work, n: nat)
    requires Kept(w, n) && !w.tooMany && |w.entries| == n + 1
    requires w.entries[n].origin != Retransmit && IsVideo(w.entries[n].codec)
    ensures var w1 := AddRtx(w, w.entries[n].codec);
      Kept(w1, if w1.tooMany then n else |w1.entries|)
  {
    hide Accounted, PoolTypes, RtxBehindVideo;
    var c := w.entries[n].codec;
    var w1 := AddRtx(w, c);
    if !w1.tooMany {
      var x := w1.entries[n + 1];
      RtxTailIs(w);
      AccountedSnoc(w, x, w1.pool);
      PoolTypesSnoc(w, x);
      HasType(w.entries, n);
      RtxSnoc(w.entries, x);
    } else {
      AccountedSame(w, w1);
    }
  }

  lemma RtxTailIs(w: Work)
    requires Accounted(w) && w.pool != []
    ensures NoRepeat(w.pool[1..]) && forall x :: x in w.pool[1..] <==> x in w.pool && x != w.pool[0]
  {
    TailIs(w.pool);
  }

  lemma HasType(e: seq<Entry>, i: nat)
    requires RtxBehindVideo(e) && i < |e|
    ensures e[i].codec.pt.Some?
  {
  }

  /** All entries have their retransmission codec, or the pool ran dry. */
  ghost predicate Whole(w: Work) {
    if w.tooMany then exists n: nat :: n <= |w.entries| <= n + 1 && Kept(w, n) else Kept(w, |w.entries|)
  }

  lemma {:induction false} AddCodecKept(w: Work, uc: Codec, available: seq<Codec>)
    requires Kept(w, |w.entries|) && !w.tooMany && Sane(available)
    ensures Whole(AddCodec(w, uc, available)) && |AddCodec(w, uc, available).entries| <= |w.entries| + 2
    decreases |available|
  {
    hide Kept, AddMedia, AddRtx;
    if available != [] {
      assert available == [available[0]] + available[1..];
      assert available[0] in available;
      if Supported(uc, available[0]) {
        AddMediaKept(w, uc, available[0]);
        var n := |w.entries|;
        var w1 := AddMedia(w, uc, available[0]);
        if w1.tooMany {
          assert Kept(w1, n);
        } else {
          var c := w1.entries[n].codec;
          if IsVideo(c) {
            AddRtxKept(w1, n);
            AddRtxSize(w1, c);
            assert AddRtx(w1, c).tooMany ==> Kept(AddRtx(w1, c), n);
          } else {
            AudioKept(w1, n);
          }
        }
      } else {
        AddCodecKept(w, uc, available[1..]);
      }
    }
  }

  lemma AddRtxSize(w: Work, c: Codec)
    requires !w.tooMany
    ensures AddRtx(w, c).tooMany <==> w.pool == []
    ensures |AddRtx(w, c).entries| == (if w.pool == [] then |w.entries| else |w.entries| + 1)
  {
  }

  lemma AudioKept(w: Work, n: nat)
    requires Kept(w, n) && |w.entries| == n + 1 && !IsVideo(w.entries[n].codec)
    ensures Kept(w, n + 1)
  {
  }

  lemma {:induction false} AddAllKept(w: Work, users: seq<Codec>, available: seq<Codec>)
    requires Whole(w) && Sane(available)
    ensures Whole(AddAll(w, users, available)) && |AddAll(w, users, available).entries| <= |w.entries| + 2 * |users|
    decreases |users|
  {
    hide Kept, AddCodec;
    if !w.tooMany && users != [] {
      AddCodecKept(w, users[0], available);
      AddAllKept(AddCodec(w, users[0], available), users[1..], available);
    }
  }

  lemma PoolIs()
    ensures Whole(Work([], Pool(), false))
  {
    forall t | Dynamic(t) ensures t in Pool() {
      if t < 100 { assert Pool()[t - 68] == t; } else { assert Pool()[t - 100] == t; }
    }
  }

  lemma NegotiatedWhole(users: seq<Codec>, available: seq<Codec>)
    requires Sane(available)
    ensures Whole(Negotiated(users, available)) && |Negotiated(users, available).entries| <= 2 * |users|
  {
    PoolIs();
    AddAllKept(Work([], Pool(), false), users, available);
  }

  // ---------------------------------------------------------------- results

  /** Types from the pool are dynamic, and differ from each other and from every type that was
      settled before them. */
  lemma PooledTypesAreFree(users: seq<Codec>, available: seq<Codec>, i: nat, j: nat)
    requires Sane(available)
    requires var e := Negotiated(users, available).entries; i < j < |e| && FromPool(e[j].origin)
    ensures var e := Negotiated(users, available).entries;
      Dynamic(Or(e[j].codec.pt, 0)) && e[i].codec.pt != e[j].codec.pt
  {
    NegotiatedWhole(users, available);
    var e := Negotiated(users, available).entries;
    assert FreshAt(e, j);
  }

  /** A finished list: each video codec is followed by exactly one retransmission codec, which
      names its type; there are no other retransmission codecs. */
  lemma VideoCarriesRtx(users: seq<Codec>, available: seq<Codec>, j: nat)
    requires Sane(available) && !Negotiated(users, available).tooMany
    requires j < |Negotiated(users, available).entries|
    ensures var c := Codecs(Negotiated(users, available).entries);
      && (IsRtx(c[j]) ==> j > 0 && !IsRtx(c[j - 1]) && IsVideo(c[j - 1]) && c[j].apt == c[j - 1].pt)
      && (!IsRtx(c[j]) && IsVideo(c[j]) ==> j + 1 < |c| && IsRtx(c[j + 1]))
      && c[j].pt.Some?
  {
    NegotiatedWhole(users, available);
    var e := Negotiated(users, available).entries;
    if e[j].origin == Retransmit { assert RtxAt(e, j); }
    assert VideoHasRtx(e, |e|);
  }

  /** The negotiation gives up only when every dynamic type is in use, hence never for up to
      sixteen configured codecs. */
  lemma TooManyIsTooMany(users: seq<Codec>, available: seq<Codec>)
    requires Sane(available) && Negotiated(users, available).tooMany
    ensures forall t :: Dynamic(t) ==> t in Types(Negotiated(users, available).entries)
    ensures |users| >= 16
  {
    NegotiatedWhole(users, available);
    var w := Negotiated(users, available);
    var n: nat :| n <= |w.entries| <= n + 1 && Kept(w, n);
    AllUsed(Types(w.entries), 32);
  }

  /** That many different types need that many entries. */
  lemma {:induction false} AllUsed(l: seq<int>, n: nat)
    requires n <= 32 && forall t :: 96 <= t < 96 + n ==> t in l
    ensures |l| >= n
  {
    if n > 0 {
      var t := 95 + n;
      assert t in l;
      var i :| 0 <= i < |l| && l[i] == t;
      var m := l[..i] + l[i + 1..];
      forall x | 96 <= x < 96 + (n - 1) ensures x in m {
        assert x in l;
        assert l == l[..i] + [t] + l[i + 1..];
      }
      AllUsed(m, n - 1);
    }
  }

  /** All types of the list differ exactly if no type of the configuration or of the worker
      repeats one that was settled before it. Pooled types never do, but a configured type can
      meet a pooled one that was handed out earlier. */
  lemma OnlyFixedTypesRepeat(users: seq<Codec>, available: seq<Codec>)
    requires Sane(available) && !Negotiated(users, available).tooMany
    ensures var e := Negotiated(users, available).entries;
      Distinct(Codecs(e)) <==> forall j :: 0 <= j < |e| && !FromPool(e[j].origin) ==> FreshAt(e, j)
  {
    NegotiatedWhole(users, available);
    var e := Negotiated(users, available).entries;
    if forall j :: 0 <= j < |e| && !FromPool(e[j].origin) ==> FreshAt(e, j) {
      forall i, j | 0 <= i < j < |e| ensures Codecs(e)[i].pt != Codecs(e)[j].pt { assert FreshAt(e, j); }
    }
    if Distinct(Codecs(e)) {
      forall j | 0 <= j < |e| ensures FreshAt(e, j) {
        forall i | 0 <= i < j ensures Or(e[i].codec.pt, 0) != Or(e[j].codec.pt, 0) {
          assert Codecs(e)[i].pt != Codecs(e)[j].pt;
        }
      }
    }
  }

  function Opus(t: Option<int>): Codec {
    Codec(Some("audio"), Some("audio/opus"), Some(48000), Some(2), t, None, None, None, map[], [])
  }

  /** The case in point: Opus without a type takes 100, and a second Opus is configured to 100. */
  lemma LateTypeCollides()
    ensures var c := Codecs(Negotiated([Opus(None), Opus(Some(100))], [Opus(None)]).entries);
      |c| == 2 && c[0].pt == Some(100) && c[1].pt == Some(100)
  {
    var a := [Opus(None)];
    var w0 := Work([], Pool(), false);
    var w1 := AddCodec(w0, Opus(None), a);
    var w2 := AddCodec(w1, Opus(Some(100)), a);
    assert Negotiated([Opus(None), Opus(Some(100))], a) == w2 by {
      assert [Opus(None), Opus(Some(100))][1..] == [Opus(Some(100))];
      assert [Opus(Some(100))][1..] == [];
    }
    assert w1.entries == [Entry(Opus(Some(100)), Pooled)] by {
      assert Patched(Opus(None), Opus(None)) == Opus(None);
      assert AddMedia(w0, Opus(None), a[0]).entries == [Entry(Opus(Some(100)), Pooled)];
      assert "audio"[0] != "video"[..5][0];
    }
    assert Patched(Opus(None), Opus(Some(100))) == Opus(Some(100));
    assert w2.entries == w1.entries + [Entry(Opus(Some(100)), Configured)];
  }

  // ---------------------------------------------------------------- in place

  method RemoveType(pool: seq<int>, t: int) returns (r: seq<int>)
    ensures r == Without(pool, t)
  {
    var i := 0;
    while i < |pool| && pool[i] != t
      invariant 0 <= i <= |pool| && t !in pool[..i]
    {
      i := i + 1;
    }
    WithoutAt(pool, t, i);
    r := if i < |pool| then pool[..i] + pool[i + 1..] else pool;
  }

  lemma {:induction false} WithoutAt(pool: seq<int>, t: int, i: nat)
    requires i <= |pool| && t !in pool[..i] && (i < |pool| ==> pool[i] == t)
    ensures i < |pool| ==> Without(pool, t) == pool[..i] + pool[i + 1..]
    ensures i == |pool| ==> Without(pool, t) == pool
  {
    if i > 0 {
      var rest := pool[1..];
      assert pool[..i] == [pool[0]] + rest[..i - 1];
      WithoutAt(rest, t, i - 1);
      if i < |pool| { assert [pool[0]] + (rest[..i - 1] + rest[i..]) == pool[..i] + pool[i + 1..]; }
    }
  }

  method MergeTypes(e: seq<Entry>, pool: seq<int>, uc: Codec, ac: Codec)
    returns (entries: seq<Entry>, left: seq<int>, tooMany: bool)
    ensures Work(entries, left, tooMany) == AddMedia(Work(e, pool, false), uc, ac)
    ensures !tooMany ==> |entries| == |e| + 1
  {
    entries, left, tooMany := e, pool, false;
    var c := Patched(ac, uc);
    if Or(uc.pt, 0) != 0 {
      left := RemoveType(pool, Or(uc.pt, 0));
      entries := e + [Entry(c, Configured)];
    } else if Or(c.pt, 0) == 0 {
      if |pool| > 0 {
        c := c.(pt := Some(pool[0]));
        left := pool[1..];
        entries := e + [Entry(c, Pooled)];
      } else {
        tooMany := true;
      }
    } else {
      entries := e + [Entry(c, Static)];
    }
  }

  /** _rct_router_create_rt_capabilities */
  method CreateCapabilities(users: seq<Codec>, available: seq<Codec>) returns (entries: seq<Entry>, tooMany: bool)
    ensures var w := Negotiated(users, available); entries == w.entries && tooMany == w.tooMany
  {
    hide AddMedia;
    entries, tooMany := [], false;
    var pool := Pool();
    var i := 0;
    while i < |users| && !tooMany
      invariant 0 <= i <= |users|
      invariant Negotiated(users, available) == AddAll(Work(entries, pool, tooMany), users[i..], available)
    {
      assert users[i..][1..] == users[i + 1..];
      ghost var w := Work(entries, pool, tooMany);
      var j, done := 0, false;
      while j < |available| && !done
        invariant 0 <= j <= |available| && (!done ==> !tooMany)
        invariant AddCodec(w, users[i], available) ==
          if done then Work(entries, pool, tooMany) else AddCodec(Work(entries, pool, false), users[i], available[j..])
      {
        assert available[j..][1..] == available[j + 1..];
        if Supported(users[i], available[j]) {
          entries, pool, tooMany := MergeTypes(entries, pool, users[i], available[j]);
          done := tooMany;
          if !tooMany {
            var c := entries[|entries| - 1].codec;
            done := c.kind.Some?;
            if IsVideo(c) {
              if |pool| > 0 {
                entries := entries + [Entry(Rtx(c, pool[0]), Retransmit)];
                pool := pool[1..];
              } else {
                tooMany := true;
              }
            }
          }
        }
        j := j + 1;
      }
      i := i + 1;
    }
  }
}
