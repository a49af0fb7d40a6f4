/**
 What stands in the router's capabilities, field by field: one media codec for every codec of the
 configuration and every codec of the worker that it meets, in the order of the configuration, with
 what the configuration says on top of what the worker says.
 */
module RtpCapabilities {
  import opened RtpCodecs
  import opened RtpRouter

  // ---------------------------------------------------------------- who meets whom

  /** The same name and rate, the same channels where none means one, and for H264 the same
      packetization where none means zero. */
  ghost predicate Meets(uc: Codec, ac: Codec) {
    && uc.mime.Some? && ac.mime == uc.mime && uc.clock.Some? && ac.clock == uc.clock
    && (exists n :: Means(uc.channels, 1, n) && Means(ac.channels, 1, n))
    && (uc.mime == Some("video/h264") ==> exists n :: Means(uc.mode, 0, n) && Means(ac.mode, 0, n))
  }

  lemma MeetsIs(uc: Codec, ac: Codec)
    ensures Supported(uc, ac) <==> Meets(uc, ac)
  {
    hide Or;
    forall o, d, n ensures Means(o, d, n) <==> Or(o, d) == n { MeansOr(o, d, n); }
    assert Means(uc.channels, 1, Or(uc.channels, 1)) && Means(uc.mode, 0, Or(uc.mode, 0));
  }

  /** A codec of the configuration and a codec of the worker. */
  datatype Match = Match(user: nat, worker: nat)

  predicate Before(a: Match, b: Match) {
    a.user < b.user || (a.user == b.user && a.worker < b.worker)
  }

  /** The search for `user` gets to `worker`: it ends with the first codec that has a kind. */
  ghost predicate Sought(users: seq<Codec>, available: seq<Codec>, m: Match) {
    && m.user < |users| && m.worker <= |available|
    && forall k :: 0 <= k < m.worker && Meets(users[m.user], available[k]) ==> users[m.user].kind.None? && available[k].kind.None?
  }

  ghost predicate Met(users: seq<Codec>, available: seq<Codec>, m: Match) {
    Sought(users, available, m) && m.worker < |available| && Meets(users[m.user], available[m.worker])
  }

  // ---------------------------------------------------------------- what an entry says

  /** What the one says, else what the other says. */
  predicate Either<T(==)>(o: Option<T>, mine: Option<T>, theirs: Option<T>) {
    (mine.Some? ==> o == mine) && (mine.None? ==> o == theirs)
  }

  predicate Merged(uc: Codec, ac: Codec, c: Codec) {
    && Either(c.kind, uc.kind, ac.kind) && Either(c.mime, uc.mime, ac.mime) && Either(c.clock, uc.clock, ac.clock)
    && Either(c.channels, uc.channels, ac.channels) && Either(c.apt, uc.apt, ac.apt)
    && Either(c.mode, uc.mode, ac.mode) && Either(c.profile, uc.profile, ac.profile)
    && (c.feedback == if uc.feedback != [] then uc.feedback else ac.feedback)
  }

  ghost predicate MergedExtra(uc: Codec, ac: Codec, c: Codec) {
    && (forall k :: k in c.extra <==> k in uc.extra || k in ac.extra)
    && (forall k :: k in c.extra ==> c.extra[k] == if k in uc.extra then uc.extra[k] else ac.extra[k])
  }

  /** A type that the configuration or the worker fixes is taken, zero fixes nothing. */
  ghost predicate Typed(uc: Codec, ac: Codec, x: Entry) {
    && x.codec.pt.Some?
    && (uc.pt.Some? && uc.pt != Some(0) ==> x.codec.pt == uc.pt && x.origin == Configured)
    && (uc.pt.None? && ac.pt.Some? && ac.pt != Some(0) ==> x.codec.pt == ac.pt && x.origin == Static)
    && (uc.pt == Some(0) || (uc.pt.None? && (ac.pt == Some(0) || ac.pt.None?)) ==>
          96 <= x.codec.pt.value <= 127 && x.origin == Pooled)
  }

  /** The codec that the two of them make together. */
  ghost predicate MadeOf(uc: Codec, ac: Codec, x: Entry) {
    Merged(uc, ac, x.codec) && MergedExtra(uc, ac, x.codec) && Typed(uc, ac, x)
  }

  /** The kind is "video" or the beginning of it, for the kind's own length is compared. */
  ghost predicate Video(c: Codec) {
    c.kind.Some? && exists rest: string :: c.kind.value + rest == "video"
  }

  lemma VideoIs(c: Codec)
    ensures Video(c) <==> IsVideo(c)
  {
    if IsVideo(c) {
      var n := |c.kind.value|;
      assert c.kind.value + "video"[n..] == "video";
    }
    if Video(c) {
      var rest: string :| c.kind.value + rest == "video";
      assert |c.kind.value| + |rest| == 5;
      assert (c.kind.value + rest)[..|c.kind.value|] == c.kind.value;
    }
  }

  /** The retransmission codec of `c`, in all its fields. */
  predicate Resends(c: Codec, x: Entry) {
    var r := x.codec;
    && r.kind == Some("video") && r.mime == Some("video/rtx") && r.clock == c.clock && r.apt == c.pt
    && r.channels.None? && r.mode.None? && r.profile.None? && r.extra == map[] && r.feedback == []
    && r.pt.Some? && 96 <= r.pt.value <= 127 && x.origin == Retransmit
  }

  ghost predicate MediaAt(users: seq<Codec>, available: seq<Codec>, e: seq<Entry>, m: Match, k: nat) {
    && k < |e| && Met(users, available, m)
    && MadeOf(users[m.user], available[m.worker], e[k])
    && (k + 1 < |e| && Video(e[k].codec) ==> Resends(e[k].codec, e[k + 1]))
  }

  /** How many entries a media codec leads to. */
  ghost function Width(c: Codec): nat {
    if Video(c) then 2 else 1
  }

  /** The media codecs stand at the places `at`, one for each of the matches, in their order, and there
      is nothing between them but the retransmission codecs of the video codecs; `short` tells that the
      one of the last is missing. */
  ghost predicate Laid(users: seq<Codec>, available: seq<Codec>, e: seq<Entry>, ms: seq<Match>, at: seq<nat>, short: bool) {
    && |at| == |ms| && (forall i :: 0 <= i < |ms| ==> MediaAt(users, available, e, ms[i], at[i]))
    && (forall i, j :: 0 <= i < j < |ms| ==> Before(ms[i], ms[j]))
    && (forall i :: 0 <= i < |ms| ==> at[i] + Width(e[at[i]].codec) == Next(e, at, short, i))
    && (if ms == [] then e == [] else at[0] == 0)
  }

  function Next(e: seq<Entry>, at: seq<nat>, short: bool, i: nat): nat
    requires i < |at|
  {
    if i + 1 < |at| then at[i + 1] else if short then |e| + 1 else |e|
  }

  /** Every match before `m` is among `ms`, and nothing else. */
  ghost predicate UpTo(users: seq<Codec>, available: seq<Codec>, ms: seq<Match>, m: Match) {
    && (forall x: Match :: Met(users, available, x) && Before(x, m) ==> x in ms)
    && (forall i :: 0 <= i < |ms| ==> Before(ms[i], m))
  }

  // ---------------------------------------------------------------- one entry

  ghost predicate InPool(w: Work) {
    forall t :: t in w.pool ==> 96 <= t <= 127
  }

  /** `f` has one entry more. */
  predicate Longer(e: seq<Entry>, f: seq<Entry>) {
    |f| == |e| + 1 && f[..|e|] == e
  }

  lemma {:induction false} WithoutWithin(pool: seq<int>, t: int)
    ensures forall x :: x in Without(pool, t) ==> x in pool
  {
    if pool != [] {
      WithoutWithin(pool[1..], t);
      assert pool == [pool[0]] + pool[1..];
    }
  }

  lemma MediaIs(w: Work, uc: Codec, ac: Codec)
    requires InPool(w) && !w.tooMany
    ensures var w1 := AddMedia(w, uc, ac);
      && InPool(w1) && (w1.tooMany ==> w1.entries == w.entries)
      && (!w1.tooMany ==> Longer(w.entries, w1.entries) && MadeOf(uc, ac, w1.entries[|w.entries|]))
  {
    WithoutWithin(w.pool, Or(uc.pt, 0));
    PoolSplit(w);
  }

  lemma RtxIs(w: Work, c: Codec)
    requires InPool(w) && !w.tooMany && c.pt.Some?
    ensures var w1 := AddRtx(w, c);
      && InPool(w1) && (w1.tooMany ==> w1.entries == w.entries)
      && (!w1.tooMany ==> Longer(w.entries, w1.entries) && Resends(c, w1.entries[|w.entries|]))
  {
    PoolSplit(w);
  }

  lemma PoolSplit(w: Work)
    ensures w.pool != [] ==> w.pool[0] in w.pool && forall t :: t in w.pool[1..] ==> t in w.pool
  {
    if w.pool != [] { assert w.pool == [w.pool[0]] + w.pool[1..]; }
  }

  /** One more media codec, still without the codec behind it. */
  lemma LaidMedia(users: seq<Codec>, available: seq<Codec>, e: seq<Entry>, f: seq<Entry>, ms: seq<Match>, at: seq<nat>, m: Match)
    requires Laid(users, available, e, ms, at, false) && UpTo(users, available, ms, m) && Met(users, available, m)
    requires Longer(e, f) && MadeOf(users[m.user], available[m.worker], f[|e|])
    ensures Laid(users, available, f, ms + [m], at + [|e|], Video(f[|e|].codec))
  {
    hide MadeOf, Met, Video, Resends;
    var ns, bt := ms + [m], at + [|e|];
    assert forall k :: 0 <= k < |e| ==> f[k] == e[k];
    forall i | 0 <= i < |ns| ensures MediaAt(users, available, f, ns[i], bt[i]) && bt[i] + Width(f[bt[i]].codec) == Next(f, bt, Video(f[|e|].codec), i) {
      if i < |ms| {
        assert MediaAt(users, available, e, ms[i], at[i]);
        assert at[i] + Width(e[at[i]].codec) == Next(e, at, false, i);
        NextRises(users, available, e, ms, at, i);
      }
    }
  }

  lemma NextRises(users: seq<Codec>, available: seq<Codec>, e: seq<Entry>, ms: seq<Match>, at: seq<nat>, i: nat)
    requires Laid(users, available, e, ms, at, false) && i < |ms|
    ensures Next(e, at, false, i) <= |e|
  {
    hide Met, MadeOf, Video, Resends, Width;
    if i + 1 < |at| { assert MediaAt(users, available, e, ms[i + 1], at[i + 1]); }
  }

  lemma LaidRtx(users: seq<Codec>, available: seq<Codec>, e: seq<Entry>, f: seq<Entry>, ms: seq<Match>, at: seq<nat>)
    requires Laid(users, available, e, ms, at, true) && ms != [] && e != [] && Video(e[|e| - 1].codec)
    requires Longer(e, f) && Resends(e[|e| - 1].codec, f[|e|])
    ensures Laid(users, available, f, ms, at, false)
  {
    hide MadeOf, Met, Video, Resends;
    assert forall k :: 0 <= k < |e| ==> f[k] == e[k];
    forall i | 0 <= i < |ms| ensures MediaAt(users, available, f, ms[i], at[i]) && at[i] + Width(f[at[i]].codec) == Next(f, at, false, i) {
      assert MediaAt(users, available, e, ms[i], at[i]);
      assert at[i] + Width(e[at[i]].codec) == Next(e, at, true, i);
    }
  }

  // ---------------------------------------------------------------- the search

  lemma UpToNext(users: seq<Codec>, available: seq<Codec>, ms: seq<Match>, m: Match)
    requires UpTo(users, available, ms, m)
    ensures !Met(users, available, m) ==> UpTo(users, available, ms, Match(m.user, m.worker + 1))
    ensures Met(users, available, m) ==> UpTo(users, available, ms + [m], Match(m.user, m.worker + 1))
  {
    hide Met;
    var n := Match(m.user, m.worker + 1);
    forall x: Match | Met(users, available, x) && Before(x, n) ensures x == m || x in ms {
      if x != m { assert Before(x, m); }
    }
  }

  /** Nothing more is met by this codec of the configuration. */
  lemma UpToUser(users: seq<Codec>, available: seq<Codec>, ms: seq<Match>, m: Match)
    requires UpTo(users, available, ms, m)
    requires m.worker == |available| || (m.worker < |available| && !Sought(users, available, m))
    ensures UpTo(users, available, ms, Match(m.user + 1, 0))
  {
    hide Meets;
    var n := Match(m.user + 1, 0);
    forall x: Match | Met(users, available, x) && Before(x, n) ensures x in ms {
      assert Before(x, m);
    }
  }

  /** The capabilities so far, with the matches that they are made of. */
  ghost predicate Done(users: seq<Codec>, available: seq<Codec>, w: Work, ms: seq<Match>, at: seq<nat>, m: Match) {
    && InPool(w) && UpTo(users, available, ms, m)
    && (Laid(users, available, w.entries, ms, at, false)
      || (w.tooMany && w.entries != [] && Video(w.entries[|w.entries| - 1].codec) && Laid(users, available, w.entries, ms, at, true)))
  }

  lemma {:induction false} CodecDone(users: seq<Codec>, available: seq<Codec>, w: Work, ms: seq<Match>, at: seq<nat>, m: Match)
    returns (ns: seq<Match>, bt: seq<nat>, n: Match)
    requires Done(users, available, w, ms, at, m) && !w.tooMany && Sought(users, available, m)
    ensures var w1 := AddCodec(w, users[m.user], available[m.worker..]);
      Done(users, available, w1, ns, bt, n) && (!w1.tooMany ==> n == Match(m.user + 1, 0))
    decreases |available| - m.worker
  {
    hide Laid, UpTo, AddMedia, AddRtx, Meets, IsVideo, Video, Supported, Resends, MadeOf;
    var uc, j := users[m.user], m.worker;
    if j == |available| {
      ns, bt, n := ms, at, Match(m.user + 1, 0);
      UpToUser(users, available, ms, m);
    } else {
      var ac, next := available[j], Match(m.user, j + 1);
      assert available[j..][1..] == available[j + 1..];
      MeetsIs(uc, ac);
      UpToNext(users, available, ms, m);
      if !Supported(uc, ac) {
        ns, bt, n := CodecDone(users, available, w, ms, at, next);
      } else {
        var w1 := AddMedia(w, uc, ac);
        MediaIs(w, uc, ac);
        if w1.tooMany {
          ns, bt, n := ms, at, m;
        } else {
          LaidMedia(users, available, w.entries, w1.entries, ms, at, m);
          ns, bt := ms + [m], at + [|w.entries|];
          var c := w1.entries[|w.entries|].codec;
          VideoIs(c);
          KindOf(uc, ac, w1.entries[|w.entries|]);
          if c.kind.None? {
            NoKind(c);
            ns, bt, n := CodecDone(users, available, w1, ns, bt, next);
          } else {
            if j + 1 < |available| { Ended(users, available, m); }
            UpToUser(users, available, ns, next);
            n := Match(m.user + 1, 0);
            if IsVideo(c) {
              RtxIs(w1, c);
              var w2 := AddRtx(w1, c);
              if !w2.tooMany { LaidRtx(users, available, w1.entries, w2.entries, ns, bt); }
            }
          }
        }
      }
    }
  }

  lemma KindOf(uc: Codec, ac: Codec, x: Entry)
    requires MadeOf(uc, ac, x)
    ensures x.codec.kind.None? <==> uc.kind.None? && ac.kind.None?
    ensures x.codec.pt.Some?
  {
  }

  lemma NoKind(c: Codec)
    requires c.kind.None?
    ensures !Video(c) && !IsVideo(c)
  {
  }

  lemma Ended(users: seq<Codec>, available: seq<Codec>, m: Match)
    requires Met(users, available, m) && (users[m.user].kind.Some? || available[m.worker].kind.Some?)
    ensures !Sought(users, available, Match(m.user, m.worker + 1))
  {
  }

  lemma {:induction false} AllDone(users: seq<Codec>, available: seq<Codec>, w: Work, ms: seq<Match>, at: seq<nat>, m: Match)
    returns (ns: seq<Match>, bt: seq<nat>, n: Match)
    requires Done(users, available, w, ms, at, m)
    requires !w.tooMany ==> m.user <= |users| && m.worker == 0
    ensures var w1 := if w.tooMany then w else AddAll(w, users[m.user..], available);
      Done(users, available, w1, ns, bt, n) && (!w1.tooMany ==> n == Match(|users|, 0))
    decreases |users| - m.user, if w.tooMany then 0 else 1
  {
    hide Done, AddCodec, Meets;
    if w.tooMany || m.user == |users| {
      ns, bt, n := ms, at, m;
    } else {
      assert users[m.user..][1..] == users[m.user + 1..];
      assert available[0..] == available;
      ns, bt, n := CodecDone(users, available, w, ms, at, m);
      var w1 := AddCodec(w, users[m.user], available);
      if !w1.tooMany { ns, bt, n := AllDone(users, available, w1, ns, bt, n); }
    }
  }

  // ---------------------------------------------------------------- result

  /** The capabilities are, in the order of the configuration, the media codecs of the matches with
      their retransmission codecs: of all the matches unless the types run out, and then of all those
      before the one that got none. */
  lemma CapabilityFields(users: seq<Codec>, available: seq<Codec>) returns (ms: seq<Match>, at: seq<nat>)
    ensures var w := Negotiated(users, available);
      && (Laid(users, available, w.entries, ms, at, false)
        || (w.tooMany && w.entries != [] && Video(w.entries[|w.entries| - 1].codec) && Laid(users, available, w.entries, ms, at, true)))
      && (forall x: Match, i :: 0 <= i < |ms| && Met(users, available, x) && Before(x, ms[i]) ==> x in ms)
      && (!w.tooMany ==> forall x: Match :: Met(users, available, x) ==> x in ms)
  {
    hide Laid, Met, AddAll, Video;
    var w := Work([], Pool(), false);
    var m;
    assert users[0..] == users;
    Nothing(users, available);
    ms, at, m := AllDone(users, available, w, [], [], Match(0, 0));
    forall x: Match | Met(users, available, x) ensures Before(x, Match(|users|, 0)) { MetIn(users, available, x); }
    forall x: Match, i | 0 <= i < |ms| && Met(users, available, x) && Before(x, ms[i]) ensures x in ms {
      assert Before(ms[i], m);
    }
  }

  lemma MetIn(users: seq<Codec>, available: seq<Codec>, x: Match)
    requires Met(users, available, x)
    ensures x.user < |users|
  {
  }

  lemma Nothing(users: seq<Codec>, available: seq<Codec>)
    ensures Done(users, available, Work([], Pool(), false), [], [], Match(0, 0))
  {
  }

  // ---------------------------------------------------------------- the order of the pool

  /** The order in which types are handed out: 100 to 127 and then 96 to 99. */
  predicate Sooner(t: int, u: int) {
    if t >= 100 then u > t || u < 100 else u < 100 && t < u
  }

  /** Every type that is handed out sooner is already in use where a pooled type stands. */
  ghost predicate FirstFree(e: seq<Entry>) {
    forall j, t: int :: 0 <= j < |e| && FromPool(e[j].origin) && Dynamic(t) && e[j].codec.pt.Some? && Sooner(t, e[j].codec.pt.value) ==>
      UsedBefore(e, j, t)
  }

  ghost predicate UsedBefore(e: seq<Entry>, j: nat, t: int)
    requires j <= |e|
  {
    exists i :: 0 <= i < j && Or(e[i].codec.pt, 0) == t
  }

  ghost predicate Ordered(pool: seq<int>) {
    forall i, j :: 0 <= i < j < |pool| ==> Sooner(pool[i], pool[j])
  }

  lemma {:induction false} WithoutOrdered(pool: seq<int>, t: int)
    requires Ordered(pool)
    ensures Ordered(Without(pool, t))
  {
    if pool != [] {
      forall i, j | 0 <= i < j < |pool[1..]| ensures Sooner(pool[1..][i], pool[1..][j]) {
        assert pool[1..][i] == pool[i + 1] && pool[1..][j] == pool[j + 1];
      }
      WithoutOrdered(pool[1..], t);
      if pool[0] != t {
        var rest := Without(pool[1..], t);
        WithoutWithin(pool[1..], t);
        forall j | 0 <= j < |rest| ensures Sooner(pool[0], rest[j]) {
          assert rest[j] in rest;
          var k :| 0 <= k < |pool[1..]| && pool[1..][k] == rest[j];
          assert pool[k + 1] == rest[j];
        }
      }
    }
  }

  ghost predicate Orderly(w: Work) {
    Ordered(w.pool) && FirstFree(w.entries)
  }

  lemma FirstFreeSnoc(w: Work, x: Entry)
    requires Accounted(w) && Orderly(w)
    requires FromPool(x.origin) ==> w.pool != [] && x.codec.pt == Some(w.pool[0])
    ensures FirstFree(w.entries + [x])
  {
    var e := w.entries;
    var f := e + [x];
    forall j, t: int | 0 <= j < |f| && FromPool(f[j].origin) && Dynamic(t) && f[j].codec.pt.Some? && Sooner(t, f[j].codec.pt.value)
      ensures UsedBefore(f, j, t)
    {
      if j < |e| {
        assert UsedBefore(e, j, t);
        var i :| 0 <= i < j && Or(e[i].codec.pt, 0) == t;
        assert Or(f[i].codec.pt, 0) == t;
      } else {
        assert t !in w.pool;
        var i :| 0 <= i < |e| && Types(e)[i] == t;
        assert Or(f[i].codec.pt, 0) == t;
      }
    }
  }

  lemma MediaOrderly(w: Work, uc: Codec, ac: Codec)
    requires Accounted(w) && Orderly(w) && !w.tooMany
    ensures Orderly(AddMedia(w, uc, ac))
  {
    hide Accounted, FirstFree;
    var w1 := AddMedia(w, uc, ac);
    if Or(uc.pt, 0) != 0 { WithoutOrdered(w.pool, Or(uc.pt, 0)); }
    if !w1.tooMany { FirstFreeSnoc(w, w1.entries[|w.entries|]); }
  }

  lemma RtxOrderly(w: Work, c: Codec)
    requires Accounted(w) && Orderly(w) && !w.tooMany
    ensures Orderly(AddRtx(w, c))
  {
    hide Accounted, FirstFree;
    if w.pool != [] { FirstFreeSnoc(w, Entry(Rtx(c, w.pool[0]), Retransmit)); }
  }

  lemma KeptAccount(w: Work, n: nat)
    requires Kept(w, n)
    ensures Accounted(w)
  {
  }

  lemma {:induction false} CodecOrderly(w: Work, uc: Codec, available: seq<Codec>)
    requires Kept(w, |w.entries|) && !w.tooMany && Sane(available) && Orderly(w)
    ensures Orderly(AddCodec(w, uc, available))
    decreases |available|
  {
    hide Kept, AddMedia, AddRtx, Orderly, Accounted;
    if available != [] {
      assert available == [available[0]] + available[1..] && available[0] in available;
      if Supported(uc, available[0]) {
        KeptAccount(w, |w.entries|);
        AddMediaKept(w, uc, available[0]);
        MediaOrderly(w, uc, available[0]);
        var w1 := AddMedia(w, uc, available[0]);
        if !w1.tooMany {
          KeptAccount(w1, |w.entries|);
          RtxOrderly(w1, w1.entries[|w.entries|].codec);
        }
      } else {
        CodecOrderly(w, uc, available[1..]);
      }
    }
  }

  lemma {:induction false} AllOrderly(w: Work, users: seq<Codec>, available: seq<Codec>)
    requires Whole(w) && Sane(available) && Orderly(w)
    ensures Orderly(AddAll(w, users, available))
    decreases |users|
  {
    hide Kept, AddCodec, Orderly;
    if !w.tooMany && users != [] {
      AddCodecKept(w, users[0], available);
      CodecOrderly(w, users[0], available);
      AllOrderly(AddCodec(w, users[0], available), users[1..], available);
    }
  }

  /** A type from the pool is the first that was free, in the order 100 to 127 and then 96 to 99. */
  lemma PooledIsFirstFree(users: seq<Codec>, available: seq<Codec>)
    requires Sane(available)
    ensures FirstFree(Negotiated(users, available).entries)
  {
    PoolIs();
    AllOrderly(Work([], Pool(), false), users, available);
  }
}
