/**
 When the payload types of a router's capabilities are distinct, read off the configuration:
 every codec of the configuration asks for a fixed type or draws one from the pool, and every
 video codec draws another one for its retransmission codec.
 */
module RtpTypes {
  import opened RtpCodecs
  import opened RtpRouter

  datatype Demand = Fixed(t: int) | Draw

  // ---------------------------------------------------------------- the configuration

  /** What one codec of the configuration asks for; nothing if the worker does not support it. */
  function DemandsOf(uc: Codec, available: seq<Codec>): seq<Demand> {
    if available == [] then []
    else if !Supported(uc, available[0]) then DemandsOf(uc, available[1..])
    else
      var c := Patched(available[0], uc);
      [if Or(c.pt, 0) != 0 then Fixed(Or(c.pt, 0)) else Draw] + if IsVideo(c) then [Draw] else []
  }

  function Demands(users: seq<Codec>, available: seq<Codec>): seq<Demand> {
    if users == [] then [] else DemandsOf(users[0], available) + Demands(users[1..], available)
  }

  function FixedTypes(ds: seq<Demand>): set<int> {
    if ds == [] then {}
    else FixedTypes(ds[..|ds| - 1]) + if ds[|ds| - 1].Fixed? then {ds[|ds| - 1].t} else {}
  }

  function Draws(ds: seq<Demand>): nat {
    if ds == [] then 0 else Draws(ds[..|ds| - 1]) + if ds[|ds| - 1].Draw? then 1 else 0
  }

  /** `l` without the elements of `fixed`. */
  function Others(l: seq<int>, fixed: set<int>): seq<int> {
    if l == [] then [] else (if l[0] in fixed then [] else [l[0]]) + Others(l[1..], fixed)
  }

  /** The types that the demands draw: as many as they draw, in the order of the pool, passing
      over the types that they fix. */
  function Drawn(ds: seq<Demand>): seq<int> {
    var free := Others(Pool(), FixedTypes(ds));
    if Draws(ds) <= |free| then free[..Draws(ds)] else free
  }

  /** A fixed type was neither fixed nor drawn before. */
  predicate FreshDemand(ds: seq<Demand>, k: nat)
    requires k < |ds|
  {
    ds[k].Fixed? ==> ds[k].t !in FixedTypes(ds[..k]) && ds[k].t !in Drawn(ds[..k])
  }

  predicate FreshDemands(ds: seq<Demand>) {
    forall k :: 0 <= k < |ds| ==> FreshDemand(ds, k)
  }

  // ---------------------------------------------------------------- lists

  lemma {:induction false} OthersHas(l: seq<int>, fixed: set<int>, x: int)
    ensures x in Others(l, fixed) <==> x in l && x !in fixed
  {
    if l != [] {
      assert l == [l[0]] + l[1..];
      OthersHas(l[1..], fixed, x);
    }
  }

  lemma {:induction false} OthersMore(l: seq<int>, fixed: set<int>, t: int)
    requires NoRepeat(l)
    ensures Others(l, fixed + {t}) == Without(Others(l, fixed), t)
  {
    if l != [] {
      var rest := l[1..];
      TailIs(l);
      OthersMore(rest, fixed, t);
      if l[0] == t && t !in fixed {
        OthersHas(rest, fixed, t);
        WithoutNone(Others(rest, fixed), t);
        assert ([t] + Others(rest, fixed))[1..] == Others(rest, fixed);
      } else if l[0] !in fixed {
        assert ([l[0]] + Others(rest, fixed))[1..] == Others(rest, fixed);
      } else {
        assert [] + Others(rest, fixed) == Others(rest, fixed);
      }
    }
  }

  lemma {:induction false} WithoutNone(l: seq<int>, t: int)
    requires t !in l
    ensures Without(l, t) == l
  {
    if l != [] {
      assert l == [l[0]] + l[1..];
      WithoutNone(l[1..], t);
    }
  }

  lemma {:induction false} WithoutBehind(l: seq<int>, d: nat, t: int)
    requires d <= |l| && t !in l[..d]
    ensures Without(l, t) == l[..d] + Without(l[d..], t)
  {
    if d > 0 {
      assert l[..d] == [l[0]] + l[1..][..d - 1];
      assert l[1..][d - 1..] == l[d..];
      WithoutBehind(l[1..], d - 1, t);
    } else {
      assert l[0..] == l;
    }
  }

  lemma NoRepeatSnoc(l: seq<int>, x: int)
    ensures NoRepeat(l + [x]) <==> NoRepeat(l) && x !in l
  {
    var m := l + [x];
    if NoRepeat(l) && x !in l {
      forall i, j | 0 <= i < j < |m| ensures m[i] != m[j] {
        assert m[i] == l[i];
        if j < |l| { assert m[j] == l[j]; }
      }
    }
    if NoRepeat(m) {
      forall i, j | 0 <= i < j < |l| ensures l[i] != l[j] { assert m[i] == l[i] && m[j] == l[j]; }
      forall i | 0 <= i < |l| ensures l[i] != x { assert m[i] == l[i] && m[|l|] == x; }
    }
  }

  // ---------------------------------------------------------------- demands

  lemma DemandSnoc(ds: seq<Demand>, x: Demand)
    ensures FixedTypes(ds + [x]) == FixedTypes(ds) + (if x.Fixed? then {x.t} else {})
    ensures Draws(ds + [x]) == Draws(ds) + (if x.Draw? then 1 else 0)
    ensures FreshDemands(ds + [x]) <==>
      FreshDemands(ds) && (x.Fixed? ==> x.t !in FixedTypes(ds) && x.t !in Drawn(ds))
  {
    hide Drawn, FixedTypes;
    var m := ds + [x];
    assert m[..|ds|] == ds;
    FixedSnoc(ds, x);
    forall k | 0 <= k < |ds| ensures FreshDemand(m, k) <==> FreshDemand(ds, k) {
      assert m[..k] == ds[..k] && m[k] == ds[k];
    }
    assert FreshDemand(m, |ds|) <==> (x.Fixed? ==> x.t !in FixedTypes(ds) && x.t !in Drawn(ds));
  }

  lemma FixedSnoc(ds: seq<Demand>, x: Demand)
    ensures FixedTypes(ds + [x]) == FixedTypes(ds) + (if x.Fixed? then {x.t} else {})
  {
    assert (ds + [x])[..|ds|] == ds;
  }

  /** The types handed out so far and the pool, as the demands so far say. */
  ghost predicate Tally(w: Work, ds: seq<Demand>) {
    && (NoRepeat(Types(w.entries)) <==> FreshDemands(ds))
    && (FreshDemands(ds) ==> Level(w, ds))
  }

  ghost predicate Level(w: Work, ds: seq<Demand>) {
    var free := Others(Pool(), FixedTypes(ds));
    && Draws(ds) <= |free| && w.pool == free[Draws(ds)..]
    && forall x :: x in Types(w.entries) <==> x in FixedTypes(ds) || x in free[..Draws(ds)]
  }

  lemma PoolNoRepeat()
    ensures NoRepeat(Pool()) && forall x :: x in Pool() ==> Dynamic(x)
  {
  }

  lemma FixedStep(w: Work, ds: seq<Demand>, x: Entry, w1: Work)
    requires Tally(w, ds) && w1.entries == w.entries + [x]
    requires var t := Or(x.codec.pt, 0);
      w1.pool == Without(w.pool, t) || (w1.pool == w.pool && !Dynamic(t))
    ensures Tally(w1, ds + [Fixed(Or(x.codec.pt, 0))])
  {
    hide Types, NoRepeat, FreshDemands, FixedTypes, Draws, Others, Level;
    var t := Or(x.codec.pt, 0);
    TypesSnoc(w.entries, x);
    NoRepeatSnoc(Types(w.entries), t);
    DemandSnoc(ds, Fixed(t));
    if FreshDemands(ds) {
      LevelHas(w, ds, t);
      if t !in FixedTypes(ds) && t !in Drawn(ds) { FixedLevel(w, ds, x, w1); }
    }
  }

  lemma LevelHas(w: Work, ds: seq<Demand>, t: int)
    requires Level(w, ds)
    ensures t in Types(w.entries) <==> t in FixedTypes(ds) || t in Drawn(ds)
  {
  }

  lemma FixedLevel(w: Work, ds: seq<Demand>, x: Entry, w1: Work)
    requires Level(w, ds) && w1.entries == w.entries + [x]
    requires var t := Or(x.codec.pt, 0);
      && (w1.pool == Without(w.pool, t) || (w1.pool == w.pool && !Dynamic(t)))
      && t !in Drawn(ds)
    ensures Level(w1, ds + [Fixed(Or(x.codec.pt, 0))])
  {
    hide Types, NoRepeat, FixedTypes, Draws, Others, Without, Pool;
    var t := Or(x.codec.pt, 0);
    var d := Draws(ds);
    var free := Others(Pool(), FixedTypes(ds));
    var m := ds + [Fixed(t)];
    TypesSnoc(w.entries, x);
    DemandSnoc(ds, Fixed(t));
    PoolNoRepeat();
    OthersMore(Pool(), FixedTypes(ds), t);
    WithoutBehind(free, d, t);
    if !Dynamic(t) {
      OthersHas(Pool(), FixedTypes(ds), t);
      SuffixHas(free, d, t);
      WithoutNone(w.pool, t);
    }
    assert Others(Pool(), FixedTypes(m)) == free[..d] + Without(free[d..], t);
    assert (free[..d] + Without(free[d..], t))[d..] == Without(free[d..], t);
    assert (free[..d] + Without(free[d..], t))[..d] == free[..d];
  }

  lemma SuffixHas(l: seq<int>, d: nat, t: int)
    requires d <= |l| && t !in l
    ensures t !in l[d..]
  {
  }

  lemma DrawStep(w: Work, ds: seq<Demand>, x: Entry, w1: Work)
    requires Tally(w, ds) && w.pool != []
    requires w1.entries == w.entries + [x] && x.codec.pt == Some(w.pool[0]) && w1.pool == w.pool[1..]
    requires w.pool[0] !in Types(w.entries)
    ensures Tally(w1, ds + [Draw])
  {
    hide Types, NoRepeat, FreshDemands, FixedTypes, Draws, Others, Level;
    TypesSnoc(w.entries, x);
    NoRepeatSnoc(Types(w.entries), w.pool[0]);
    DemandSnoc(ds, Draw);
    if FreshDemands(ds) { DrawLevel(w, ds, x, w1); }
  }

  lemma DrawLevel(w: Work, ds: seq<Demand>, x: Entry, w1: Work)
    requires Level(w, ds) && w.pool != []
    requires w1.entries == w.entries + [x] && x.codec.pt == Some(w.pool[0]) && w1.pool == w.pool[1..]
    ensures Level(w1, ds + [Draw])
  {
    hide Types, NoRepeat, FixedTypes, Draws, Others, Pool;
    var d := Draws(ds);
    var free := Others(Pool(), FixedTypes(ds));
    TypesSnoc(w.entries, x);
    DemandSnoc(ds, Draw);
    assert FixedTypes(ds + [Draw]) == FixedTypes(ds);
    assert free[..d + 1] == free[..d] + [w.pool[0]];
    assert free[d..][1..] == free[d + 1..];
  }

  // ---------------------------------------------------------------- the negotiation

  lemma PoolHeadIsFree(w: Work)
    requires Accounted(w) && w.pool != []
    ensures w.pool[0] !in Types(w.entries)
  {
    assert w.pool[0] in w.pool;
  }

  function MediaDemand(c: Codec): Demand {
    if Or(c.pt, 0) != 0 then Fixed(Or(c.pt, 0)) else Draw
  }

  lemma MediaTally(w: Work, uc: Codec, ac: Codec, ds: seq<Demand>)
    requires Tally(w, ds) && Accounted(w) && !Dynamic(Or(ac.pt, 0)) && !AddMedia(w, uc, ac).tooMany
    ensures Tally(AddMedia(w, uc, ac), ds + [MediaDemand(Patched(ac, uc))])
  {
    hide Tally, Accounted;
    var c := Patched(ac, uc);
    var w1 := AddMedia(w, uc, ac);
    if Or(c.pt, 0) != 0 {
      FixedStep(w, ds, w1.entries[|w.entries|], w1);
    } else {
      PoolHeadIsFree(w);
      DrawStep(w, ds, w1.entries[|w.entries|], w1);
    }
  }

  lemma RtxTally(w: Work, c: Codec, ds: seq<Demand>)
    requires Tally(w, ds) && Accounted(w) && !AddRtx(w, c).tooMany && !w.tooMany
    ensures Tally(AddRtx(w, c), ds + [Draw])
  {
    hide Tally, Accounted;
    PoolHeadIsFree(w);
    var w1 := AddRtx(w, c);
    DrawStep(w, ds, w1.entries[|w.entries|], w1);
  }

  lemma DemandsOfFirst(uc: Codec, available: seq<Codec>)
    requires available != [] && Supported(uc, available[0])
    ensures var c := Patched(available[0], uc);
      DemandsOf(uc, available) == [MediaDemand(c)] + if IsVideo(c) then [Draw] else []
  {
  }

  /** The kind of an entry is that of the patched codec, whatever type it got. */
  lemma MediaKind(w: Work, uc: Codec, ac: Codec)
    requires !AddMedia(w, uc, ac).tooMany
    ensures var w1 := AddMedia(w, uc, ac);
      |w1.entries| == |w.entries| + 1 && w1.entries[|w.entries|].codec.kind == Patched(ac, uc).kind
  {
  }

  lemma {:induction false} CodecTally(w: Work, uc: Codec, available: seq<Codec>, ds: seq<Demand>)
    requires Tally(w, ds) && Kept(w, |w.entries|) && !w.tooMany && Sane(available)
    requires !AddCodec(w, uc, available).tooMany
    ensures Tally(AddCodec(w, uc, available), ds + DemandsOf(uc, available))
    decreases |available|
  {
    hide Tally, Kept, AddMedia, AddRtx;
    if available == [] {
      assert ds + [] == ds;
    } else {
      assert available == [available[0]] + available[1..];
      var ac := available[0];
      assert ac in available;
      if Supported(uc, ac) {
        var c := Patched(ac, uc);
        var w1 := AddMedia(w, uc, ac);
        AddMediaKept(w, uc, ac);
        KeptAccounted(w, |w.entries|);
        MediaKind(w, uc, ac);
        MediaTally(w, uc, ac, ds);
        KeptAccounted(w1, |w.entries|);
        DemandsOfFirst(uc, available);
        if IsVideo(c) {
          RtxTally(w1, w1.entries[|w.entries|].codec, ds + [MediaDemand(c)]);
          assert ds + [MediaDemand(c)] + [Draw] == ds + ([MediaDemand(c)] + [Draw]);
        } else {
          assert [MediaDemand(c)] + [] == [MediaDemand(c)];
        }
      } else {
        CodecTally(w, uc, available[1..], ds);
      }
    }
  }

  lemma KeptAccounted(w: Work, n: nat)
    requires Kept(w, n)
    ensures Accounted(w)
  {
  }

  lemma {:induction false} AllTally(w: Work, users: seq<Codec>, available: seq<Codec>, ds: seq<Demand>)
    requires Tally(w, ds) && Kept(w, |w.entries|) && !w.tooMany && Sane(available)
    requires !AddAll(w, users, available).tooMany
    ensures Tally(AddAll(w, users, available), ds + Demands(users, available))
    decreases |users|
  {
    hide Tally, Kept, AddCodec, DemandsOf;
    if users == [] {
      assert ds + [] == ds;
    } else {
      var w1 := AddCodec(w, users[0], available);
      var d := DemandsOf(users[0], available);
      AddCodecKept(w, users[0], available);
      CodecTally(w, users[0], available, ds);
      AllTally(w1, users[1..], available, ds + d);
      assert ds + d + Demands(users[1..], available) == ds + (d + Demands(users[1..], available));
    }
  }

  lemma StartTally()
    ensures Tally(Work([], Pool(), false), []) && Kept(Work([], Pool(), false), 0)
  {
    PoolIs();
    NothingFixed(Pool());
    assert Pool()[0..] == Pool() && Pool()[..0] == [];
  }

  lemma {:induction false} NothingFixed(l: seq<int>)
    ensures Others(l, {}) == l
  {
    if l != [] { NothingFixed(l[1..]); }
  }

  lemma TypesDistinct(e: seq<Entry>)
    requires RtxBehindVideo(e)
    ensures Distinct(Codecs(e)) <==> NoRepeat(Types(e))
  {
    hide Types, Codecs;
    var c, l := Codecs(e), Types(e);
    forall i | 0 <= i < |e| ensures c[i].pt == Some(l[i]) { HasType(e, i); }
    if Distinct(c) {
      forall i, j | 0 <= i < j < |l| ensures l[i] != l[j] { assert c[i].pt != c[j].pt; }
    }
    if NoRepeat(l) {
      forall i, j | 0 <= i < j < |c| ensures c[i].pt != c[j].pt { assert l[i] != l[j]; }
    }
  }

  /** The types of the capabilities are distinct exactly if every fixed type of the configuration
      was neither fixed nor drawn by a codec before it. */
  lemma DistinctExactly(users: seq<Codec>, available: seq<Codec>)
    requires Sane(available) && !Negotiated(users, available).tooMany
    ensures Distinct(Codecs(Negotiated(users, available).entries)) <==> FreshDemands(Demands(users, available))
  {
    hide AddAll, Tally, Kept, FreshDemands, Demands, Types, NoRepeat;
    var w := Negotiated(users, available);
    var ds := Demands(users, available);
    StartTally();
    AllTally(Work([], Pool(), false), users, available, []);
    assert [] + ds == ds;
    NegotiatedWhole(users, available);
    KeptPaired(w, |w.entries|);
    TypesDistinct(w.entries);
    TallySays(w, ds);
  }

  lemma TallySays(w: Work, ds: seq<Demand>)
    requires Tally(w, ds)
    ensures NoRepeat(Types(w.entries)) <==> FreshDemands(ds)
  {
  }

  lemma KeptPaired(w: Work, n: nat)
    requires Kept(w, n)
    ensures RtxBehindVideo(w.entries)
  {
  }

  /** In particular they are distinct when the configuration fixes no type and the worker has
      none for the codecs in question. */
  lemma DrawnIsDistinct(users: seq<Codec>, available: seq<Codec>)
    requires Sane(available) && !Negotiated(users, available).tooMany
    requires forall uc, ac :: uc in users && ac in available && Supported(uc, ac) ==> Or(Patched(ac, uc).pt, 0) == 0
    ensures Distinct(Codecs(Negotiated(users, available).entries))
  {
    hide Negotiated, Supported, Patched;
    AllDraw(users, available);
    var ds := Demands(users, available);
    forall k | 0 <= k < |ds| ensures FreshDemand(ds, k) { assert ds[k] in ds; }
    DistinctExactly(users, available);
  }

  lemma {:induction false} AllDraw(users: seq<Codec>, available: seq<Codec>)
    requires forall uc, ac :: uc in users && ac in available && Supported(uc, ac) ==> Or(Patched(ac, uc).pt, 0) == 0
    ensures forall d :: d in Demands(users, available) ==> d == Draw
  {
    hide Supported, Patched;
    if users != [] {
      assert users[0] in users;
      forall uc | uc in users[1..] ensures uc in users {}
      OneDraws(users[0], available);
      AllDraw(users[1..], available);
    }
  }

  lemma {:induction false} OneDraws(uc: Codec, available: seq<Codec>)
    requires forall ac :: ac in available && Supported(uc, ac) ==> Or(Patched(ac, uc).pt, 0) == 0
    ensures forall d :: d in DemandsOf(uc, available) ==> d == Draw
  {
    hide Supported, Patched;
    if available != [] {
      assert available[0] in available;
      forall ac | ac in available[1..] ensures ac in available {}
      if !Supported(uc, available[0]) { OneDraws(uc, available[1..]); }
    }
  }
}
