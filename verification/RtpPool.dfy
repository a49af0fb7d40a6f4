/**
 When the negotiation runs out of payload types, read off the configuration: a codec that asks
 for a fixed type takes it out of the pool, one that draws takes the first that is left.
 */
module RtpPool {
  import opened RtpCodecs
  import opened RtpRouter
  import opened RtpTypes

  /** What is left of the pool after the demands. */
  function Left(ds: seq<Demand>): seq<int> {
    if ds == [] then Pool()
    else
      var left := Left(ds[..|ds| - 1]);
      match ds[|ds| - 1]
      case Fixed(t) => Without(left, t)
      case Draw => if left == [] then [] else left[1..]
  }

  /** The demand at `k` draws when nothing is left. */
  predicate Short(ds: seq<Demand>, k: nat)
    requires k < |ds|
  {
    ds[k].Draw? && Left(ds[..k]) == []
  }

  predicate RunsOut(ds: seq<Demand>) {
    exists k :: 0 <= k < |ds| && Short(ds, k)
  }

  lemma LeftSnoc(ds: seq<Demand>, x: Demand)
    ensures Left(ds + [x]) == match x case Fixed(t) => Without(Left(ds), t) case Draw => if Left(ds) == [] then [] else Left(ds)[1..]
    ensures RunsOut(ds + [x]) <==> RunsOut(ds) || (x.Draw? && Left(ds) == [])
  {
    hide Left;
    var m := ds + [x];
    assert m[..|ds|] == ds;
    assert Left(m) == match x case Fixed(t) => Without(Left(ds), t) case Draw => if Left(ds) == [] then [] else Left(ds)[1..] by {
      LeftLast(m);
    }
    forall k | 0 <= k < |ds| ensures Short(m, k) <==> Short(ds, k) { assert m[..k] == ds[..k]; }
    assert Short(m, |ds|) <==> (x.Draw? && Left(ds) == []);
    if RunsOut(ds) {
      var k :| 0 <= k < |ds| && Short(ds, k);
      assert Short(m, k);
    }
  }

  lemma LeftLast(m: seq<Demand>)
    requires m != []
    ensures var left := Left(m[..|m| - 1]);
      Left(m) == match m[|m| - 1] case Fixed(t) => Without(left, t) case Draw => if left == [] then [] else left[1..]
  {
  }

  lemma {:induction false} LeftDynamic(ds: seq<Demand>)
    ensures forall t :: t in Left(ds) ==> Dynamic(t)
  {
    if ds == [] {
      PoolNoRepeat();
    } else {
      LeftDynamic(ds[..|ds| - 1]);
      WithoutMembers(Left(ds[..|ds| - 1]), if ds[|ds| - 1].Fixed? then ds[|ds| - 1].t else 0);
    }
  }

  lemma {:induction false} WithoutMembers(l: seq<int>, t: int)
    ensures forall x :: x in Without(l, t) ==> x in l
  {
    if l != [] { WithoutMembers(l[1..], t); }
  }

  // ---------------------------------------------------------------- the negotiation

  /** The negotiation so far and the demands so far. */
  ghost predicate Matches(w: Work, ds: seq<Demand>) {
    (w.tooMany <==> RunsOut(ds)) && (!w.tooMany ==> w.pool == Left(ds))
  }

  lemma MediaMatches(w: Work, uc: Codec, ac: Codec, ds: seq<Demand>)
    requires Matches(w, ds) && !w.tooMany && !Dynamic(Or(ac.pt, 0))
    ensures Matches(AddMedia(w, uc, ac), ds + [MediaDemand(Patched(ac, uc))])
  {
    hide Left, RunsOut;
    var c := Patched(ac, uc);
    LeftSnoc(ds, MediaDemand(c));
    if Or(uc.pt, 0) == 0 && Or(c.pt, 0) != 0 {
      LeftDynamic(ds);
      WithoutNone(Left(ds), Or(c.pt, 0));
    }
  }

  lemma RtxMatches(w: Work, c: Codec, ds: seq<Demand>)
    requires Matches(w, ds) && !w.tooMany
    ensures Matches(AddRtx(w, c), ds + [Draw])
  {
    hide Left, RunsOut;
    LeftSnoc(ds, Draw);
  }

  lemma StillOut(ds: seq<Demand>, e: seq<Demand>)
    requires RunsOut(ds)
    ensures RunsOut(ds + e)
  {
    hide Left;
    var k :| 0 <= k < |ds| && Short(ds, k);
    assert (ds + e)[..k] == ds[..k];
    assert Short(ds + e, k);
  }

  lemma {:induction false} CodecMatches(w: Work, uc: Codec, available: seq<Codec>, ds: seq<Demand>)
    requires Matches(w, ds) && !w.tooMany && Sane(available)
    ensures Matches(AddCodec(w, uc, available), ds + DemandsOf(uc, available))
    decreases |available|
  {
    hide Matches, AddMedia, AddRtx, RunsOut, Left;
    if available == [] {
      assert ds + [] == ds;
    } else {
      assert available == [available[0]] + available[1..];
      var ac := available[0];
      assert ac in available;
      if Supported(uc, ac) {
        MatchedCodec(w, uc, available, ds);
      } else {
        CodecMatches(w, uc, available[1..], ds);
      }
    }
  }

  lemma MatchedCodec(w: Work, uc: Codec, available: seq<Codec>, ds: seq<Demand>)
    requires Matches(w, ds) && !w.tooMany && Sane(available) && available != [] && Supported(uc, available[0])
    ensures Matches(AddCodec(w, uc, available), ds + DemandsOf(uc, available))
  {
    hide Matches, AddMedia, AddRtx, RunsOut, Left, Supported;
    var ac := available[0];
    assert ac in available;
    var c := Patched(ac, uc);
    var w1 := AddMedia(w, uc, ac);
    var m := ds + [MediaDemand(c)];
    MediaMatches(w, uc, ac, ds);
    DemandsOfFirst(uc, available);
    assert IsVideo(c) ==> ds + DemandsOf(uc, available) == m + [Draw];
    assert !IsVideo(c) ==> ds + DemandsOf(uc, available) == m;
    if w1.tooMany {
      OutIs(w1, m);
      if IsVideo(c) { StillOut(m, [Draw]); OutMatches(w1, m + [Draw]); }
    } else {
      MediaKind(w, uc, ac);
      if IsVideo(c) { RtxMatches(w1, w1.entries[|w.entries|].codec, m); }
    }
  }

  lemma OutIs(w: Work, ds: seq<Demand>)
    requires Matches(w, ds)
    ensures w.tooMany <==> RunsOut(ds)
  {
  }

  lemma OutMatches(w: Work, ds: seq<Demand>)
    requires w.tooMany && RunsOut(ds)
    ensures Matches(w, ds)
  {
  }

  lemma {:induction false} AllMatches(w: Work, users: seq<Codec>, available: seq<Codec>, ds: seq<Demand>)
    requires Matches(w, ds) && Sane(available)
    ensures Matches(AddAll(w, users, available), ds + Demands(users, available))
    decreases |users|
  {
    hide Matches, AddCodec, DemandsOf, RunsOut;
    if w.tooMany {
      OutIs(w, ds);
      StillOut(ds, Demands(users, available));
      OutMatches(w, ds + Demands(users, available));
    } else if users == [] {
      assert ds + [] == ds;
    } else {
      var d := DemandsOf(users[0], available);
      CodecMatches(w, users[0], available, ds);
      AllMatches(AddCodec(w, users[0], available), users[1..], available, ds + d);
      assert ds + d + Demands(users[1..], available) == ds + (d + Demands(users[1..], available));
    }
  }

  /** The negotiation gives up exactly if some codec of the configuration draws a type when none
      is left. */
  lemma TooManyExactly(users: seq<Codec>, available: seq<Codec>)
    requires Sane(available)
    ensures Negotiated(users, available).tooMany <==> RunsOut(Demands(users, available))
  {
    hide AddAll, RunsOut, Demands;
    var w := Work([], Pool(), false);
    NothingOut();
    AllMatches(w, users, available, []);
    assert [] + Demands(users, available) == Demands(users, available);
    OutIs(Negotiated(users, available), Demands(users, available));
  }

  lemma NothingOut()
    ensures Matches(Work([], Pool(), false), [])
  {
    hide Pool;
  }

  // ---------------------------------------------------------------- counted

  /** As many are drawn before `k` as the fixed types before `k` have left over. */
  predicate Overdrawn(ds: seq<Demand>, k: nat)
    requires k < |ds|
  {
    ds[k].Draw? && Draws(ds[..k]) >= |Others(Pool(), FixedTypes(ds[..k]))|
  }

  lemma FreshPrefix(ds: seq<Demand>, k: nat)
    requires FreshDemands(ds) && k <= |ds|
    ensures FreshDemands(ds[..k])
  {
    hide Drawn, FixedTypes;
    forall j | 0 <= j < k ensures FreshDemand(ds[..k], j) {
      assert ds[..k][..j] == ds[..j];
      assert FreshDemand(ds, j);
    }
  }

  lemma {:induction false} LeftCounted(ds: seq<Demand>)
    requires FreshDemands(ds) && !RunsOut(ds)
    ensures var free := Others(Pool(), FixedTypes(ds)); Draws(ds) <= |free| && Left(ds) == free[Draws(ds)..]
  {
    hide Left, RunsOut, Others, FixedTypes, Draws, Pool, Without, FreshDemands;
    if ds == [] {
      EmptyCounted();
    } else {
      var p, x := ds[..|ds| - 1], ds[|ds| - 1];
      assert p + [x] == ds;
      LeftSnoc(p, x);
      DemandSnoc(p, x);
      LeftCounted(p);
      var d := Draws(p);
      var free := Others(Pool(), FixedTypes(p));
      match x {
        case Fixed(t) =>
          PoolNoRepeat();
          OthersMore(Pool(), FixedTypes(p), t);
          WithoutBehind(free, d, t);
          assert (free[..d] + Without(free[d..], t))[d..] == Without(free[d..], t);
        case Draw =>
          assert FixedTypes(ds) == FixedTypes(p);
          assert free[d..][1..] == free[d + 1..];
      }
    }
  }

  lemma EmptyCounted()
    ensures var free := Others(Pool(), FixedTypes([])); Draws([]) <= |free| && Left([]) == free[Draws([])..]
  {
    NothingFixed(Pool());
    assert FixedTypes([]) == {};
    assert Pool()[0..] == Pool();
  }

  /** Where every fixed type is fresh it is a matter of counting: the negotiation gives up exactly
      if some draw comes when as many types were drawn as the fixed ones had left over. */
  lemma TooManyCounted(users: seq<Codec>, available: seq<Codec>)
    requires Sane(available) && FreshDemands(Demands(users, available))
    ensures var ds := Demands(users, available);
      Negotiated(users, available).tooMany <==> exists k :: 0 <= k < |ds| && Overdrawn(ds, k)
  {
    hide Demands, Negotiated, FreshDemands, Left, Others, FixedTypes, Draws, Pool;
    var ds := Demands(users, available);
    TooManyExactly(users, available);
    if RunsOut(ds) {
      var k :| 0 <= k < |ds| && Short(ds, k);
      var j := FirstShort(ds, k);
      CountedAt(ds, j);
    } else {
      forall k | 0 <= k < |ds| ensures !Overdrawn(ds, k) { NotShort(ds, k); CountedAt(ds, k); }
    }
  }

  lemma NotShort(ds: seq<Demand>, k: nat)
    requires !RunsOut(ds) && k < |ds|
    ensures !Short(ds, k) && !RunsOut(ds[..k])
  {
    hide Left;
    assert ds[..k] + ds[k..] == ds;
    if RunsOut(ds[..k]) { StillOut(ds[..k], ds[k..]); }
  }

  lemma {:induction false} FirstShort(ds: seq<Demand>, k: nat) returns (j: nat)
    requires k < |ds| && Short(ds, k)
    ensures j < |ds| && Short(ds, j) && !RunsOut(ds[..j])
    decreases k
  {
    hide Left;
    if RunsOut(ds[..k]) {
      var i :| 0 <= i < k && Short(ds[..k], i);
      assert ds[..k][..i] == ds[..i];
      j := FirstShort(ds, i);
    } else {
      j := k;
    }
  }

  lemma CountedAt(ds: seq<Demand>, k: nat)
    requires FreshDemands(ds) && k < |ds| && !RunsOut(ds[..k])
    ensures Short(ds, k) <==> Overdrawn(ds, k)
  {
    hide Left, RunsOut, Others, FixedTypes, Draws, Pool, FreshDemands;
    FreshPrefix(ds, k);
    LeftCounted(ds[..k]);
  }
}
