/**
 The three stages together: router capabilities, then a producer's consumable parameters, then
 a consumer's parameters.
 */
module RtpPipeline {
  import opened RtpCodecs
  import Router = RtpRouter
  import Types = RtpTypes
  import opened RtpProducer
  import opened RtpConsumer

  function RouterCodecs(users: seq<Codec>, available: seq<Codec>): seq<Codec> {
    Router.Codecs(Router.Negotiated(users, available).entries)
  }

  lemma RouterAt(users: seq<Codec>, available: seq<Codec>, j: nat)
    requires Router.Sane(available) && !Router.Negotiated(users, available).tooMany && j < |RouterCodecs(users, available)|
    ensures var c := RouterCodecs(users, available);
      && c[j].pt.Some?
      && (IsRtx(c[j]) ==> j > 0 && !IsRtx(c[j - 1]) && c[j].apt.Some? && c[j].apt == c[j - 1].pt)
  {
    Router.VideoCarriesRtx(users, available, j);
    if j > 0 { Router.VideoCarriesRtx(users, available, j - 1); }
  }

  /** What the router hands out is fit for the producer stage. */
  lemma RouterTyped(users: seq<Codec>, available: seq<Codec>)
    requires Router.Sane(available) && !Router.Negotiated(users, available).tooMany
    ensures Typed(RouterCodecs(users, available)) && Paired(RouterCodecs(users, available))
  {
    hide RouterCodecs;
    var c := RouterCodecs(users, available);
    forall x | x in c ensures x.pt.Some? && (IsRtx(x) ==> x.apt.Some?) {
      var j :| 0 <= j < |c| && c[j] == x;
      RouterAt(users, available, j);
    }
    forall j | 0 <= j < |c| && IsRtx(c[j])
      ensures j > 0 && !IsRtx(c[j - 1]) && c[j].apt.Some? && c[j].apt == c[j - 1].pt
    {
      RouterAt(users, available, j);
    }
  }

  /** A run through all three stages that the first two survived. */
  ghost predicate Negotiation(
      h: H264, users: seq<Codec>, available: seq<Codec>, ps: seq<Codec>, order: seq<nat>, consumable: seq<Codec>) {
    var caps := RouterCodecs(users, available);
    && Router.Sane(available) && !Router.Negotiated(users, available).tooMany
    && Types.FreshDemands(Types.Demands(users, available))
    && Typed(ps) && Distinct(ps)
    && Match(h, ps, caps).Ok? && Walks(order, Match(h, ps, caps).value)
    && Produced(h, ps, caps, order) == Ok(consumable)
  }

  /** The router's types are distinct, as the configuration says. */
  lemma NegotiatedDistinct(
      h: H264, users: seq<Codec>, available: seq<Codec>, ps: seq<Codec>, order: seq<nat>, consumable: seq<Codec>)
    requires Negotiation(h, users, available, ps, order, consumable)
    ensures Distinct(RouterCodecs(users, available))
  {
    Types.DistinctExactly(users, available);
  }

  lemma {:induction false} ProducedIsIntended(
      h: H264, users: seq<Codec>, available: seq<Codec>, ps: seq<Codec>, order: seq<nat>, consumable: seq<Codec>)
    requires Negotiation(h, users, available, ps, order, consumable)
    ensures consumable == Intended(h, ps, RouterCodecs(users, available), |ps|)
  {
    hide RouterCodecs, Intended, Produced, Match;
    RouterTyped(users, available);
    NegotiatedDistinct(h, users, available, ps, order, consumable);
    PayloadTypesRecovered(h, ps, RouterCodecs(users, available), order);
  }

  /** Closure under apt through all stages: in the consumable list and in whatever a consumer
      receives, each retransmission codec follows the media codec that it retransmits. */
  lemma {:induction false} AptClosure(
      h: H264, users: seq<Codec>, available: seq<Codec>, ps: seq<Codec>, order: seq<nat>, consumable: seq<Codec>,
      caps: seq<Codec>)
    requires Negotiation(h, users, available, ps, order, consumable) && OneToOne(h, ps, RouterCodecs(users, available))
    ensures Paired(RouterCodecs(users, available)) && Paired(consumable) && Separate(consumable)
    ensures Consumed(h, caps, consumable).Ok? ==>
      var r := Consumed(h, caps, consumable).value; Paired(r) && r != [] && !IsRtx(r[0])
  {
    hide RouterCodecs, Intended, Produced, Match, Consumed, Paired, Separate;
    RouterTyped(users, available);
    ProducedIsIntended(h, users, available, ps, order, consumable);
    NegotiatedDistinct(h, users, available, ps, order, consumable);
    IntendedPaired(h, ps, RouterCodecs(users, available), |ps|);
    IntendedSeparate(h, ps, RouterCodecs(users, available), |ps|);
    SeparateTogether(h, caps, consumable);
    if Consumed(h, caps, consumable).Ok? { ConsumedPaired(h, caps, consumable); }
  }

  /** The gate agrees with the builder for everything that the first two stages make of codecs
      that are matched one to one. */
  lemma {:induction false} GateHolds(
      h: H264, users: seq<Codec>, available: seq<Codec>, ps: seq<Codec>, order: seq<nat>, consumable: seq<Codec>,
      caps: seq<Codec>)
    requires Negotiation(h, users, available, ps, order, consumable) && OneToOne(h, ps, RouterCodecs(users, available))
    requires Symmetric(h)
    ensures CanConsume(h, caps, consumable) <==> Consumed(h, caps, consumable).Ok?
  {
    hide Negotiation, CanConsume, Consumed, Paired, Separate, OneToOne, MediaApart, Together;
    AptClosure(h, users, available, ps, order, consumable, caps);
    SeparateTogether(h, caps, consumable);
    GateAgreesWithBuilder(h, caps, consumable);
  }

  // ---------------------------------------------------------------- comparing by profile

  /** How H264 codecs are compared: if `a` agrees with `b` and `b` with `c` then so do `a` and
      `c`, and the answer to a codec of the router still agrees with it. A codec whose profile
      cannot be read agrees with nothing, not even with itself. */
  ghost predicate ByProfile(h: H264) {
    && Symmetric(h)
    && (forall a, b, c :: h.agree(a, b) && h.agree(b, c) ==> h.agree(a, c))
    && (forall pc, cap :: h.agree(pc, cap) ==> h.agree(Media(cap, pc.(extra := h.answer(pc, cap))), cap))
  }

  /** A consumable codec is matched by whatever the router's codec is matched by. */
  lemma SameAsRouter(h: H264, x: Codec, pc: Codec, cap: Codec)
    requires ByProfile(h) && Same(h, pc, cap)
    ensures Same(h, x, Media(cap, Answered(h, pc, cap))) <==> Same(h, x, cap)
  {
    var c := Media(cap, Answered(h, pc, cap));
    assert c.mime == cap.mime && c.clock == cap.clock && c.channels == cap.channels;
    if cap.mime == Some("video/h264") {
      assert h.agree(c, cap);
      assert h.agree(cap, c);
      assert h.agree(x, c) ==> h.agree(x, cap);
      assert h.agree(x, cap) ==> h.agree(x, c);
    }
  }

  lemma SupportedAsRouter(h: H264, caps: seq<Codec>, pc: Codec, cap: Codec)
    requires ByProfile(h) && Same(h, pc, cap)
    ensures Supported(h, caps, Media(cap, Answered(h, pc, cap))) <==> Supported(h, caps, cap)
  {
    hide Same, ByProfile;
    var c := Media(cap, Answered(h, pc, cap));
    var k, q := Accepting(h, caps, c), Accepting(h, caps, cap);
    if k < |caps| { SameAsRouter(h, caps[k], pc, cap); }
    if q < |caps| { SameAsRouter(h, caps[q], pc, cap); }
  }

  /** Media codecs with one type come from one codec of the router, and are supported together. */
  lemma SupportedTogether(h: H264, ps: seq<Codec>, rc: seq<Codec>, caps: seq<Codec>, a: Codec, b: Codec)
    requires ByProfile(h) && Distinct(rc) && !IsRtx(a) && !IsRtx(b) && a.pt == b.pt
    requires a in Intended(h, ps, rc, |ps|) && b in Intended(h, ps, rc, |ps|)
    ensures Supported(h, caps, a) <==> Supported(h, caps, b)
  {
    hide Intended, ByProfile, Supported;
    IntendedFrom(h, ps, rc, |ps|, a);
    IntendedFrom(h, ps, rc, |ps|, b);
    var i :| 0 <= i < |ps| && MediaFrom(h, ps, rc, a, i);
    var j :| 0 <= j < |ps| && MediaFrom(h, ps, rc, b, j);
    var k, q := FindMatched(h, ps[i], rc), FindMatched(h, ps[j], rc);
    assert k == q by { OneType(rc, k, q); }
    SupportedAsRouter(h, caps, ps[i], rc[k]);
    SupportedAsRouter(h, caps, ps[j], rc[q]);
  }

  lemma OneType(l: seq<Codec>, i: nat, j: nat)
    requires Distinct(l) && i < |l| && j < |l| && l[i].pt == l[j].pt
    ensures i == j
  {
  }

  /** Whatever the first two stages make of the codecs of a producer. */
  lemma ConsumableTogether(
      h: H264, users: seq<Codec>, available: seq<Codec>, ps: seq<Codec>, order: seq<nat>, consumable: seq<Codec>,
      caps: seq<Codec>)
    requires ByProfile(h) && Negotiation(h, users, available, ps, order, consumable)
    ensures Paired(consumable) && MediaApart(consumable) && Together(h, caps, consumable)
  {
    hide ByProfile, Supported, Intended, RouterCodecs, Paired, Produced, Match, MediaApart;
    var rc := RouterCodecs(users, available);
    var l := consumable;
    ProducedIsIntended(h, users, available, ps, order, l);
    NegotiatedDistinct(h, users, available, ps, order, l);
    IntendedPaired(h, ps, rc, |ps|);
    IntendedApart(h, ps, rc, |ps|);
    forall i, j | 0 <= i < |l| && 0 <= j < |l| && !IsRtx(l[i]) && !IsRtx(l[j]) && l[i].pt == l[j].pt
      ensures Supported(h, caps, l[i]) <==> Supported(h, caps, l[j])
    {
      SupportedTogether(h, ps, rc, caps, l[i], l[j]);
    }
  }

  /** Closure under apt through all stages, also when several codecs of a producer share one
      codec of the router. */
  lemma AptClosureByProfile(
      h: H264, users: seq<Codec>, available: seq<Codec>, ps: seq<Codec>, order: seq<nat>, consumable: seq<Codec>,
      caps: seq<Codec>)
    requires ByProfile(h) && Negotiation(h, users, available, ps, order, consumable)
    ensures Paired(RouterCodecs(users, available)) && Paired(consumable)
    ensures Consumed(h, caps, consumable).Ok? ==>
      var r := Consumed(h, caps, consumable).value; Paired(r) && r != [] && !IsRtx(r[0])
  {
    hide ByProfile, RouterCodecs, Consumed, Paired, MediaApart, Together, Produced, Match;
    RouterTyped(users, available);
    ConsumableTogether(h, users, available, ps, order, consumable, caps);
    if Consumed(h, caps, consumable).Ok? { ConsumedPaired(h, caps, consumable); }
  }

  /** There, too, a retransmission codec survives exactly if it and its media codec were matched. */
  lemma SurvivalByProfile(
      h: H264, users: seq<Codec>, available: seq<Codec>, ps: seq<Codec>, order: seq<nat>, consumable: seq<Codec>,
      caps: seq<Codec>, j: nat)
    requires ByProfile(h) && Negotiation(h, users, available, ps, order, consumable) && j < |consumable|
    ensures Survives(h, caps, consumable, j) <==>
      Supported(h, caps, consumable[j]) && (IsRtx(consumable[j]) ==> j > 0 && Supported(h, caps, consumable[j - 1]))
  {
    hide ByProfile, Negotiation, Supported, Survives, Paired, MediaApart, Together;
    ConsumableTogether(h, users, available, ps, order, consumable, caps);
    RtxSurvivesExactly(h, caps, consumable, j);
  }

  /** And the gate agrees with the builder. */
  lemma GateHoldsByProfile(
      h: H264, users: seq<Codec>, available: seq<Codec>, ps: seq<Codec>, order: seq<nat>, consumable: seq<Codec>,
      caps: seq<Codec>)
    requires ByProfile(h) && Negotiation(h, users, available, ps, order, consumable)
    ensures CanConsume(h, caps, consumable) <==> Consumed(h, caps, consumable).Ok?
  {
    hide Negotiation, CanConsume, Consumed, Paired, MediaApart, Together;
    ConsumableTogether(h, users, available, ps, order, consumable, caps);
    GateAgreesWithBuilder(h, caps, consumable);
  }
}
