/**
 Two codecs of a producer on one codec of the router: what can go wrong when the comparison of
 H264 codecs is not transitive.
 */
module RtpTwoOnOne {
  import opened RtpCodecs
  import opened RtpProducer
  import opened RtpConsumer
  import opened RtpPipeline

  function H264With(t: int, level: string): Codec {
    Codec(None, Some("video/h264"), Some(90000), None, Some(t), None, None, None, Level(level), [])
  }

  function RtxOn(t: int, apt: int): Codec {
    Codec(None, Some("video/rtx"), Some(90000), None, Some(t), Some(apt), None, None, map[], [])
  }

  /** Consumable parameters in which two media codecs share the type 100. */
  function TwoOnOne(): seq<Codec> {
    [H264With(100, "a"), RtxOn(101, 100), H264With(100, "b"), RtxOn(101, 100)]
  }

  function Level(level: string): Params {
    map["level" := level]
  }

  /** Levels agree if they are equal or one of them is "r": symmetric, but not transitive. */
  function Lenient(): H264 {
    H264((a: Codec, b: Codec) => a.extra == b.extra || a.extra == Level("r") || b.extra == Level("r"),
         (a: Codec, b: Codec) => a.extra)
  }

  lemma LevelsDiffer()
    ensures Level("a") != Level("b") && Level("a") != Level("r") && Level("b") != Level("r")
  {
    assert Level("a")["level"] == "a" && Level("b")["level"] == "b" && Level("r")["level"] == "r";
    assert "a"[0] != "b"[0] && "a"[0] != "r"[0] && "b"[0] != "r"[0];
  }

  lemma MimesDiffer()
    ensures "video/rtx" != "video/h264" && "video/h264" != "video/vp9"
    ensures "video/h264"[6..] != "/rtx" && "video/rtx"[5..] == "/rtx"
  {
    assert "video/h264"[6..][0] != "/rtx"[0];
    assert "video/rtx"[6] != "video/h264"[6] && "video/h264"[6] != "video/vp9"[6];
  }

  lemma KindsOfTwo(t: int, u: int, s: string)
    ensures !IsRtx(H264With(t, s)) && IsRtx(RtxOn(t, u))
  {
    MimesDiffer();
  }

  function OnlyB(): seq<Codec> {
    [H264With(0, "b"), RtxOn(0, 0)]
  }

  lemma TwoSame()
    ensures var h, caps, l := Lenient(), OnlyB(), TwoOnOne();
      && !Same(h, caps[0], l[0]) && !Same(h, caps[1], l[0]) && Same(h, caps[1], l[1]) && Same(h, caps[0], l[2])
      && Same(h, l[2], caps[0])
  {
    hide IsRtx, Level;
    MimesDiffer();
    LevelsDiffer();
  }

  lemma TwoRtx()
    ensures var caps, l := OnlyB(), TwoOnOne();
      !IsRtx(caps[0]) && !IsRtx(l[0]) && IsRtx(l[1]) && !IsRtx(l[2]) && IsRtx(l[3])
  {
    hide IsRtx;
    KindsOfTwo(100, 0, "a");
    KindsOfTwo(100, 0, "b");
    KindsOfTwo(101, 100, "b");
    KindsOfTwo(0, 0, "b");
  }

  lemma TwoSupported()
    ensures var h, caps, l := Lenient(), OnlyB(), TwoOnOne();
      && |l| == 4 && Supported(h, caps, l[1]) && Supported(h, caps, l[2]) && !Supported(h, caps, l[0])
      && Admits(h, caps, l[2]) && l[2].pt == l[1].apt == Some(100) && l[3].apt == Some(100)
      && l[1].pt == Some(101) && l[3].pt == Some(101)
  {
    hide IsRtx, Same;
    TwoSame();
    TwoRtx();
  }

  lemma LenientSymmetric()
    ensures Symmetric(Lenient())
  {
  }

  lemma TwoApt()
    ensures AptIsMedia(TwoOnOne())
  {
    hide IsRtx;
    TwoRtx();
  }

  lemma RtxLeads()
    ensures !MediaLeads(Lenient(), OnlyB(), TwoOnOne())
  {
    hide IsRtx, Same, Lenient, OnlyB, TwoOnOne, Supported, Admits;
    var h, caps, l := Lenient(), OnlyB(), TwoOnOne();
    TwoRtx();
    TwoSupported();
    assert Wanted(h, caps, l, l[1]) by { assert !IsRtx(l[2]) && l[2].pt == l[1].apt; }
    forall i | 0 <= i < |l| && !IsRtx(l[i]) && Supported(h, caps, l[i]) ensures !NoRtxBefore(h, caps, l, i) {
      assert i == 2;
    }
  }

  // ---------------------------------------------------------------- how the code gets there

  /** The one codec of the router's configuration, and of the worker. */
  function Base(): Codec {
    Codec(Some("video"), Some("video/h264"), Some(90000), None, None, None, None, None, Level("r"), [])
  }

  function BaseAt(t: int): Codec {
    Base().(pt := Some(t))
  }

  function RouterRtx(): Codec {
    Codec(Some("video"), Some("video/rtx"), Some(90000), None, Some(101), Some(100), None, None, map[], [])
  }

  /** A producer with two H264 codecs of different levels. */
  function TwoLevels(): seq<Codec> {
    [H264With(1, "a"), H264With(2, "b")]
  }

  lemma BasePatched()
    ensures Router.Patched(Base(), Base()) == Base() && Router.Supported(Base(), Base())
    ensures Router.IsVideo(Base()) && Router.IsVideo(BaseAt(100)) && !IsRtx(Base())
  {
    assert Level("r") + Level("r") == Level("r");
    assert "video"[..5] == "video";
    MimesDiffer();
  }

  lemma BaseNegotiated()
    ensures var w := Router.Negotiated([Base()], [Base()]);
      && !w.tooMany && Router.Sane([Base()])
      && w.entries == [Router.Entry(BaseAt(100), Router.Pooled), Router.Entry(RouterRtx(), Router.Retransmit)]
  {
    hide IsRtx, Router.Supported, Router.Patched, Router.IsVideo, Level;
    var w0 := Router.Work([], Router.Pool(), false);
    var w1 := Router.AddMedia(w0, Base(), Base());
    BasePatched();
    assert Router.Pool()[0] == 100 && Router.Pool()[1] == 101;
    assert w1.entries == [Router.Entry(BaseAt(100), Router.Pooled)] && w1.pool == Router.Pool()[1..];
    var w2 := Router.AddRtx(w1, BaseAt(100));
    assert w2.entries == w1.entries + [Router.Entry(RouterRtx(), Router.Retransmit)];
    assert Router.AddCodec(w0, Base(), [Base()]) == w2;
    assert Router.AddAll(w0, [Base()], [Base()]) == Router.AddAll(w2, [Base()][1..], [Base()]);
  }

  lemma BaseRouter()
    ensures RouterCodecs([Base()], [Base()]) == [BaseAt(100), RouterRtx()]
  {
    hide Router.Negotiated;
    BaseNegotiated();
  }

  lemma BaseFresh()
    ensures Types.FreshDemands(Types.Demands([Base()], [Base()]))
  {
    hide Router.Supported, Router.Patched, Router.IsVideo;
    BasePatched();
    Types.AllDraw([Base()], [Base()]);
    var ds := Types.Demands([Base()], [Base()]);
    forall k | 0 <= k < |ds| ensures Types.FreshDemand(ds, k) { assert ds[k] in ds; }
  }

  lemma LevelMatched(t: int, level: string)
    ensures var h, c := Lenient(), H264With(t, level);
      FindMatched(h, c, [BaseAt(100), RouterRtx()]) == 0 && !IsRtx(c) && Answered(h, c, BaseAt(100)) == c
  {
    hide IsRtx;
    MimesDiffer();
    KindsOfTwo(t, 0, level);
    assert Same(Lenient(), H264With(t, level), BaseAt(100));
  }

  lemma TwoMatched()
    ensures Match(Lenient(), TwoLevels(), [BaseAt(100), RouterRtx()]) == Ok(map[0 := 0, 1 := 0])
    ensures Walks([0, 1], map[0 := 0, 1 := 0])
  {
    hide IsRtx, FindMatched, Lenient, BaseAt, RouterRtx, H264With;
    LevelMatched(1, "a");
    LevelMatched(2, "b");
    var h, ps, rc := Lenient(), TwoLevels(), [BaseAt(100), RouterRtx()];
    assert MatchMedia(h, ps, rc, 0) == Ok(map[]);
    assert MatchMedia(h, ps, rc, 1) == Ok(map[0 := 0]);
    assert MatchMedia(h, ps, rc, 2) == Ok(map[0 := 0, 1 := 0]);
    var m := map[0 := 0, 1 := 0];
    assert MatchRtx(ps, rc, m, 0) == Ok(m);
    assert MatchRtx(ps, rc, m, 1) == Ok(m);
    assert MatchRtx(ps, rc, m, 2) == Ok(m);
  }

  lemma LevelConsumable(t: int, level: string)
    ensures Media(BaseAt(100), H264With(t, level)) == H264With(100, level)
    ensures RtxOf([BaseAt(100), RouterRtx()], BaseAt(100)) == [RtxOn(101, 100)]
  {
    hide IsRtx;
    MimesDiffer();
    RtxKinds();
    assert RtxFor([BaseAt(100), RouterRtx()], Some(100)) == 1;
  }

  lemma RtxKinds()
    ensures IsRtx(RouterRtx()) && !IsRtx(BaseAt(100))
  {
    MimesDiffer();
  }

  lemma TwoIntended()
    ensures Intended(Lenient(), TwoLevels(), [BaseAt(100), RouterRtx()], 2) == TwoOnOne()
  {
    hide IsRtx, FindMatched, Lenient, BaseAt, RouterRtx, H264With, Media, RtxOf, Answered;
    LevelMatched(1, "a");
    LevelMatched(2, "b");
    LevelConsumable(1, "a");
    LevelConsumable(2, "b");
    var h, ps, rc := Lenient(), TwoLevels(), [BaseAt(100), RouterRtx()];
    assert Intended(h, ps, rc, 0) == [];
    assert Intended(h, ps, rc, 1) == [H264With(100, "a")] + [RtxOn(101, 100)];
    assert Intended(h, ps, rc, 2) == Intended(h, ps, rc, 1) + ([H264With(100, "b")] + [RtxOn(101, 100)]);
  }

  /** The first two stages make `TwoOnOne` of that producer. */
  lemma TwoNegotiated()
    ensures Negotiation(Lenient(), [Base()], [Base()], TwoLevels(), [0, 1], TwoOnOne())
  {
    hide IsRtx, Lenient, BaseAt, RouterRtx, Intended, Match, Router.Negotiated, RouterCodecs, Produced, Walks;
    BaseNegotiated();
    BaseRouter();
    BaseFresh();
    TwoMatched();
    TwoIntended();
    KindsOfTwo(1, 0, "a");
    KindsOfTwo(2, 0, "b");
    RouterTyped([Base()], [Base()]);
    Types.DistinctExactly([Base()], [Base()]);
    PayloadTypesRecovered(Lenient(), TwoLevels(), RouterCodecs([Base()], [Base()]), [0, 1]);
  }

  /** When H264 codecs are compared by a relation that is symmetric but not transitive, gate and
      builder can disagree on what the first two stages make: two codecs of a producer are matched
      with one codec of the router, only the second is supported by the consumer, and what is left
      begins with the retransmission codec of the first. */
  lemma GateSaysYesBuilderFails()
    ensures Symmetric(Lenient())
    ensures Negotiation(Lenient(), [Base()], [Base()], TwoLevels(), [0, 1], TwoOnOne())
    ensures CanConsume(Lenient(), OnlyB(), TwoOnOne()) && Consumed(Lenient(), OnlyB(), TwoOnOne()).Err?
  {
    hide IsRtx, Same, Consumed, Lenient, OnlyB, TwoOnOne, Supported, Admits, Symmetric, AptIsMedia, MediaLeads, Negotiation;
    TwoNegotiated();
    TwoSupported();
    LenientSymmetric();
    TwoApt();
    RtxLeads();
    BuilderExactly(Lenient(), OnlyB(), TwoOnOne());
  }
}
