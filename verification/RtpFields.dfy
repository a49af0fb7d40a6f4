/**
 What matching means for the codecs that come out of it, field by field: what a consumer gets is
 what it asked for, what a producer offers is under the router's description, and what the worker
 is told leads from the one to the other.
 */
module RtpFields {
  import opened RtpCodecs
  import opened RtpProducer
  import opened RtpConsumer

  // ---------------------------------------------------------------- codecs that fit

  /** Two descriptions of one codec: the same name, rate and channels; for H264 the same packetization
      and profiles that agree, for VP9 the same profile. */
  ghost predicate Fits(h: H264, a: Codec, b: Codec) {
    && a.mime.Some? && a.mime == b.mime && a.clock == b.clock && a.channels == b.channels
    && (a.mime == Some("video/h264") ==> h.agree(a, b) && exists n :: Means(a.mode, 0, n) && Means(b.mode, 0, n))
    && (a.mime == Some("video/vp9") ==> exists n :: Means(a.profile, 0, n) && Means(b.profile, 0, n))
  }

  lemma FitsIs(h: H264, a: Codec, b: Codec)
    ensures Same(h, a, b) <==> Fits(h, a, b)
  {
    hide Or;
    forall o, n ensures Means(o, 0, n) <==> Or(o, 0) == n { MeansOr(o, 0, n); }
    assert Means(a.mode, 0, Or(a.mode, 0)) && Means(a.profile, 0, Or(a.profile, 0));
  }

  /** A retransmission codec has a name that ends in "/rtx". */
  lemma RtxByName(c: Codec)
    ensures IsRtx(c) <==> exists p: string :: c.mime == Some(p + "/rtx") && p != []
  {
    if IsRtx(c) {
      var m := c.mime.value;
      assert m == m[..|m| - 4] + "/rtx";
    }
    if p: string :| c.mime == Some(p + "/rtx") && p != [] {
      assert (p + "/rtx")[|p|..] == "/rtx";
    }
  }

  /** `k` is the first of the list that fits. */
  ghost predicate FirstFit(h: H264, c: Codec, l: seq<Codec>, k: nat) {
    k < |l| && Fits(h, c, l[k]) && forall j :: 0 <= j < k ==> !Fits(h, c, l[j])
  }

  /** The same with the capability as the first argument. */
  ghost predicate FirstAsked(h: H264, caps: seq<Codec>, c: Codec, k: nat) {
    k < |caps| && Fits(h, caps[k], c) && forall j :: 0 <= j < k ==> !Fits(h, caps[j], c)
  }

  lemma FindIsFirst(h: H264, c: Codec, l: seq<Codec>)
    ensures var k := FindMatched(h, c, l);
      (k < |l| ==> FirstFit(h, c, l, k)) && (k == |l| ==> forall j :: 0 <= j < |l| ==> !Fits(h, c, l[j]))
  {
    forall j | 0 <= j < |l| ensures Same(h, c, l[j]) <==> Fits(h, c, l[j]) { FitsIs(h, c, l[j]); }
  }

  lemma AcceptingIsFirst(h: H264, caps: seq<Codec>, c: Codec)
    ensures var k := Accepting(h, caps, c);
      (k < |caps| ==> FirstAsked(h, caps, c, k)) && (k == |caps| ==> forall j :: 0 <= j < |caps| ==> !Fits(h, caps[j], c))
  {
    forall j | 0 <= j < |caps| ensures Same(h, caps[j], c) <==> Fits(h, caps[j], c) { FitsIs(h, caps[j], c); }
  }

  // ---------------------------------------------------------------- consuming

  /** A codec is matched exactly if one of the consumer's capabilities fits it. */
  lemma SupportedExactly(h: H264, caps: seq<Codec>, c: Codec)
    ensures Supported(h, caps, c) <==> exists k :: 0 <= k < |caps| && Fits(h, caps[k], c)
  {
    hide Fits;
    AcceptingIsFirst(h, caps, c);
  }

  /** What a consumer is given for `c`: the codec itself, with the feedback of the capability. */
  ghost predicate Given(h: H264, caps: seq<Codec>, c: Codec, r: Codec) {
    exists k: nat :: FirstAsked(h, caps, c, k) && Asked(c, caps[k], r)
  }

  predicate Asked(c: Codec, cap: Codec, r: Codec) {
    && r.kind == c.kind && r.mime == c.mime && r.clock == c.clock && r.channels == c.channels && r.pt == c.pt && r.apt == c.apt
    && r.mode == c.mode && r.profile == c.profile && r.extra == c.extra && r.feedback == cap.feedback
  }

  lemma AnswerIsGiven(h: H264, caps: seq<Codec>, c: Codec)
    requires Supported(h, caps, c)
    ensures Given(h, caps, c, Answer(h, caps, c))
  {
    hide Fits;
    AcceptingIsFirst(h, caps, c);
    assert Asked(c, caps[Accepting(h, caps, c)], Answer(h, caps, c));
  }

  ghost predicate Rising(ns: seq<nat>) {
    forall i, j :: 0 <= i < j < |ns| ==> ns[i] < ns[j]
  }

  /** `r` are the codecs at the positions `ns` of `l`, in their order. */
  ghost predicate TakenFrom(l: seq<Codec>, ns: seq<nat>, r: seq<Codec>) {
    |r| == |ns| && Rising(ns) && forall j :: 0 <= j < |ns| ==> ns[j] < |l| && r[j] == l[ns[j]]
  }

  /** Walking and removing takes codecs out and changes nothing else; media codecs stay. */
  lemma {:induction false} PrunedTakes(done: seq<Codec>, todo: seq<Codec>) returns (ns: seq<nat>)
    ensures TakenFrom(done + todo, ns, Pruned(done, todo))
    ensures forall i :: 0 <= i < |done| ==> i in ns
    ensures forall i :: 0 <= i < |done + todo| && !IsRtx((done + todo)[i]) ==> i in ns
    decreases |todo|
  {
    hide IsRtx, HasType;
    if todo == [] {
      ns := seq(|done|, i requires 0 <= i < |done| => i);
      assert done + todo == done;
      forall i: nat | i < |done| ensures i in ns { assert ns[i] == i; }
    } else if IsRtx(todo[0]) && !HasType(done + todo, todo[0].apt) {
      var ms := PrunedTakes(done, todo[1..]);
      ns := seq(|ms|, j requires 0 <= j < |ms| => if ms[j] < |done| then ms[j] else ms[j] + 1);
      SkipOne(done, todo, ms, ns);
    } else {
      ns := PrunedTakes(done + [todo[0]], todo[1..]);
      assert done + [todo[0]] + todo[1..] == done + todo;
    }
  }

  lemma SkipOne(done: seq<Codec>, todo: seq<Codec>, ms: seq<nat>, ns: seq<nat>)
    requires todo != [] && IsRtx(todo[0]) && |ns| == |ms| && Rising(ms)
    requires forall j :: 0 <= j < |ms| ==> ms[j] < |done + todo[1..]| && ns[j] == if ms[j] < |done| then ms[j] else ms[j] + 1
    requires forall i :: 0 <= i < |done| ==> i in ms
    requires forall i :: 0 <= i < |done + todo[1..]| && !IsRtx((done + todo[1..])[i]) ==> i in ms
    ensures Rising(ns) && forall j :: 0 <= j < |ns| ==> ns[j] < |done + todo| && (done + todo)[ns[j]] == (done + todo[1..])[ms[j]]
    ensures forall i :: 0 <= i < |done| ==> i in ns
    ensures forall i :: 0 <= i < |done + todo| && !IsRtx((done + todo)[i]) ==> i in ns
  {
    hide IsRtx, Rising;
    RisingMoved(|done|, ms, ns);
    forall i: nat | i < |done| ensures i in ns { Moved(|done|, ms, ns, i); }
    forall i: nat | i < |done + todo| && !IsRtx((done + todo)[i]) ensures i in ns {
      if i < |done| {
        Moved(|done|, ms, ns, i);
      } else {
        assert i != |done|;
        assert (done + todo[1..])[i - 1] == (done + todo)[i];
        Moved(|done|, ms, ns, i - 1);
      }
    }
  }

  lemma RisingMoved(d: nat, ms: seq<nat>, ns: seq<nat>)
    requires |ns| == |ms| && Rising(ms) && forall j :: 0 <= j < |ms| ==> ns[j] == if ms[j] < d then ms[j] else ms[j] + 1
    ensures Rising(ns)
  {
    forall i, j | 0 <= i < j < |ns| ensures ns[i] < ns[j] { assert ms[i] < ms[j]; }
  }

  lemma Moved(d: nat, ms: seq<nat>, ns: seq<nat>, i: nat)
    requires |ns| == |ms| && i in ms && forall j :: 0 <= j < |ms| ==> ns[j] == if ms[j] < d then ms[j] else ms[j] + 1
    ensures (if i < d then i else i + 1) in ns
  {
    var j :| 0 <= j < |ms| && ms[j] == i;
    assert ns[j] in ns;
  }

  /** The matched codecs are the supported ones in their order. */
  lemma {:induction false} MatchedTakes(h: H264, caps: seq<Codec>, l: seq<Codec>) returns (ns: seq<nat>)
    ensures |ns| == |Matched(h, caps, l)| && Rising(ns)
    ensures forall j :: 0 <= j < |ns| ==>
      ns[j] < |l| && Supported(h, caps, l[ns[j]]) && Matched(h, caps, l)[j] == Answer(h, caps, l[ns[j]])
    ensures forall i :: 0 <= i < |l| && Supported(h, caps, l[i]) ==> i in ns
  {
    hide Accepting, Answer;
    if l == [] {
      ns := [];
    } else {
      var n := |l| - 1;
      ns := MatchedTakes(h, caps, l[..n]);
      MatchedLast(h, caps, l);
      if Supported(h, caps, l[n]) { ns := ns + [n]; }
    }
  }

  lemma MatchedLast(h: H264, caps: seq<Codec>, l: seq<Codec>)
    requires l != []
    ensures var n := |l| - 1;
      Matched(h, caps, l) == Matched(h, caps, l[..n]) + if Supported(h, caps, l[n]) then [Answer(h, caps, l[n])] else []
  {
  }

  /** What a consumer receives are consumable codecs in their order, each of which it has a capability
      for; and it receives every media codec among those. */
  lemma ConsumedFields(h: H264, caps: seq<Codec>, l: seq<Codec>) returns (ns: seq<nat>)
    requires Consumed(h, caps, l).Ok?
    ensures var r := Consumed(h, caps, l).value;
      && |ns| == |r| && Rising(ns) && (forall j :: 0 <= j < |r| ==> ns[j] < |l| && Given(h, caps, l[ns[j]], r[j]))
      && forall i, k :: 0 <= i < |l| && 0 <= k < |caps| && !IsRtx(l[i]) && Fits(h, caps[k], l[i]) ==> i in ns
  {
    hide Given, Pruned, Matched, Supported, Answer, IsRtx, Fits, Rising;
    var m := Matched(h, caps, l);
    var r := Consumed(h, caps, l).value;
    var ms := MatchedTakes(h, caps, l);
    var ps := PrunedTakes([], m);
    assert [] + m == m;
    ns := seq(|ps|, j requires 0 <= j < |ps| => ms[ps[j]]);
    RisingTwice(ms, ps, ns);
    forall j | 0 <= j < |r| ensures Given(h, caps, l[ns[j]], r[j]) { AnswerIsGiven(h, caps, l[ns[j]]); }
    forall i, k | 0 <= i < |l| && 0 <= k < |caps| && !IsRtx(l[i]) && Fits(h, caps[k], l[i]) ensures i in ns {
      SupportedExactly(h, caps, l[i]);
      var q :| 0 <= q < |ms| && ms[q] == i;
      AnswerKeeps(h, caps, l[i]);
      assert !IsRtx(([] + m)[q]);
      var j :| 0 <= j < |ps| && ps[j] == q;
      assert ns[j] == i;
    }
  }

  lemma RisingTwice(ms: seq<nat>, ps: seq<nat>, ns: seq<nat>)
    requires Rising(ms) && Rising(ps) && |ns| == |ps| && forall j :: 0 <= j < |ps| ==> ps[j] < |ms| && ns[j] == ms[ps[j]]
    ensures Rising(ns)
  {
  }

  /** The gate says yes exactly if the consumer has a capability for some media codec. */
  lemma CanConsumeExactly(h: H264, caps: seq<Codec>, l: seq<Codec>)
    ensures CanConsume(h, caps, l) <==>
      exists i, k :: 0 <= i < |l| && 0 <= k < |caps| && !IsRtx(l[i]) && Fits(h, l[i], caps[k])
  {
    hide Fits, IsRtx;
    forall i | 0 <= i < |l| ensures Admits(h, caps, l[i]) <==> !IsRtx(l[i]) && exists k :: 0 <= k < |caps| && Fits(h, l[i], caps[k]) {
      FindIsFirst(h, l[i], caps);
      if FindMatched(h, l[i], caps) < |caps| { SameIsRtx(h, l[i], caps[FindMatched(h, l[i], caps)]); }
    }
  }
}
