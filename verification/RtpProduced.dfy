/**
 What a producer offers, field by field: each of its media codecs under the description of the
 router's codec that fits it first, followed by the router's retransmission codec for that; and
 what the worker is told of the types.
 */
module RtpProduced {
  import opened RtpCodecs
  import opened RtpProducer
  import opened RtpFields

  // ---------------------------------------------------------------- errors

  /** A producer is refused for an unsupported codec exactly if it has a media codec that no codec of
      the router fits. */
  lemma UnsupportedExactly(h: H264, ps: seq<Codec>, caps: seq<Codec>, order: seq<nat>)
    ensures Produced(h, ps, caps, order) == Err(UnsupportedCodec) <==>
      exists i :: 0 <= i < |ps| && Unfit(h, ps[i], caps)
  {
    hide MatchMedia, MatchRtx, Mappings, Consumable, Unfit;
    MediaErrors(h, ps, caps, |ps|);
    if MatchMedia(h, ps, caps, |ps|).Ok? { OtherErrors(h, ps, caps, order); }
  }

  ghost predicate Unfit(h: H264, c: Codec, caps: seq<Codec>) {
    !IsRtx(c) && forall k :: 0 <= k < |caps| ==> !Fits(h, c, caps[k])
  }

  lemma {:induction false} MediaErrors(h: H264, ps: seq<Codec>, caps: seq<Codec>, n: nat)
    requires n <= |ps|
    ensures MatchMedia(h, ps, caps, n).Err? ==> MatchMedia(h, ps, caps, n) == Err(UnsupportedCodec)
    ensures MatchMedia(h, ps, caps, n).Err? <==> exists i :: 0 <= i < n && Unfit(h, ps[i], caps)
  {
    hide IsRtx, Fits;
    if n > 0 {
      MediaErrors(h, ps, caps, n - 1);
      FindIsFirst(h, ps[n - 1], caps);
      assert Unfit(h, ps[n - 1], caps) <==> !IsRtx(ps[n - 1]) && FindMatched(h, ps[n - 1], caps) == |caps|;
    }
  }

  lemma OtherErrors(h: H264, ps: seq<Codec>, caps: seq<Codec>, order: seq<nat>)
    requires MatchMedia(h, ps, caps, |ps|).Ok?
    ensures Produced(h, ps, caps, order) != Err(UnsupportedCodec)
  {
    hide ConsumableOf, MatchMedia;
    var m := MatchMedia(h, ps, caps, |ps|).value;
    RtxErrors(ps, caps, m, |ps|);
    if MatchRtx(ps, caps, m, |ps|).Ok? {
      var m1 := MatchRtx(ps, caps, m, |ps|).value;
      MappingErrors(ps, caps, m1, order);
      if Mappings(ps, caps, m1, order).Ok? {
        ConsumableErrors(h, ps, caps, m1, Mappings(ps, caps, m1, order).value, |ps|);
      }
    }
  }

  lemma {:induction false} RtxErrors(ps: seq<Codec>, caps: seq<Codec>, m: Matching, n: nat)
    requires n <= |ps|
    ensures MatchRtx(ps, caps, m, n) != Err(UnsupportedCodec)
  {
    if n > 0 { RtxErrors(ps, caps, m, n - 1); }
  }

  lemma {:induction false} MappingErrors(ps: seq<Codec>, caps: seq<Codec>, m: Matching, order: seq<nat>)
    ensures Mappings(ps, caps, m, order) != Err(UnsupportedCodec)
  {
    if order != [] { MappingErrors(ps, caps, m, order[..|order| - 1]); }
  }

  lemma {:induction false} ConsumableErrors(h: H264, ps: seq<Codec>, caps: seq<Codec>, m: Matching, l: seq<Mapping>, n: nat)
    requires n <= |ps|
    ensures Consumable(h, ps, caps, m, l, n) != Err(UnsupportedCodec)
  {
    hide ConsumableOf;
    if n > 0 {
      ConsumableErrors(h, ps, caps, m, l, n - 1);
      var c := ps[n - 1];
      OneError(caps, l, if n - 1 in m && m[n - 1] < |caps| then Answered(h, c, caps[m[n - 1]]) else c);
    }
  }

  lemma OneError(caps: seq<Codec>, l: seq<Mapping>, pc: Codec)
    ensures ConsumableOf(caps, l, pc) != Err(UnsupportedCodec)
  {
    hide Scan;
    forall t ensures Scan(Sources(l), t) != Err(UnsupportedCodec) { ScanError(Sources(l), t); }
    forall t ensures Scan(Types(caps), t) != Err(UnsupportedCodec) { ScanError(Types(caps), t); }
    forall t ensures Scan(Apts(caps), t) != Err(UnsupportedCodec) { ScanError(Apts(caps), t); }
  }

  lemma {:induction false} ScanError(l: seq<Field>, t: int)
    ensures Scan(l, t) != Err(UnsupportedCodec)
  {
    if l != [] { ScanError(l[1..], t); }
  }

  /** The first codec of the list with the type that is retransmitted. */
  ghost predicate Retransmits(ps: seq<Codec>, c: Codec, a: nat) {
    && a < |ps| && c.apt.Some? && ps[a].pt == c.apt
    && forall j :: 0 <= j < a ==> ps[j].pt != c.apt
  }

  /** The first retransmission codec of the list for a type. */
  ghost predicate RtxOfType(caps: seq<Codec>, t: Option<int>, q: nat) {
    && q < |caps| && t.Some? && IsRtx(caps[q]) && caps[q].apt == t
    && forall j :: 0 <= j < q ==> !(IsRtx(caps[j]) && caps[j].apt == t)
  }

  lemma RtxForIs(caps: seq<Codec>, t: Option<int>)
    ensures var q := RtxFor(caps, t); (q < |caps| <==> exists k: nat :: RtxOfType(caps, t, k)) && (q < |caps| ==> RtxOfType(caps, t, q))
  {
    hide IsRtx;
  }

  /** A retransmission codec of the producer can be matched: the media codec it names is there, and the
      router has a retransmission codec for what fits that one. */
  ghost predicate Answerable(h: H264, ps: seq<Codec>, caps: seq<Codec>, c: Codec) {
    exists a: nat, k: nat, q: nat :: Retransmits(ps, c, a) && FirstFit(h, ps[a], caps, k) && RtxOfType(caps, caps[k].pt, q)
  }

  /** Where retransmission codecs name media codecs, matching fails for want of an associated codec
      exactly if the media codecs fit and some retransmission codec cannot be matched. */
  lemma {:induction false} NoAssociatedExactly(h: H264, ps: seq<Codec>, caps: seq<Codec>, n: nat)
    requires MatchMedia(h, ps, caps, |ps|).Ok? && n <= |ps|
    requires forall j, a: nat :: 0 <= j < |ps| && IsRtx(ps[j]) && Retransmits(ps, ps[j], a) ==> !IsRtx(ps[a])
    ensures var m := MatchMedia(h, ps, caps, |ps|).value;
      MatchRtx(ps, caps, m, n) == Err(NoAssociatedCodec) <==> !forall j :: 0 <= j < n && IsRtx(ps[j]) ==> Answerable(h, ps, caps, ps[j])
    ensures var m := MatchMedia(h, ps, caps, |ps|).value;
      MatchRtx(ps, caps, m, n).Ok? <==> forall j :: 0 <= j < n && IsRtx(ps[j]) ==> Answerable(h, ps, caps, ps[j])
  {
    hide MatchMedia, IsRtx, Answerable;
    if n > 0 {
      var m := MatchMedia(h, ps, caps, |ps|).value;
      NoAssociatedExactly(h, ps, caps, n - 1);
      if IsRtx(ps[n - 1]) && MatchRtx(ps, caps, m, n - 1).Ok? {
        MatchMediaIs(h, ps, caps, |ps|);
        MatchRtxKeeps(h, ps, caps, m, n - 1);
        AnswerableIs(h, ps, caps, MatchRtx(ps, caps, m, n - 1).value, ps[n - 1]);
      }
    }
  }

  lemma AnswerableIs(h: H264, ps: seq<Codec>, caps: seq<Codec>, m: Matching, c: Codec)
    requires InRange(ps, caps, m) && forall i :: 0 <= i < |ps| ==> MatchedAt(h, ps, caps, m, i)
    requires forall a: nat :: Retransmits(ps, c, a) ==> !IsRtx(ps[a])
    ensures var a := Associated(ps, c);
      if a == |ps| then !Answerable(h, ps, caps, c)
      else a in m && m[a] < |caps| && (Answerable(h, ps, caps, c) <==> RtxFor(caps, caps[m[a]].pt) < |caps|)
  {
    hide IsRtx, Fits;
    var a := Associated(ps, c);
    assert a < |ps| ==> Retransmits(ps, c, a);
    forall b: nat | Retransmits(ps, c, b) ensures a == b {}
    if a < |ps| {
      assert MatchedAt(h, ps, caps, m, a);
      FindIsFirst(h, ps[a], caps);
      RtxForIs(caps, caps[m[a]].pt);
      forall k: nat | FirstFit(h, ps[a], caps, k) ensures k == m[a] { OneFirst(h, ps[a], caps, k, m[a]); }
    }
  }

  lemma OneFirst(h: H264, c: Codec, caps: seq<Codec>, j: nat, k: nat)
    requires FirstFit(h, c, caps, j) && FirstFit(h, c, caps, k)
    ensures j == k
  {
    hide Fits;
  }

  // ---------------------------------------------------------------- what is offered

  /** The producer's codec under the router's description, with the producer's parameters; for H264
      with the profile of the answer. */
  predicate MediaUnder(h: H264, p: Codec, cap: Codec, r: Codec) {
    && r.kind.None? && r.mime == cap.mime && r.clock == cap.clock && r.channels == cap.channels
    && r.pt == cap.pt && r.feedback == cap.feedback
    && r.apt == p.apt && r.mode == p.mode && r.profile == p.profile
    && r.extra == if p.mime == Some("video/h264") then h.answer(p, cap) else p.extra
  }

  predicate RtxUnder(cap: Codec, r: Codec) {
    && r.kind.None? && r.mime == cap.mime && r.clock == cap.clock && r.channels.None? && r.pt == cap.pt && r.apt == cap.apt
    && r.mode == cap.mode && r.profile == cap.profile && r.extra == cap.extra && r.feedback == cap.feedback
  }

  /** What stands from `from` up to `to`: the codec `p`, and the retransmission codec if there is one. */
  ghost predicate BlockOf(h: H264, p: Codec, caps: seq<Codec>, r: seq<Codec>, from: nat, to: nat) {
    exists k: nat :: FirstFit(h, p, caps, k) && BlockUnder(h, p, caps, k, r, from, to)
  }

  ghost predicate BlockUnder(h: H264, p: Codec, caps: seq<Codec>, k: nat, r: seq<Codec>, from: nat, to: nat) {
    && k < |caps| && from < to <= |r| && MediaUnder(h, p, caps[k], r[from])
    && (if exists q: nat :: RtxOfType(caps, caps[k].pt, q) then
          to == from + 2 && exists q: nat :: RtxOfType(caps, caps[k].pt, q) && RtxUnder(caps[q], r[from + 1])
        else to == from + 1)
  }

  lemma PartIsBlock(h: H264, p: Codec, caps: seq<Codec>, before: seq<Codec>, after: seq<Codec>)
    requires !IsRtx(p) && FindMatched(h, p, caps) < |caps|
    ensures BlockOf(h, p, caps, before + Part(h, p, caps) + after, |before|, |before + Part(h, p, caps)|)
  {
    hide FindMatched, RtxFor, Fits;
    var k := FindMatched(h, p, caps);
    var r := before + Part(h, p, caps) + after;
    FindIsFirst(h, p, caps);
    RtxForIs(caps, caps[k].pt);
    assert r[|before|] == Media(caps[k], Answered(h, p, caps[k]));
    assert MediaUnder(h, p, caps[k], r[|before|]);
    var q := RtxFor(caps, caps[k].pt);
    if q < |caps| {
      assert r[|before| + 1] == Retransmission(caps[q]);
      assert RtxUnder(caps[q], r[|before| + 1]);
    }
    assert BlockUnder(h, p, caps, k, r, |before|, |before + Part(h, p, caps)|);
  }

  /** The blocks of the first `n` codecs of the producer lie one behind the other. */
  ghost predicate Blocks(h: H264, ps: seq<Codec>, caps: seq<Codec>, n: nat, r: seq<Codec>, at: seq<nat>) {
    && n <= |ps| && |at| == n + 1 && at[0] == 0 && at[n] <= |r|
    && (forall i :: 0 <= i < n && IsRtx(ps[i]) ==> at[i + 1] == at[i])
    && (forall i :: 0 <= i < n && !IsRtx(ps[i]) ==> BlockOf(h, ps[i], caps, r, at[i], at[i + 1]))
  }

  lemma {:induction false} IntendedBlocks(h: H264, ps: seq<Codec>, caps: seq<Codec>, n: nat, after: seq<Codec>) returns (at: seq<nat>)
    requires n <= |ps| && forall i :: 0 <= i < |ps| && !IsRtx(ps[i]) ==> FindMatched(h, ps[i], caps) < |caps|
    ensures Blocks(h, ps, caps, n, Intended(h, ps, caps, n) + after, at) && at[n] == |Intended(h, ps, caps, n)|
  {
    hide Intended, Part, IsRtx, BlockOf, FindMatched;
    if n == 0 {
      at := [0];
      IntendedNone(h, ps, caps);
    } else {
      var c := ps[n - 1];
      var pre := Intended(h, ps, caps, n - 1);
      var part := Part(h, c, caps);
      IntendedStep(h, ps, caps, n);
      var before := IntendedBlocks(h, ps, caps, n - 1, part + after);
      assert pre + (part + after) == Intended(h, ps, caps, n) + after;
      at := before + [|pre + part|];
      if IsRtx(c) {
        NoPart(h, c, caps);
        assert pre + [] == pre;
      } else {
        PartIsBlock(h, c, caps, pre, after);
        assert pre + part + after == Intended(h, ps, caps, n) + after;
      }
    }
  }

  lemma NoPart(h: H264, c: Codec, caps: seq<Codec>)
    requires IsRtx(c)
    ensures Part(h, c, caps) == []
  {
  }

  /** With distinct types the consumable parameters are, for each media codec of the producer in
      order, that codec under the first fitting codec of the router and the router's retransmission
      codec for it, and nothing else. */
  lemma ProducedFields(h: H264, ps: seq<Codec>, caps: seq<Codec>, order: seq<nat>) returns (at: seq<nat>)
    requires Typed(ps) && Typed(caps) && Distinct(ps) && Distinct(caps)
    requires Match(h, ps, caps).Ok? ==> Walks(order, Match(h, ps, caps).value)
    requires Produced(h, ps, caps, order).Ok?
    ensures var r := Produced(h, ps, caps, order).value; Blocks(h, ps, caps, |ps|, r, at) && at[|ps|] == |r|
  {
    hide Match, Intended, Produced, IsRtx, FindMatched, Blocks;
    PayloadTypesRecovered(h, ps, caps, order);
    MatchOk(h, ps, caps, order);
    forall i | 0 <= i < |ps| && !IsRtx(ps[i]) ensures FindMatched(h, ps[i], caps) < |caps| { MatchedMedia(h, ps, caps, i); }
    at := IntendedBlocks(h, ps, caps, |ps|, []);
    assert Intended(h, ps, caps, |ps|) + [] == Intended(h, ps, caps, |ps|);
  }

  lemma MatchOk(h: H264, ps: seq<Codec>, caps: seq<Codec>, order: seq<nat>)
    requires Produced(h, ps, caps, order).Ok?
    ensures Match(h, ps, caps).Ok?
  {
    hide Match, Mappings, Consumable;
  }

  // ---------------------------------------------------------------- looking up by type

  /** The search ends at `k` exactly if that is the first element with the value or the end of the list, and
      no field before it is missing. */
  lemma {:induction false} ScanIs(l: seq<Field>, t: int, k: nat)
    requires k <= |l|
    ensures Scan(l, t) == Ok(k) <==> (k < |l| ==> l[k] == Value(t)) && forall j :: 0 <= j < k ==> l[j] != Missing && l[j] != Value(t)
  {
    if l != [] && k > 0 {
      ScanIs(l[1..], t, k - 1);
      assert forall j :: 0 < j < |l| ==> l[j] == l[1..][j - 1];
    }
  }

  /** It ends within the list. */
  lemma {:induction false} ScanWithin(l: seq<Field>, t: int)
    ensures Scan(l, t).Ok? ==> Scan(l, t).value <= |l|
  {
    if l != [] { ScanWithin(l[1..], t); }
  }

  lemma {:induction false} ScanSources(l: seq<Mapping>, t: int)
    ensures Scan(Sources(l), t).Ok?
  {
    if l != [] {
      assert Sources(l)[1..] == Sources(l[1..]);
      ScanSources(l[1..], t);
    }
  }

  ghost predicate FirstSource(l: seq<Mapping>, t: int, i: nat) {
    i < |l| && l[i].from == t && forall j :: 0 <= j < i ==> l[j].from != t
  }

  /** The first codec with the type, all before it having one. */
  ghost predicate FirstOfType(caps: seq<Codec>, t: int, k: nat) {
    k < |caps| && caps[k].pt == Some(t) && forall j :: 0 <= j < k ==> caps[j].pt.Some? && caps[j].pt != Some(t)
  }

  /** The first retransmission codec for the type or the end of the list, all before it naming a type. */
  ghost predicate FirstRtx(caps: seq<Codec>, t: int, q: nat) {
    && q <= |caps| && (forall j :: 0 <= j < q && IsRtx(caps[j]) ==> caps[j].apt.Some? && caps[j].apt != Some(t))
    && (q < |caps| ==> IsRtx(caps[q]) && caps[q].apt == Some(t))
  }

  lemma SourceIs(l: seq<Mapping>, t: int)
    ensures Scan(Sources(l), t).Ok? && Scan(Sources(l), t).value <= |l|
    ensures forall i: nat :: FirstSource(l, t, i) <==> i < |l| && Scan(Sources(l), t) == Ok(i)
  {
    hide Scan;
    ScanSources(l, t);
    ScanWithin(Sources(l), t);
    forall i: nat | i < |l| ensures FirstSource(l, t, i) <==> Scan(Sources(l), t) == Ok(i) { ScanIs(Sources(l), t, i); }
  }

  lemma TypeIs(caps: seq<Codec>, t: int)
    ensures forall k: nat :: FirstOfType(caps, t, k) <==> k < |caps| && Scan(Types(caps), t) == Ok(k)
  {
    hide Scan;
    forall k: nat | k < |caps| ensures FirstOfType(caps, t, k) <==> Scan(Types(caps), t) == Ok(k) { ScanIs(Types(caps), t, k); }
  }

  lemma AptIs(caps: seq<Codec>, t: int)
    ensures forall q: nat :: FirstRtx(caps, t, q) <==> Scan(Apts(caps), t) == Ok(q)
  {
    hide Scan, IsRtx;
    ScanWithin(Apts(caps), t);
    forall q: nat | q <= |caps| ensures FirstRtx(caps, t, q) <==> Scan(Apts(caps), t) == Ok(q) { ScanIs(Apts(caps), t, q); }
  }

  /** Three look-ups by type lead from the codec to what is offered for it. */
  ghost predicate Found(caps: seq<Codec>, l: seq<Mapping>, pc: Codec, i: nat, k: nat, q: nat) {
    pc.pt.Some? && FirstSource(l, pc.pt.value, i) && FirstOfType(caps, l[i].to, k) && FirstRtx(caps, l[i].to, q)
  }

  /** With whatever types, an offer is made for a codec exactly if all look-ups succeed without meeting a
      missing type. */
  lemma OfferExactly(caps: seq<Codec>, l: seq<Mapping>, pc: Codec)
    ensures ConsumableOf(caps, l, pc).Ok? <==> exists i: nat, k: nat, q: nat :: Found(caps, l, pc, i, k, q)
    ensures forall i: nat, k: nat, q: nat :: Found(caps, l, pc, i, k, q) ==>
      ConsumableOf(caps, l, pc) == Ok([Media(caps[k], pc)] + if q < |caps| then [Retransmission(caps[q])] else [])
  {
    hide Scan, Media, Retransmission, FirstSource, FirstOfType, FirstRtx;
    if pc.pt.Some? {
      var t := pc.pt.value;
      SourceIs(l, t);
      var i := Scan(Sources(l), t).value;
      if i < |l| {
        TypeIs(caps, l[i].to);
        AptIs(caps, l[i].to);
        TypeAt(caps, l[i].to);
        if ConsumableOf(caps, l, pc).Ok? {
          var k, q := Scan(Types(caps), l[i].to).value, Scan(Apts(caps), l[i].to).value;
          assert Found(caps, l, pc, i, k, q);
        }
      }
    }
  }

  lemma TypeAt(caps: seq<Codec>, t: int)
    ensures forall k: nat :: FirstOfType(caps, t, k) ==> caps[k].pt == Some(t)
  {
  }

  // ---------------------------------------------------------------- what the worker is told

  /** The codec of the router that the producer's codec at `i` is to become. */
  ghost predicate Becomes(h: H264, ps: seq<Codec>, caps: seq<Codec>, i: nat, to: nat) {
    && i < |ps| && to < |caps|
    && if !IsRtx(ps[i]) then FirstFit(h, ps[i], caps, to)
       else exists a: nat, k: nat :: Retransmits(ps, ps[i], a) && !IsRtx(ps[a]) && FirstFit(h, ps[a], caps, k) && RtxOfType(caps, caps[k].pt, to)
  }

  lemma {:induction false} MatchRtxMeans(h: H264, ps: seq<Codec>, caps: seq<Codec>, m: Matching, n: nat)
    requires n <= |ps| && MatchRtx(ps, caps, m, n).Ok? && InRange(ps, caps, m)
    requires forall i :: 0 <= i < |ps| ==> MatchedAt(h, ps, caps, m, i)
    requires forall i :: i in m ==> !IsRtx(ps[i])
    requires forall j, a: nat :: 0 <= j < |ps| && IsRtx(ps[j]) && Retransmits(ps, ps[j], a) ==> !IsRtx(ps[a])
    ensures var m1 := MatchRtx(ps, caps, m, n).value;
      && InRange(ps, caps, m1) && (forall i :: i in m1 ==> Becomes(h, ps, caps, i, m1[i]))
      && (forall i :: 0 <= i < |ps| && (!IsRtx(ps[i]) || i < n) ==> i in m1)
  {
    hide IsRtx, Becomes, MatchRtx, MatchedAt, Retransmits;
    if n == 0 {
      MatchRtxStart(ps, caps, m);
      forall i | i in m ensures Becomes(h, ps, caps, i, m[i]) { MediaBecomes(h, ps, caps, m, i); }
      forall i | 0 <= i < |ps| && !IsRtx(ps[i]) ensures i in m { MediaThere(h, ps, caps, m, i); }
    } else {
      MatchRtxStep(ps, caps, m, n);
      MatchRtxMeans(h, ps, caps, m, n - 1);
      MatchRtxKeeps(h, ps, caps, m, n - 1);
      MatchRtxKeeps(h, ps, caps, m, n);
      var m0 := MatchRtx(ps, caps, m, n - 1).value;
      if IsRtx(ps[n - 1]) { RtxBecomes(h, ps, caps, m0, n - 1); }
    }
  }

  lemma MediaThere(h: H264, ps: seq<Codec>, caps: seq<Codec>, m: Matching, i: nat)
    requires i < |ps| && !IsRtx(ps[i]) && MatchedAt(h, ps, caps, m, i)
    ensures i in m
  {
  }

  lemma MatchRtxStart(ps: seq<Codec>, caps: seq<Codec>, m: Matching)
    ensures MatchRtx(ps, caps, m, 0) == Ok(m)
  {
  }

  lemma MatchRtxStep(ps: seq<Codec>, caps: seq<Codec>, m: Matching, n: nat)
    requires 0 < n <= |ps| && MatchRtx(ps, caps, m, n).Ok?
    ensures MatchRtx(ps, caps, m, n - 1).Ok?
    ensures var m0 := MatchRtx(ps, caps, m, n - 1).value; var m1 := MatchRtx(ps, caps, m, n).value;
      if IsRtx(ps[n - 1]) then
        var a := Associated(ps, ps[n - 1]);
        && a < |ps| && a in m0 && m0[a] < |caps| && RtxFor(caps, caps[m0[a]].pt) < |caps|
        && m1 == m0[n - 1 := RtxFor(caps, caps[m0[a]].pt)]
      else m1 == m0
  {
    hide IsRtx;
  }

  lemma MediaBecomes(h: H264, ps: seq<Codec>, caps: seq<Codec>, m: Matching, i: nat)
    requires i in m && InRange(ps, caps, m) && !IsRtx(ps[i]) && MatchedAt(h, ps, caps, m, i)
    ensures Becomes(h, ps, caps, i, m[i])
  {
    hide Fits;
    FindIsFirst(h, ps[i], caps);
  }

  lemma RtxBecomes(h: H264, ps: seq<Codec>, caps: seq<Codec>, m: Matching, j: nat)
    requires j < |ps| && IsRtx(ps[j]) && InRange(ps, caps, m) && forall i :: 0 <= i < |ps| ==> MatchedAt(h, ps, caps, m, i)
    requires forall a: nat :: Retransmits(ps, ps[j], a) ==> !IsRtx(ps[a])
    requires var a := Associated(ps, ps[j]); a < |ps| && a in m && m[a] < |caps| && RtxFor(caps, caps[m[a]].pt) < |caps|
    ensures Becomes(h, ps, caps, j, RtxFor(caps, caps[m[Associated(ps, ps[j])]].pt))
  {
    hide Fits, IsRtx;
    var a := Associated(ps, ps[j]);
    assert Retransmits(ps, ps[j], a);
    assert MatchedAt(h, ps, caps, m, a);
    FindIsFirst(h, ps[a], caps);
    RtxForIs(caps, caps[m[a]].pt);
  }

  /** The worker is told, for every codec of the producer and once for each, which of the producer's
      types becomes which of the router's. */
  lemma MappingFields(h: H264, ps: seq<Codec>, caps: seq<Codec>, order: seq<nat>)
    requires Typed(ps) && Typed(caps) && Match(h, ps, caps).Ok? && Walks(order, Match(h, ps, caps).value)
    requires forall j, a: nat :: 0 <= j < |ps| && IsRtx(ps[j]) && Retransmits(ps, ps[j], a) ==> !IsRtx(ps[a])
    ensures var l := Mappings(ps, caps, Match(h, ps, caps).value, order);
      && l.Ok? && |l.value| == |order| && (forall i :: 0 <= i < |ps| ==> i in order)
      && forall n :: 0 <= n < |order| ==> Told(h, ps, caps, order[n], l.value[n])
  {
    hide MatchMedia, MatchRtx, Mappings, IsRtx, Becomes;
    MatchMediaIs(h, ps, caps, |ps|);
    var m := MatchMedia(h, ps, caps, |ps|).value;
    OnlyMedia(h, ps, caps, |ps|);
    MatchRtxMeans(h, ps, caps, m, |ps|);
    var m1 := Match(h, ps, caps).value;
    MappingsIs(ps, caps, m1, order);
    TypesThere(ps, caps);
    forall n | 0 <= n < |order| ensures Told(h, ps, caps, order[n], Mappings(ps, caps, m1, order).value[n]) {
      assert order[n] in order;
      assert Becomes(h, ps, caps, order[n], m1[order[n]]);
    }
  }

  ghost predicate Told(h: H264, ps: seq<Codec>, caps: seq<Codec>, i: nat, x: Mapping) {
    exists k: nat :: Becomes(h, ps, caps, i, k) && k < |caps| && i < |ps| && ps[i].pt == Some(x.from) && caps[k].pt == Some(x.to)
  }

  lemma TypesThere(ps: seq<Codec>, caps: seq<Codec>)
    requires Typed(ps) && Typed(caps)
    ensures (forall i :: 0 <= i < |ps| ==> ps[i].pt.Some?) && forall k :: 0 <= k < |caps| ==> caps[k].pt.Some?
  {
  }

  lemma {:induction false} OnlyMedia(h: H264, ps: seq<Codec>, caps: seq<Codec>, n: nat)
    requires n <= |ps| && MatchMedia(h, ps, caps, n).Ok?
    ensures forall i :: i in MatchMedia(h, ps, caps, n).value ==> i < n && !IsRtx(ps[i])
  {
    hide IsRtx;
    if n > 0 { OnlyMedia(h, ps, caps, n - 1); }
  }
}
