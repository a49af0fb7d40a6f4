/**
 What a producer offers for consumption (src/rct/rct_producer.c): its media codecs are matched
 with the router's, its retransmission codecs with theirs, the worker is told which payload
 type becomes which, and from that the consumable parameters are put together.
 */
module RtpProducer {
  import opened RtpCodecs

  datatype Error = UnsupportedCodec | NoAssociatedCodec | Assertion | InvalidParameters

  datatype Result<+T> = Ok(value: T) | Err(error: Error)

  /** From positions in the producer's codecs to positions in the router's. */
  type Matching = map<nat, nat>

  datatype Mapping = Mapping(from: int, to: int)

  // ---------------------------------------------------------------- matching

  /** rct_codec_find_matched */
  function FindMatched(h: H264, c: Codec, caps: seq<Codec>): (k: nat)
    ensures k <= |caps| && (k < |caps| ==> Same(h, c, caps[k]))
    ensures forall j :: 0 <= j < k ==> !Same(h, c, caps[j])
  {
    FirstWhere(caps, (x: Codec) => Same(h, c, x))
  }

  /** The first `n` codecs of the producer, media only. */
  function MatchMedia(h: H264, ps: seq<Codec>, caps: seq<Codec>, n: nat): Result<Matching>
    requires n <= |ps|
  {
    if n == 0 then Ok(map[])
    else match MatchMedia(h, ps, caps, n - 1)
      case Err(e) => Err(e)
      case Ok(m) =>
        if IsRtx(ps[n - 1]) then Ok(m)
        else
          var k := FindMatched(h, ps[n - 1], caps);
          if k == |caps| then Err(UnsupportedCodec) else Ok(m[n - 1 := k])
  }

  /** The position of the codec with the type that `c` retransmits. */
  function Associated(ps: seq<Codec>, c: Codec): (a: nat)
    ensures a <= |ps|
  {
    FirstWhere(ps, (p: Codec) => c.apt.Some? && p.pt == c.apt)
  }

  /** The position of the retransmission codec for type `t`. */
  function RtxFor(caps: seq<Codec>, t: Option<int>): (r: nat)
    ensures r <= |caps| && (r < |caps| ==> IsRtx(caps[r]) && t.Some? && caps[r].apt == t)
    ensures forall j :: 0 <= j < r ==> !(IsRtx(caps[j]) && t.Some? && caps[j].apt == t)
  {
    FirstWhere(caps, (x: Codec) => IsRtx(x) && t.Some? && x.apt == t)
  }

  /** The first `n` codecs of the producer, retransmission only, on top of `m`. */
  function MatchRtx(ps: seq<Codec>, caps: seq<Codec>, m: Matching, n: nat): Result<Matching>
    requires n <= |ps|
  {
    if n == 0 then Ok(m)
    else match MatchRtx(ps, caps, m, n - 1)
      case Err(e) => Err(e)
      case Ok(m1) =>
        if !IsRtx(ps[n - 1]) then Ok(m1)
        else
          var a := Associated(ps, ps[n - 1]);
          if a == |ps| then Err(NoAssociatedCodec)
          else if a !in m1 || m1[a] >= |caps| then Err(Assertion)
          else
            var r := RtxFor(caps, caps[m1[a]].pt);
            if r == |caps| then Err(NoAssociatedCodec) else Ok(m1[n - 1 := r])
  }

  function Match(h: H264, ps: seq<Codec>, caps: seq<Codec>): Result<Matching> {
    match MatchMedia(h, ps, caps, |ps|)
    case Err(e) => Err(e)
    case Ok(m) => MatchRtx(ps, caps, m, |ps|)
  }

  // ---------------------------------------------------------------- mapping

  /** The list sent to the worker, in the order in which the hash map is walked. */
  function Mappings(ps: seq<Codec>, caps: seq<Codec>, m: Matching, order: seq<nat>): Result<seq<Mapping>> {
    if order == [] then Ok([])
    else match Mappings(ps, caps, m, order[..|order| - 1])
      case Err(e) => Err(e)
      case Ok(l) =>
        var i := order[|order| - 1];
        if i >= |ps| || i !in m || m[i] >= |caps| || ps[i].pt.None? || caps[m[i]].pt.None? then Err(InvalidParameters)
        else Ok(l + [Mapping(ps[i].pt.value, caps[m[i]].pt.value)])
  }

  ghost predicate Walks(order: seq<nat>, m: Matching) {
    && (forall i :: i in order <==> i in m)
    && (forall i, j :: 0 <= i < j < |order| ==> order[i] != order[j])
  }

  // ---------------------------------------------------------------- consumable codecs

  /** A field read from each element of a list; elements that do not qualify are passed over. */
  datatype Field = Passed | Missing | Value(v: int)

  function FieldOf(o: Option<int>): Field {
    if o.Some? then Value(o.value) else Missing
  }

  /** The first element whose field is `t`; a missing field is an error. */
  function Scan(l: seq<Field>, t: int): Result<nat> {
    if l == [] then Ok(0)
    else if l[0] == Missing then Err(InvalidParameters)
    else if l[0] == Value(t) then Ok(0)
    else match Scan(l[1..], t)
      case Err(e) => Err(e)
      case Ok(i) => Ok(i + 1)
  }

  function Sources(l: seq<Mapping>): (r: seq<Field>)
    ensures |r| == |l| && forall i :: 0 <= i < |r| ==> r[i] == Value(l[i].from)
  {
    if l == [] then [] else [Value(l[0].from)] + Sources(l[1..])
  }

  function Types(caps: seq<Codec>): (r: seq<Field>)
    ensures |r| == |caps| && forall i :: 0 <= i < |r| ==> r[i] == FieldOf(caps[i].pt)
  {
    if caps == [] then [] else [FieldOf(caps[0].pt)] + Types(caps[1..])
  }

  function Apts(caps: seq<Codec>): (r: seq<Field>)
    ensures |r| == |caps| && forall i :: 0 <= i < |r| ==> r[i] == if IsRtx(caps[i]) then FieldOf(caps[i].apt) else Passed
  {
    if caps == [] then [] else [if IsRtx(caps[0]) then FieldOf(caps[0].apt) else Passed] + Apts(caps[1..])
  }

  /** The router's codec under its own type, with the parameters of the producer's. */
  function Media(cap: Codec, pc: Codec): Codec {
    Codec(None, cap.mime, cap.clock, cap.channels, cap.pt, pc.apt, pc.mode, pc.profile, pc.extra, cap.feedback)
  }

  function Retransmission(cap: Codec): Codec {
    Codec(None, cap.mime, cap.clock, None, cap.pt, cap.apt, cap.mode, cap.profile, cap.extra, cap.feedback)
  }

  function ConsumableOf(caps: seq<Codec>, l: seq<Mapping>, pc: Codec): Result<seq<Codec>> {
    if pc.pt.None? then Err(InvalidParameters)
    else match Scan(Sources(l), pc.pt.value)
      case Err(e) => Err(e)
      case Ok(i) =>
        if i >= |l| then Err(Assertion)
        else match Scan(Types(caps), l[i].to)
          case Err(e) => Err(e)
          case Ok(k) =>
            if k >= |caps| then Err(Assertion)
            else match Scan(Apts(caps), Or(caps[k].pt, 0))
              case Err(e) => Err(e)
              case Ok(r) =>
                Ok([Media(caps[k], pc)] + if r >= |caps| then [] else [Retransmission(caps[r])])
  }

  /** The first `n` codecs of the producer; a matched codec carries what the match wrote. */
  function Consumable(h: H264, ps: seq<Codec>, caps: seq<Codec>, m: Matching, l: seq<Mapping>, n: nat): Result<seq<Codec>>
    requires n <= |ps|
  {
    if n == 0 then Ok([])
    else match Consumable(h, ps, caps, m, l, n - 1)
      case Err(e) => Err(e)
      case Ok(r) =>
        var c := ps[n - 1];
        if IsRtx(c) then Ok(r)
        else
          var pc := if n - 1 in m && m[n - 1] < |caps| then Answered(h, c, caps[m[n - 1]]) else c;
          match ConsumableOf(caps, l, pc)
          case Err(e) => Err(e)
          case Ok(more) => Ok(r + more)
  }

  /** _rct_transport_produce_input, as far as codecs go */
  function Produced(h: H264, ps: seq<Codec>, caps: seq<Codec>, order: seq<nat>): Result<seq<Codec>> {
    match Match(h, ps, caps)
    case Err(e) => Err(e)
    case Ok(m) =>
      match Mappings(ps, caps, m, order)
      case Err(e) => Err(e)
      case Ok(l) => Consumable(h, ps, caps, m, l, |ps|)
  }

  // ---------------------------------------------------------------- what is meant

  /** Without payload types in between: each media codec under the router's codec that it was
      matched with, followed by that codec's retransmission codec. */
  function Intended(h: H264, ps: seq<Codec>, caps: seq<Codec>, n: nat): seq<Codec>
    requires n <= |ps|
  {
    if n == 0 then []
    else
      var c := ps[n - 1];
      var k := FindMatched(h, c, caps);
      Intended(h, ps, caps, n - 1) +
      if IsRtx(c) || k == |caps| then [] else [Media(caps[k], Answered(h, c, caps[k]))] + RtxOf(caps, caps[k])
  }

  function RtxOf(caps: seq<Codec>, cap: Codec): seq<Codec> {
    var r := RtxFor(caps, cap.pt);
    if r == |caps| then [] else [Retransmission(caps[r])]
  }

  ghost predicate Typed(l: seq<Codec>) {
    forall c :: c in l ==> c.pt.Some? && (IsRtx(c) ==> c.apt.Some?)
  }

  // ---------------------------------------------------------------- recovery

  lemma {:induction false} ScanIs(l: seq<Field>, t: int, i: nat)
    requires i < |l| && l[i] == Value(t)
    requires forall j :: 0 <= j < i ==> l[j] != Missing && l[j] != Value(t)
    ensures Scan(l, t) == Ok(i)
  {
    if i > 0 {
      assert l[0] != Missing;
      forall j | 0 <= j < i - 1 ensures l[1..][j] != Missing && l[1..][j] != Value(t) { assert l[1..][j] == l[j + 1]; }
      ScanIs(l[1..], t, i - 1);
    }
  }

  lemma {:induction false} ScanNone(l: seq<Field>, t: int)
    requires forall j :: 0 <= j < |l| ==> l[j] != Missing && l[j] != Value(t)
    ensures Scan(l, t) == Ok(|l|)
  {
    if l != [] {
      assert l[0] != Missing;
      forall j | 0 <= j < |l| - 1 ensures l[1..][j] != Missing && l[1..][j] != Value(t) { assert l[1..][j] == l[j + 1]; }
      ScanNone(l[1..], t);
    }
  }

  /** Media codecs keep their match, whatever happens to the retransmission codecs. */
  ghost predicate MatchedAt(h: H264, ps: seq<Codec>, caps: seq<Codec>, m: Matching, i: nat)
    requires i < |ps|
  {
    !IsRtx(ps[i]) ==> i in m && m[i] == FindMatched(h, ps[i], caps) < |caps|
  }

  ghost predicate InRange(ps: seq<Codec>, caps: seq<Codec>, m: Matching) {
    forall i :: i in m ==> i < |ps| && m[i] < |caps|
  }

  lemma {:induction false} MatchMediaIs(h: H264, ps: seq<Codec>, caps: seq<Codec>, n: nat)
    requires n <= |ps| && MatchMedia(h, ps, caps, n).Ok?
    ensures var m := MatchMedia(h, ps, caps, n).value;
      InRange(ps, caps, m) && forall i :: 0 <= i < n ==> MatchedAt(h, ps, caps, m, i)
  {
    if n > 0 {
      MatchMediaIs(h, ps, caps, n - 1);
      var m0 := MatchMedia(h, ps, caps, n - 1).value;
      var m := MatchMedia(h, ps, caps, n).value;
      forall i | 0 <= i < n ensures MatchedAt(h, ps, caps, m, i) {
        if i < n - 1 { assert MatchedAt(h, ps, caps, m0, i); }
      }
    }
  }

  lemma {:induction false} MatchRtxKeeps(h: H264, ps: seq<Codec>, caps: seq<Codec>, m: Matching, n: nat)
    requires n <= |ps| && MatchRtx(ps, caps, m, n).Ok? && InRange(ps, caps, m)
    requires forall i :: 0 <= i < |ps| ==> MatchedAt(h, ps, caps, m, i)
    ensures var m1 := MatchRtx(ps, caps, m, n).value;
      InRange(ps, caps, m1) && forall i :: 0 <= i < |ps| ==> MatchedAt(h, ps, caps, m1, i)
  {
    if n > 0 {
      MatchRtxKeeps(h, ps, caps, m, n - 1);
      var m0 := MatchRtx(ps, caps, m, n - 1).value;
      var m1 := MatchRtx(ps, caps, m, n).value;
      forall i | 0 <= i < |ps| ensures MatchedAt(h, ps, caps, m1, i) { assert MatchedAt(h, ps, caps, m0, i); }
    }
  }

  lemma MatchIs(h: H264, ps: seq<Codec>, caps: seq<Codec>)
    requires Match(h, ps, caps).Ok?
    ensures var m := Match(h, ps, caps).value;
      InRange(ps, caps, m) && forall i :: 0 <= i < |ps| ==> MatchedAt(h, ps, caps, m, i)
  {
    MatchMediaIs(h, ps, caps, |ps|);
    MatchRtxKeeps(h, ps, caps, MatchMedia(h, ps, caps, |ps|).value, |ps|);
  }

  lemma {:induction false} MappingsIs(ps: seq<Codec>, caps: seq<Codec>, m: Matching, order: seq<nat>)
    requires InRange(ps, caps, m) && Typed(ps) && Typed(caps) && forall i :: i in order ==> i in m
    ensures var r := Mappings(ps, caps, m, order);
      r.Ok? && MappedBy(ps, caps, m, order, r.value)
  {
    if order != [] {
      var n := |order| - 1;
      MappingsIs(ps, caps, m, order[..n]);
      assert order[n] in order;
      assert ps[order[n]] in ps && caps[m[order[n]]] in caps;
    }
  }

  lemma ScanTypes(caps: seq<Codec>, k: nat)
    requires Typed(caps) && Distinct(caps) && k < |caps|
    ensures Scan(Types(caps), Or(caps[k].pt, 0)) == Ok(k)
  {
    forall j | 0 <= j < k ensures Types(caps)[j] != Missing && Types(caps)[j] != Value(Or(caps[k].pt, 0)) {
      assert caps[j] in caps && caps[k] in caps;
      assert caps[j].pt != caps[k].pt;
    }
    assert caps[k] in caps;
    ScanIs(Types(caps), Or(caps[k].pt, 0), k);
  }

  lemma ScanApts(caps: seq<Codec>, t: int)
    requires Typed(caps)
    ensures Scan(Apts(caps), t) == Ok(RtxFor(caps, Some(t)))
  {
    hide Scan;
    var r := RtxFor(caps, Some(t));
    AptsAt(caps, t);
    if r < |caps| { ScanIs(Apts(caps), t, r); } else { ScanNone(Apts(caps), t); }
  }

  lemma AptsAt(caps: seq<Codec>, t: int)
    requires Typed(caps)
    ensures forall j :: 0 <= j < |caps| ==> Apts(caps)[j] != Missing
    ensures forall j :: 0 <= j < RtxFor(caps, Some(t)) ==> Apts(caps)[j] != Value(t)
  {
    hide RtxFor;
    forall j | 0 <= j < |caps| ensures Apts(caps)[j] != Missing { assert caps[j] in caps; }
  }

  ghost predicate MappedBy(ps: seq<Codec>, caps: seq<Codec>, m: Matching, order: seq<nat>, l: seq<Mapping>)
  {
    |l| == |order| && forall q :: 0 <= q < |order| ==> PairAt(ps, caps, m, order[q], l[q])
  }

  predicate PairAt(ps: seq<Codec>, caps: seq<Codec>, m: Matching, i: nat, x: Mapping) {
    i in m && i < |ps| && m[i] < |caps| && x == Mapping(Or(ps[i].pt, 0), Or(caps[m[i]].pt, 0))
  }

  lemma ScanSources(ps: seq<Codec>, caps: seq<Codec>, m: Matching, order: seq<nat>, l: seq<Mapping>, i: nat) returns (q: nat)
    requires InRange(ps, caps, m) && Walks(order, m) && MappedBy(ps, caps, m, order, l)
    requires Typed(ps) && Distinct(ps) && i in m
    ensures q < |order| && order[q] == i && Scan(Sources(l), Or(ps[i].pt, 0)) == Ok(q)
  {
    assert i in order;
    q :| 0 <= q < |order| && order[q] == i;
    forall j | 0 <= j < q ensures Sources(l)[j] != Missing && Sources(l)[j] != Value(Or(ps[i].pt, 0)) {
      var o := order[j];
      assert o in order && o != i;
      assert ps[o] in ps && ps[i] in ps;
      assert ps[o].pt != ps[i].pt by { if o < i { assert ps[o].pt != ps[i].pt; } else { assert ps[i].pt != ps[o].pt; } }
    }
    ScanIs(Sources(l), Or(ps[i].pt, 0), q);
  }

  /** Looking a media codec up by its payload type, then by the mapped type, then by the
      router's type leads back to the codec that it was matched with. */
  lemma Recovered(ps: seq<Codec>, caps: seq<Codec>, m: Matching, order: seq<nat>, l: seq<Mapping>, i: nat, pc: Codec)
    requires InRange(ps, caps, m) && Walks(order, m) && MappedBy(ps, caps, m, order, l)
    requires Typed(ps) && Typed(caps) && Distinct(ps) && Distinct(caps) && i in m && pc.pt == ps[i].pt
    ensures ConsumableOf(caps, l, pc) == Ok([Media(caps[m[i]], pc)] + RtxOf(caps, caps[m[i]]))
  {
    hide Scan, Sources, Types, Apts, RtxFor, Distinct;
    var k := m[i];
    assert ps[i] in ps && caps[k] in caps;
    var q := ScanSources(ps, caps, m, order, l, i);
    assert PairAt(ps, caps, m, i, l[q]);
    ScanTypes(caps, k);
    ScanApts(caps, Or(caps[k].pt, 0));
  }

  lemma {:induction false} ConsumableIs(
      h: H264, ps: seq<Codec>, caps: seq<Codec>, m: Matching, order: seq<nat>, l: seq<Mapping>, n: nat)
    requires n <= |ps| && InRange(ps, caps, m) && Walks(order, m) && MappedBy(ps, caps, m, order, l)
    requires Typed(ps) && Typed(caps) && Distinct(ps) && Distinct(caps)
    requires forall i :: 0 <= i < |ps| ==> MatchedAt(h, ps, caps, m, i)
    ensures Consumable(h, ps, caps, m, l, n) == Ok(Intended(h, ps, caps, n))
  {
    hide ConsumableOf, RtxOf, FindMatched, Distinct, Typed, InRange, Walks, MappedBy;
    if n > 0 {
      ConsumableIs(h, ps, caps, m, order, l, n - 1);
      var c := ps[n - 1];
      assert MatchedAt(h, ps, caps, m, n - 1);
      if !IsRtx(c) {
        Recovered(ps, caps, m, order, l, n - 1, Answered(h, c, caps[m[n - 1]]));
      } else {
        assert Intended(h, ps, caps, n) == Intended(h, ps, caps, n - 1) + [];
        assert Intended(h, ps, caps, n - 1) + [] == Intended(h, ps, caps, n - 1);
      }
    }
  }

  /** With distinct payload types on both sides, the result does not depend on the order in which
      the hash map is walked, every media codec comes back as the codec it was matched with, and
      the failures of the last loop cannot happen: the only failures are unmatched codecs. */
  lemma PayloadTypesRecovered(h: H264, ps: seq<Codec>, caps: seq<Codec>, order: seq<nat>)
    requires Typed(ps) && Typed(caps) && Distinct(ps) && Distinct(caps)
    requires Match(h, ps, caps).Ok? ==> Walks(order, Match(h, ps, caps).value)
    ensures Produced(h, ps, caps, order) ==
      match Match(h, ps, caps) case Err(e) => Err(e) case Ok(m) => Ok(Intended(h, ps, caps, |ps|))
  {
    hide Match, Consumable, Intended, Mappings, MatchedAt;
    if Match(h, ps, caps).Ok? {
      var m := Match(h, ps, caps).value;
      MatchIs(h, ps, caps);
      MappingsIs(ps, caps, m, order);
      ConsumableIs(h, ps, caps, m, order, Mappings(ps, caps, m, order).value, |ps|);
    }
  }

  // ---------------------------------------------------------------- closure under apt

  /** A retransmission codec stands right behind a media codec and names its type. */
  ghost predicate Paired(l: seq<Codec>) {
    forall j :: 0 <= j < |l| && IsRtx(l[j]) ==> j > 0 && !IsRtx(l[j - 1]) && l[j].apt.Some? && l[j].apt == l[j - 1].pt
  }

  lemma PairedAppend(a: seq<Codec>, b: seq<Codec>)
    requires Paired(a) && Paired(b)
    ensures Paired(a + b)
  {
    var l := a + b;
    forall j | 0 <= j < |l| && IsRtx(l[j])
      ensures j > 0 && !IsRtx(l[j - 1]) && l[j].apt.Some? && l[j].apt == l[j - 1].pt
    {
      if j < |a| {
        assert l[j] == a[j] && l[j - 1] == a[j - 1];
      } else {
        assert l[j] == b[j - |a|];
        assert j - |a| > 0 && l[j - 1] == b[j - |a| - 1];
      }
    }
  }

  /** What one codec of the producer contributes. */
  function Part(h: H264, c: Codec, caps: seq<Codec>): seq<Codec> {
    var k := FindMatched(h, c, caps);
    if IsRtx(c) || k == |caps| then [] else [Media(caps[k], Answered(h, c, caps[k]))] + RtxOf(caps, caps[k])
  }

  lemma IntendedStep(h: H264, ps: seq<Codec>, caps: seq<Codec>, n: nat)
    requires 0 < n <= |ps|
    ensures Intended(h, ps, caps, n) == Intended(h, ps, caps, n - 1) + Part(h, ps[n - 1], caps)
  {
    hide FindMatched, RtxOf;
  }

  lemma PartPaired(h: H264, c: Codec, caps: seq<Codec>)
    ensures Paired(Part(h, c, caps))
  {
    hide FindMatched;
    var k := FindMatched(h, c, caps);
    if !IsRtx(c) && k < |caps| { SameIsRtx(h, c, caps[k]); }
  }

  lemma {:induction false} IntendedPaired(h: H264, ps: seq<Codec>, caps: seq<Codec>, n: nat)
    requires n <= |ps|
    ensures Paired(Intended(h, ps, caps, n))
  {
    hide Intended, Part, Paired;
    if n > 0 {
      IntendedPaired(h, ps, caps, n - 1);
      IntendedStep(h, ps, caps, n);
      PartPaired(h, ps[n - 1], caps);
      PairedAppend(Intended(h, ps, caps, n - 1), Part(h, ps[n - 1], caps));
    } else {
      NothingPaired(h, ps, caps);
    }
  }

  lemma NothingPaired(h: H264, ps: seq<Codec>, caps: seq<Codec>)
    ensures Paired(Intended(h, ps, caps, 0))
  {
  }

  /** Where an element of the result comes from. */
  ghost predicate MediaFrom(h: H264, ps: seq<Codec>, caps: seq<Codec>, c: Codec, i: nat) {
    i < |ps| && !IsRtx(ps[i]) && FindMatched(h, ps[i], caps) < |caps|
    && c == Media(caps[FindMatched(h, ps[i], caps)], Answered(h, ps[i], caps[FindMatched(h, ps[i], caps)]))
  }

  ghost predicate RtxFrom(caps: seq<Codec>, c: Codec) {
    exists r :: 0 <= r < |caps| && IsRtx(caps[r]) && c == Retransmission(caps[r])
  }

  /** No two media codecs of the producer are matched with the same codec of the router. */
  ghost predicate OneToOne(h: H264, ps: seq<Codec>, caps: seq<Codec>) {
    forall i, j :: 0 <= i < j < |ps| && !IsRtx(ps[i]) && !IsRtx(ps[j]) ==>
      FindMatched(h, ps[i], caps) != FindMatched(h, ps[j], caps)
  }

  lemma {:induction false} IntendedFrom(h: H264, ps: seq<Codec>, caps: seq<Codec>, n: nat, c: Codec)
    requires n <= |ps| && c in Intended(h, ps, caps, n)
    ensures IsRtx(c) ==> RtxFrom(caps, c)
    ensures !IsRtx(c) ==> exists i :: 0 <= i < n && MediaFrom(h, ps, caps, c, i)
  {
    hide Intended, Part;
    IntendedNone(h, ps, caps);
    if n > 0 {
      IntendedStep(h, ps, caps, n);
      if c in Intended(h, ps, caps, n - 1) {
        IntendedFrom(h, ps, caps, n - 1, c);
      } else {
        PartFrom(h, ps, caps, n - 1, c);
      }
    }
  }

  lemma IntendedNone(h: H264, ps: seq<Codec>, caps: seq<Codec>)
    ensures Intended(h, ps, caps, 0) == []
  {
  }

  lemma PartFrom(h: H264, ps: seq<Codec>, caps: seq<Codec>, i: nat, c: Codec)
    requires i < |ps| && c in Part(h, ps[i], caps)
    ensures IsRtx(c) ==> RtxFrom(caps, c)
    ensures !IsRtx(c) ==> MediaFrom(h, ps, caps, c, i)
  {
    hide FindMatched, RtxFor;
    var p := ps[i];
    var k := FindMatched(h, p, caps);
    SameIsRtx(h, p, caps[k]);
    var r := RtxFor(caps, caps[k].pt);
    if c != Media(caps[k], Answered(h, p, caps[k])) {
      assert c == Retransmission(caps[r]);
    }
  }

  /** Types of the consumable list: media codecs differ from each other, and none shares its
      type with a retransmission codec. */
  ghost predicate Separate(l: seq<Codec>) {
    && (forall i, j :: 0 <= i < j < |l| && !IsRtx(l[i]) && !IsRtx(l[j]) ==> l[i].pt != l[j].pt)
    && MediaApart(l)
  }

  ghost predicate MediaApart(l: seq<Codec>) {
    forall i, j :: 0 <= i < |l| && 0 <= j < |l| && !IsRtx(l[i]) && IsRtx(l[j]) ==> l[i].pt != l[j].pt
  }

  lemma IntendedApart(h: H264, ps: seq<Codec>, caps: seq<Codec>, n: nat)
    requires n <= |ps| && Distinct(caps)
    ensures MediaApart(Intended(h, ps, caps, n))
  {
    var l := Intended(h, ps, caps, n);
    forall i, j | 0 <= i < |l| && 0 <= j < |l| && !IsRtx(l[i]) && IsRtx(l[j]) ensures l[i].pt != l[j].pt {
      IntendedFrom(h, ps, caps, n, l[i]);
      IntendedFrom(h, ps, caps, n, l[j]);
      var p :| 0 <= p < n && MediaFrom(h, ps, caps, l[i], p);
      var k := FindMatched(h, ps[p], caps);
      SameIsRtx(h, ps[p], caps[k]);
      var r :| 0 <= r < |caps| && IsRtx(caps[r]) && l[j] == Retransmission(caps[r]);
      assert k != r;
    }
  }

  lemma {:induction false} IntendedSeparate(h: H264, ps: seq<Codec>, caps: seq<Codec>, n: nat)
    requires n <= |ps| && Distinct(caps) && OneToOne(h, ps, caps)
    ensures Separate(Intended(h, ps, caps, n))
  {
    hide Intended, Part, MediaApart, Distinct, OneToOne;
    IntendedApart(h, ps, caps, n);
    IntendedNone(h, ps, caps);
    if n > 0 {
      IntendedSeparate(h, ps, caps, n - 1);
      IntendedStep(h, ps, caps, n);
      var a, b := Intended(h, ps, caps, n - 1), Part(h, ps[n - 1], caps);
      var l := a + b;
      forall i, j | 0 <= i < j < |l| && !IsRtx(l[i]) && !IsRtx(l[j]) ensures l[i].pt != l[j].pt {
        if j < |a| {
          assert l[i] == a[i] && l[j] == a[j];
        } else {
          assert l[j] == b[j - |a|];
          MediaOfPart(h, ps[n - 1], caps, j - |a|);
          assert l[i] == a[i];
          NewMediaDiffers(h, ps, caps, n, a[i], b[0]);
        }
      }
    }
  }

  /** Only the first codec of a contribution is a media codec. */
  lemma MediaOfPart(h: H264, c: Codec, caps: seq<Codec>, j: nat)
    requires j < |Part(h, c, caps)| && !IsRtx(Part(h, c, caps)[j])
    ensures j == 0
  {
    hide FindMatched;
  }

  lemma NewMediaDiffers(h: H264, ps: seq<Codec>, caps: seq<Codec>, n: nat, x: Codec, y: Codec)
    requires 0 < n <= |ps| && Distinct(caps) && OneToOne(h, ps, caps) && !IsRtx(x) && !IsRtx(y)
    requires x in Intended(h, ps, caps, n - 1) && y in Part(h, ps[n - 1], caps)
    ensures x.pt != y.pt
  {
    hide Intended, Part, FindMatched;
    IntendedFrom(h, ps, caps, n - 1, x);
    PartFrom(h, ps, caps, n - 1, y);
    var p :| 0 <= p < n - 1 && MediaFrom(h, ps, caps, x, p);
    var k, q := FindMatched(h, ps[p], caps), FindMatched(h, ps[n - 1], caps);
    assert k != q;
    assert x.pt == caps[k].pt && y.pt == caps[q].pt;
    if k < q { assert caps[k].pt != caps[q].pt; } else { assert caps[q].pt != caps[k].pt; }
  }

  /** The media codec `i` stands where the contribution of the codecs before it ends. */
  lemma {:induction false} IntendedAt(h: H264, ps: seq<Codec>, caps: seq<Codec>, i: nat, n: nat)
    requires i < n <= |ps| && !IsRtx(ps[i]) && FindMatched(h, ps[i], caps) < |caps|
    ensures var at := |Intended(h, ps, caps, i)|; var l := Intended(h, ps, caps, n);
      at < |l| && MediaFrom(h, ps, caps, l[at], i)
    decreases n
  {
    hide RtxOf, FindMatched;
    var at := |Intended(h, ps, caps, i)|;
    var l := Intended(h, ps, caps, n);
    if i < n - 1 {
      IntendedAt(h, ps, caps, i, n - 1);
      assert l[at] == Intended(h, ps, caps, n - 1)[at];
    } else {
      var k := FindMatched(h, ps[i], caps);
      assert l[at] == Media(caps[k], Answered(h, ps[i], caps[k]));
    }
  }

  /** The consumable media codecs have distinct types exactly if no two media codecs of the
      producer were matched with the same codec of the router. */
  lemma SeparateExactly(h: H264, ps: seq<Codec>, caps: seq<Codec>)
    requires Distinct(caps) && Match(h, ps, caps).Ok?
    ensures Separate(Intended(h, ps, caps, |ps|)) <==> OneToOne(h, ps, caps)
  {
    hide Intended, Match, MatchedAt;
    var n := |ps|;
    var l := Intended(h, ps, caps, n);
    if OneToOne(h, ps, caps) {
      IntendedSeparate(h, ps, caps, n);
    } else {
      var i, j :| 0 <= i < j < n && !IsRtx(ps[i]) && !IsRtx(ps[j]) && FindMatched(h, ps[i], caps) == FindMatched(h, ps[j], caps);
      MatchIs(h, ps, caps);
      MatchedMedia(h, ps, caps, i);
      MatchedMedia(h, ps, caps, j);
      IntendedAt(h, ps, caps, i, n);
      IntendedAt(h, ps, caps, j, n);
      IntendedAt(h, ps, caps, i, j);
      var a, b := |Intended(h, ps, caps, i)|, |Intended(h, ps, caps, j)|;
      SameIsRtx(h, ps[i], caps[FindMatched(h, ps[i], caps)]);
      assert a < b && l[a].pt == l[b].pt && !IsRtx(l[a]) && !IsRtx(l[b]);
    }
  }

  lemma MatchedMedia(h: H264, ps: seq<Codec>, caps: seq<Codec>, i: nat)
    requires Match(h, ps, caps).Ok? && i < |ps| && !IsRtx(ps[i])
    ensures FindMatched(h, ps[i], caps) < |caps|
  {
    MatchIs(h, ps, caps);
    assert MatchedAt(h, ps, caps, Match(h, ps, caps).value, i);
  }

  // ---------------------------------------------------------------- in place

  method FindFirst(l: seq<Codec>, p: Codec -> bool) returns (i: nat)
    ensures i == FirstWhere(l, p)
  {
    i := 0;
    while i < |l| && !p(l[i])
      invariant 0 <= i <= |l| && FirstWhere(l, p) == i + FirstWhere(l[i..], p)
    {
      assert l[i..][1..] == l[i + 1..];
      i := i + 1;
    }
  }

  method FindField(l: seq<Field>, t: int) returns (r: Result<nat>)
    ensures r == Scan(l, t)
  {
    var i := 0;
    while i < |l|
      invariant 0 <= i <= |l|
      invariant Scan(l, t) == match Scan(l[i..], t) case Err(e) => Err(e) case Ok(j) => Ok(i + j)
    {
      assert l[i..][1..] == l[i + 1..];
      if l[i] == Missing { return Err(InvalidParameters); }
      if l[i] == Value(t) { return Ok(i); }
      i := i + 1;
    }
    r := Ok(i);
  }

  /** The two loops that fill the codec map. */
  method MatchCodecs(h: H264, ps: seq<Codec>, caps: seq<Codec>) returns (r: Result<Matching>)
    ensures r == Match(h, ps, caps)
  {
    hide Same, IsRtx, FirstWhere;
    var codec2cap: Matching := map[];
    for i := 0 to |ps|
      invariant MatchMedia(h, ps, caps, i) == Ok(codec2cap)
    {
      if !IsRtx(ps[i]) {
        var k := FindFirst(caps, (x: Codec) => Same(h, ps[i], x));
        if k == |caps| {
          MediaFails(h, ps, caps, i + 1, |ps|);
          return Err(UnsupportedCodec);
        }
        codec2cap := codec2cap[i := k];
      }
    }
    ghost var m := codec2cap;
    for i := 0 to |ps|
      invariant MatchRtx(ps, caps, m, i) == Ok(codec2cap)
    {
      if IsRtx(ps[i]) {
        var a := FindFirst(ps, (p: Codec) => ps[i].apt.Some? && p.pt == ps[i].apt);
        if a == |ps| {
          RtxFails(ps, caps, m, i + 1, |ps|);
          return Err(NoAssociatedCodec);
        }
        if a !in codec2cap || codec2cap[a] >= |caps| {
          RtxFails(ps, caps, m, i + 1, |ps|);
          return Err(Assertion);
        }
        var t := caps[codec2cap[a]].pt;
        var k := FindFirst(caps, (x: Codec) => IsRtx(x) && t.Some? && x.apt == t);
        if k == |caps| {
          RtxFails(ps, caps, m, i + 1, |ps|);
          return Err(NoAssociatedCodec);
        }
        codec2cap := codec2cap[i := k];
      }
    }
    r := Ok(codec2cap);
  }

  lemma {:induction false} MediaFails(h: H264, ps: seq<Codec>, caps: seq<Codec>, i: nat, n: nat)
    requires i <= n <= |ps| && MatchMedia(h, ps, caps, i).Err?
    ensures MatchMedia(h, ps, caps, n) == MatchMedia(h, ps, caps, i)
    decreases n
  {
    if i < n { MediaFails(h, ps, caps, i, n - 1); }
  }

  lemma {:induction false} RtxFails(ps: seq<Codec>, caps: seq<Codec>, m: Matching, i: nat, n: nat)
    requires i <= n <= |ps| && MatchRtx(ps, caps, m, i).Err?
    ensures MatchRtx(ps, caps, m, n) == MatchRtx(ps, caps, m, i)
    decreases n
  {
    if i < n { RtxFails(ps, caps, m, i, n - 1); }
  }

  lemma {:induction false} ConsumableFails(
      h: H264, ps: seq<Codec>, caps: seq<Codec>, m: Matching, l: seq<Mapping>, i: nat, n: nat)
    requires i <= n <= |ps| && Consumable(h, ps, caps, m, l, i).Err?
    ensures Consumable(h, ps, caps, m, l, n) == Consumable(h, ps, caps, m, l, i)
    decreases n
  {
    hide ConsumableOf;
    if i < n { ConsumableFails(h, ps, caps, m, l, i, n - 1); }
  }

  lemma {:induction false} MappingsFail(ps: seq<Codec>, caps: seq<Codec>, m: Matching, order: seq<nat>, i: nat)
    requires i <= |order| && Mappings(ps, caps, m, order[..i]).Err?
    ensures Mappings(ps, caps, m, order) == Mappings(ps, caps, m, order[..i])
    decreases |order|
  {
    if i < |order| {
      assert order[..|order| - 1][..i] == order[..i];
      MappingsFail(ps, caps, m, order[..|order| - 1], i);
    } else {
      assert order[..i] == order;
    }
  }

  /** _rct_transport_produce_input; `order` is the order in which the hash map is walked. */
  method ProduceInput(h: H264, ps: seq<Codec>, caps: seq<Codec>, order: seq<nat>) returns (r: Result<seq<Codec>>)
    ensures r == Produced(h, ps, caps, order)
  {
    hide Match, ConsumableOf, IsRtx;
    var matched := MatchCodecs(h, ps, caps);
    if matched.Err? { return Err(matched.error); }
    var codec2cap := matched.value;
    var mapping: seq<Mapping> := [];
    for q := 0 to |order|
      invariant Mappings(ps, caps, codec2cap, order[..q]) == Ok(mapping)
    {
      assert order[..q + 1][..q] == order[..q];
      var i := order[q];
      if i >= |ps| || i !in codec2cap || codec2cap[i] >= |caps| || ps[i].pt.None? || caps[codec2cap[i]].pt.None? {
        MappingsFail(ps, caps, codec2cap, order, q + 1);
        return Err(InvalidParameters);
      }
      mapping := mapping + [Mapping(ps[i].pt.value, caps[codec2cap[i]].pt.value)];
    }
    assert order[..|order|] == order;
    var codecs: seq<Codec> := [];
    for i := 0 to |ps|
      invariant Consumable(h, ps, caps, codec2cap, mapping, i) == Ok(codecs)
    {
      if !IsRtx(ps[i]) {
        var pc := ps[i];
        if i in codec2cap && codec2cap[i] < |caps| { pc := Answered(h, pc, caps[codec2cap[i]]); }
        var more := LookUp(caps, mapping, pc);
        if more.Err? {
          ConsumableFails(h, ps, caps, codec2cap, mapping, i + 1, |ps|);
          return Err(more.error);
        }
        codecs := codecs + more.value;
      }
    }
    r := Ok(codecs);
  }

  /** One round of the last loop. */
  method LookUp(caps: seq<Codec>, mapping: seq<Mapping>, pc: Codec) returns (r: Result<seq<Codec>>)
    ensures r == ConsumableOf(caps, mapping, pc)
  {
    if pc.pt.None? { return Err(InvalidParameters); }
    var i := FindField(Sources(mapping), pc.pt.value);
    if i.Err? { return Err(i.error); }
    if i.value >= |mapping| { return Err(Assertion); }
    var k := FindField(Types(caps), mapping[i.value].to);
    if k.Err? { return Err(k.error); }
    if k.value >= |caps| { return Err(Assertion); }
    var cap := caps[k.value];
    var x := FindField(Apts(caps), Or(cap.pt, 0));
    if x.Err? { return Err(x.error); }
    var codecs := [Media(cap, pc)];
    assert codecs + [] == codecs;
    if x.value < |caps| { codecs := codecs + [Retransmission(caps[x.value])]; }
    r := Ok(codecs);
  }
}
