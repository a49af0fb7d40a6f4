/**
 What a consumer receives (src/rct/rct_consumer.c): the consumable codecs that its capabilities
 match, without retransmission codecs whose media codec is gone; and the gate that answers
 beforehand whether consuming makes sense.
 */
module RtpConsumer {
  import opened RtpCodecs
  import opened RtpProducer

  // ---------------------------------------------------------------- the algorithm

  /** The first capability that matches `c`; here the capability is the first argument. */
  function Accepting(h: H264, caps: seq<Codec>, c: Codec): (k: nat)
    ensures k <= |caps| && (k < |caps| ==> Same(h, caps[k], c))
    ensures forall j :: 0 <= j < k ==> !Same(h, caps[j], c)
  {
    FirstWhere(caps, (x: Codec) => Same(h, x, c))
  }

  /** The matched codecs, with the feedback that the consumer supports. */
  function Matched(h: H264, caps: seq<Codec>, l: seq<Codec>): seq<Codec> {
    if l == [] then []
    else
      var k := Accepting(h, caps, l[|l| - 1]);
      Matched(h, caps, l[..|l| - 1]) +
      if k < |caps| then [l[|l| - 1].(feedback := caps[k].feedback)] else []
  }

  predicate HasType(l: seq<Codec>, t: Option<int>) {
    exists i :: 0 <= i < |l| && t.Some? && l[i].pt == t
  }

  /** Removes retransmission codecs without a codec to retransmit. `done` is what the walk has
      kept, `todo` what it has not reached; both are still in the list. */
  function Pruned(done: seq<Codec>, todo: seq<Codec>): seq<Codec>
    decreases |todo|
  {
    if todo == [] then done
    else if IsRtx(todo[0]) && !HasType(done + todo, todo[0].apt) then Pruned(done, todo[1..])
    else Pruned(done + [todo[0]], todo[1..])
  }

  /** _rct_consumer_produce_input, as far as codecs go */
  function Consumed(h: H264, caps: seq<Codec>, consumable: seq<Codec>): Result<seq<Codec>> {
    var l := Pruned([], Matched(h, caps, consumable));
    if l == [] || IsRtx(l[0]) then Err(InvalidParameters) else Ok(l)
  }

  /** _rct_producer_can_consume; here the consumable codec is the first argument. */
  function CanConsume(h: H264, caps: seq<Codec>, consumable: seq<Codec>): bool {
    exists i :: 0 <= i < |consumable| && Admits(h, caps, consumable[i])
  }

  predicate Admits(h: H264, caps: seq<Codec>, c: Codec) {
    var k := FindMatched(h, c, caps);
    k < |caps| && !IsRtx(caps[k])
  }

  // ---------------------------------------------------------------- what is meant

  /** A codec that some capability matches. */
  predicate Supported(h: H264, caps: seq<Codec>, c: Codec) {
    Accepting(h, caps, c) < |caps|
  }

  function Answer(h: H264, caps: seq<Codec>, c: Codec): Codec {
    if Supported(h, caps, c) then c.(feedback := caps[Accepting(h, caps, c)].feedback) else c
  }

  /** A retransmission codec is useful if a media codec with its type was matched. */
  ghost predicate Useful(l: seq<Codec>, c: Codec) {
    IsRtx(c) ==> exists i :: 0 <= i < |l| && !IsRtx(l[i]) && c.apt.Some? && l[i].pt == c.apt
  }

  /** Filtering at once, without walking and removing. */
  ghost function Kept(all: seq<Codec>, l: seq<Codec>): seq<Codec> {
    if l == [] then []
    else if Useful(all, l[0]) then [l[0]] + Kept(all, l[1..])
    else Kept(all, l[1..])
  }

  /** No retransmission codec refers to the type of a retransmission codec. */
  ghost predicate AptIsMedia(l: seq<Codec>) {
    forall i, j :: 0 <= i < |l| && 0 <= j < |l| && IsRtx(l[i]) && IsRtx(l[j]) && l[i].apt.Some? ==> l[j].pt != l[i].apt
  }

  // ---------------------------------------------------------------- pruning is filtering

  /** `l` is `done + todo` with useless retransmission codecs removed from the front part. */
  ghost predicate Walked(all: seq<Codec>, n: nat, done: seq<Codec>)
    requires n <= |all|
  {
    && (forall c :: c in done ==> c in all[..n])
    && (forall c :: c in all[..n] && !IsRtx(c) ==> c in done)
  }

  lemma HasTypeIffUseful(all: seq<Codec>, n: nat, done: seq<Codec>)
    requires n < |all| && Walked(all, n, done) && AptIsMedia(all) && IsRtx(all[n])
    ensures HasType(done + all[n..], all[n].apt) <==> Useful(all, all[n])
  {
    var l := done + all[n..];
    var t := all[n].apt;
    if HasType(l, t) {
      var i :| 0 <= i < |l| && t.Some? && l[i].pt == t;
      var c := l[i];
      assert c in all by {
        if i < |done| { assert c in done; } else { assert c == all[n..][i - |done|]; }
      }
      var k :| 0 <= k < |all| && all[k] == c;
      assert !IsRtx(all[k]);
    }
    if Useful(all, all[n]) {
      var k :| 0 <= k < |all| && !IsRtx(all[k]) && t.Some? && all[k].pt == t;
      assert all[k] in l by {
        if k < n { assert all[..n][k] == all[k]; assert all[k] in done; } else { assert all[n..][k - n] == all[k]; }
      }
      var i :| 0 <= i < |l| && l[i] == all[k];
    }
  }

  lemma {:induction false} PrunedIs(all: seq<Codec>, n: nat, done: seq<Codec>)
    requires n <= |all| && Walked(all, n, done) && AptIsMedia(all)
    ensures Pruned(done, all[n..]) == done + Kept(all, all[n..])
    decreases |all| - n
  {
    var todo := all[n..];
    if n < |all| {
      var c := all[n];
      assert todo[0] == c && todo[1..] == all[n + 1..];
      assert all[..n + 1] == all[..n] + [c];
      if IsRtx(c) { HasTypeIffUseful(all, n, done); }
      if Useful(all, c) {
        PrunedIs(all, n + 1, done + [c]);
        assert done + [c] + Kept(all, all[n + 1..]) == done + ([c] + Kept(all, all[n + 1..]));
      } else {
        PrunedIs(all, n + 1, done);
      }
    } else {
      assert done + [] == done;
    }
  }

  /** Walking and removing in place keeps exactly the media codecs and the useful
      retransmission codecs, in order. */
  lemma PruningFilters(l: seq<Codec>)
    requires AptIsMedia(l)
    ensures Pruned([], l) == Kept(l, l)
  {
    assert l[0..] == l;
    PrunedIs(l, 0, []);
    assert [] + Kept(l, l) == Kept(l, l);
  }

  lemma {:induction false} KeptHas(all: seq<Codec>, l: seq<Codec>, c: Codec)
    ensures c in Kept(all, l) <==> c in l && Useful(all, c)
  {
    if l != [] {
      assert l == [l[0]] + l[1..];
      KeptHas(all, l[1..], c);
    }
  }

  // ---------------------------------------------------------------- matching

  lemma {:induction false} MatchedHas(h: H264, caps: seq<Codec>, l: seq<Codec>, c: Codec)
    ensures c in Matched(h, caps, l) <==> exists i :: 0 <= i < |l| && Supported(h, caps, l[i]) && c == Answer(h, caps, l[i])
  {
    hide Accepting;
    if l != [] {
      var n := |l| - 1;
      MatchedHas(h, caps, l[..n], c);
      if exists i :: 0 <= i < n && Supported(h, caps, l[i]) && c == Answer(h, caps, l[i]) {
        var i :| 0 <= i < n && Supported(h, caps, l[i]) && c == Answer(h, caps, l[i]);
        assert l[..n][i] == l[i];
      }
    }
  }

  lemma AnswerKeeps(h: H264, caps: seq<Codec>, c: Codec)
    ensures var a := Answer(h, caps, c); a.pt == c.pt && a.apt == c.apt && (IsRtx(a) <==> IsRtx(c))
  {
  }

  lemma MatchedFrom(h: H264, caps: seq<Codec>, l: seq<Codec>, j: nat) returns (i: nat)
    requires j < |Matched(h, caps, l)|
    ensures i < |l| && Supported(h, caps, l[i]) && Matched(h, caps, l)[j] == Answer(h, caps, l[i])
  {
    MatchedHas(h, caps, l, Matched(h, caps, l)[j]);
    i :| 0 <= i < |l| && Supported(h, caps, l[i]) && Matched(h, caps, l)[j] == Answer(h, caps, l[i]);
    AnswerKeeps(h, caps, l[i]);
  }

  lemma MatchedAptIsMedia(h: H264, caps: seq<Codec>, l: seq<Codec>)
    requires AptIsMedia(l)
    ensures AptIsMedia(Matched(h, caps, l))
  {
    var m := Matched(h, caps, l);
    forall i, j | 0 <= i < |m| && 0 <= j < |m| && IsRtx(m[i]) && IsRtx(m[j]) && m[i].apt.Some? ensures m[j].pt != m[i].apt {
      var a := MatchedFrom(h, caps, l, i);
      var b := MatchedFrom(h, caps, l, j);
      AnswerKeeps(h, caps, l[a]);
      AnswerKeeps(h, caps, l[b]);
    }
  }

  /** In consumable parameters no codec retransmits a retransmission codec. */
  lemma PairedApart(l: seq<Codec>)
    requires Paired(l) && MediaApart(l)
    ensures AptIsMedia(l)
  {
    forall i, j | 0 <= i < |l| && 0 <= j < |l| && IsRtx(l[i]) && IsRtx(l[j]) && l[i].apt.Some? ensures l[j].pt != l[i].apt {
      assert !IsRtx(l[i - 1]) && l[i].apt == l[i - 1].pt;
    }
  }

  // ---------------------------------------------------------------- the result at once

  /** Some matched media codec has the type that `c` retransmits. */
  ghost predicate Wanted(h: H264, caps: seq<Codec>, l: seq<Codec>, c: Codec) {
    exists i :: 0 <= i < |l| && !IsRtx(l[i]) && Supported(h, caps, l[i]) && c.apt.Some? && l[i].pt == c.apt
  }

  ghost predicate Survives(h: H264, caps: seq<Codec>, l: seq<Codec>, j: nat)
    requires j < |l|
  {
    Supported(h, caps, l[j]) && (IsRtx(l[j]) ==> Wanted(h, caps, l, l[j]))
  }

  /** The survivors among the first `n` consumable codecs, in order. */
  ghost function Chosen(h: H264, caps: seq<Codec>, l: seq<Codec>, n: nat): seq<Codec>
    requires n <= |l|
  {
    if n == 0 then []
    else Chosen(h, caps, l, n - 1) + if Survives(h, caps, l, n - 1) then [Answer(h, caps, l[n - 1])] else []
  }

  lemma UsefulIffWanted(h: H264, caps: seq<Codec>, l: seq<Codec>, c: Codec)
    ensures Useful(Matched(h, caps, l), Answer(h, caps, c)) <==> (IsRtx(c) ==> Wanted(h, caps, l, c))
  {
    hide Supported, Answer;
    var m := Matched(h, caps, l);
    AnswerKeeps(h, caps, c);
    if IsRtx(c) {
      if Useful(m, Answer(h, caps, c)) {
        var j :| 0 <= j < |m| && !IsRtx(m[j]) && c.apt.Some? && m[j].pt == c.apt;
        var i := MatchedFrom(h, caps, l, j);
        AnswerKeeps(h, caps, l[i]);
      }
      if Wanted(h, caps, l, c) {
        var i :| 0 <= i < |l| && !IsRtx(l[i]) && Supported(h, caps, l[i]) && c.apt.Some? && l[i].pt == c.apt;
        AnswerKeeps(h, caps, l[i]);
        MatchedHas(h, caps, l, Answer(h, caps, l[i]));
        var j :| 0 <= j < |m| && m[j] == Answer(h, caps, l[i]);
      }
    }
  }

  lemma {:induction false} KeptAppend(all: seq<Codec>, a: seq<Codec>, b: seq<Codec>)
    ensures Kept(all, a + b) == Kept(all, a) + Kept(all, b)
  {
    if a == [] {
      assert a + b == b;
    } else {
      assert (a + b)[1..] == a[1..] + b;
      KeptAppend(all, a[1..], b);
    }
  }

  lemma KeptOne(all: seq<Codec>, c: Codec)
    ensures Kept(all, [c]) == if Useful(all, c) then [c] else []
    ensures Kept(all, []) == []
  {
    assert [c][1..] == [];
  }

  lemma {:induction false} KeptIsChosen(h: H264, caps: seq<Codec>, l: seq<Codec>, n: nat)
    requires n <= |l|
    ensures Kept(Matched(h, caps, l), Matched(h, caps, l[..n])) == Chosen(h, caps, l, n)
  {
    hide Useful, Wanted, Accepting, Kept;
    var all := Matched(h, caps, l);
    if n == 0 {
      KeptOne(all, Codec(None, None, None, None, None, None, None, None, map[], []));
    } else {
      var c := l[n - 1];
      var a := Answer(h, caps, c);
      KeptIsChosen(h, caps, l, n - 1);
      MatchedStep(h, caps, l, n);
      UsefulIffWanted(h, caps, l, c);
      KeptOne(all, a);
      KeptAppend(all, Matched(h, caps, l[..n - 1]), if Supported(h, caps, c) then [a] else []);
    }
  }

  lemma MatchedStep(h: H264, caps: seq<Codec>, l: seq<Codec>, n: nat)
    requires 0 < n <= |l|
    ensures Matched(h, caps, l[..n]) ==
      Matched(h, caps, l[..n - 1]) + if Supported(h, caps, l[n - 1]) then [Answer(h, caps, l[n - 1])] else []
  {
    assert l[..n][..n - 1] == l[..n - 1];
  }

  /** The consumer's codecs are the survivors of the consumable ones, in their order. */
  lemma ConsumedIsChosen(h: H264, caps: seq<Codec>, l: seq<Codec>)
    requires AptIsMedia(l)
    ensures Pruned([], Matched(h, caps, l)) == Chosen(h, caps, l, |l|)
  {
    MatchedAptIsMedia(h, caps, l);
    PruningFilters(Matched(h, caps, l));
    assert l[..|l|] == l;
    KeptIsChosen(h, caps, l, |l|);
  }

  /** The head of the survivors. */
  lemma {:induction false} ChosenHead(h: H264, caps: seq<Codec>, l: seq<Codec>, n: nat)
    requires n <= |l|
    ensures Chosen(h, caps, l, n) == [] <==> forall j :: 0 <= j < n ==> !Survives(h, caps, l, j)
    ensures Chosen(h, caps, l, n) != [] ==> exists f :: 0 <= f < n && HeadAt(h, caps, l, f) && Chosen(h, caps, l, n)[0] == Answer(h, caps, l[f])
  {
    hide Survives, Answer;
    if n > 0 {
      ChosenHead(h, caps, l, n - 1);
      if Chosen(h, caps, l, n - 1) == [] {
        if Survives(h, caps, l, n - 1) { assert HeadAt(h, caps, l, n - 1); }
      }
    }
  }

  ghost predicate HeadAt(h: H264, caps: seq<Codec>, l: seq<Codec>, f: nat)
    requires f < |l|
  {
    Survives(h, caps, l, f) && forall j :: 0 <= j < f ==> !Survives(h, caps, l, j)
  }

  // ---------------------------------------------------------------- gate and builder

  lemma AdmitsIs(h: H264, caps: seq<Codec>, c: Codec)
    requires Symmetric(h)
    ensures Admits(h, caps, c) <==> !IsRtx(c) && Supported(h, caps, c)
  {
    var k, a := FindMatched(h, c, caps), Accepting(h, caps, c);
    if k < |caps| {
      SameSymmetric(h, c, caps[k]);
      SameIsRtx(h, c, caps[k]);
      assert a <= k;
    }
    if a < |caps| {
      SameSymmetric(h, c, caps[a]);
      assert k <= a;
    }
  }

  /** No retransmission codec that would survive stands before the first matched media codec. */
  ghost predicate MediaLeads(h: H264, caps: seq<Codec>, l: seq<Codec>) {
    exists i :: 0 <= i < |l| && !IsRtx(l[i]) && Supported(h, caps, l[i]) && NoRtxBefore(h, caps, l, i)
  }

  ghost predicate NoRtxBefore(h: H264, caps: seq<Codec>, l: seq<Codec>, i: nat)
    requires i <= |l|
  {
    forall j :: 0 <= j < i && IsRtx(l[j]) && Supported(h, caps, l[j]) ==> !Wanted(h, caps, l, l[j])
  }

  lemma HeadUnique(h: H264, caps: seq<Codec>, l: seq<Codec>, f: nat, g: nat)
    requires f < |l| && g < |l| && HeadAt(h, caps, l, f) && HeadAt(h, caps, l, g)
    ensures f == g
  {
  }

  lemma LeadingMedia(h: H264, caps: seq<Codec>, l: seq<Codec>, i: nat) returns (f: nat)
    requires i < |l| && !IsRtx(l[i]) && Supported(h, caps, l[i]) && NoRtxBefore(h, caps, l, i)
    ensures f <= i && !IsRtx(l[f]) && HeadAt(h, caps, l, f)
  {
    hide Supported, Wanted;
    f := FirstMedia(h, caps, l, i);
    forall j | 0 <= j < f ensures !Survives(h, caps, l, j) {
    }
  }

  /** The builder succeeds exactly if the survivors begin with a media codec; whenever it does,
      the gate has said so. */
  lemma {:induction false} BuilderExactly(h: H264, caps: seq<Codec>, l: seq<Codec>)
    requires AptIsMedia(l) && Symmetric(h)
    ensures Consumed(h, caps, l).Ok? <==> MediaLeads(h, caps, l)
    ensures Consumed(h, caps, l).Ok? ==> CanConsume(h, caps, l)
  {
    hide Supported, Wanted, Answer, Pruned, Matched, Chosen, Symmetric;
    var r := Chosen(h, caps, l, |l|);
    ConsumedIsChosen(h, caps, l);
    ChosenHead(h, caps, l, |l|);
    if MediaLeads(h, caps, l) {
      var i :| 0 <= i < |l| && !IsRtx(l[i]) && Supported(h, caps, l[i]) && NoRtxBefore(h, caps, l, i);
      var f := LeadingMedia(h, caps, l, i);
      assert Survives(h, caps, l, f);
      var g :| 0 <= g < |l| && HeadAt(h, caps, l, g) && r[0] == Answer(h, caps, l[g]);
      HeadUnique(h, caps, l, f, g);
      AnswerKeeps(h, caps, l[f]);
      AdmitsIs(h, caps, l[f]);
    }
    if Consumed(h, caps, l).Ok? {
      var f :| 0 <= f < |l| && HeadAt(h, caps, l, f) && r[0] == Answer(h, caps, l[f]);
      AnswerKeeps(h, caps, l[f]);
      forall j | 0 <= j < f && IsRtx(l[j]) && Supported(h, caps, l[j]) ensures !Wanted(h, caps, l, l[j]) {
        assert !Survives(h, caps, l, j);
      }
      assert NoRtxBefore(h, caps, l, f);
    }
  }

  /** Media codecs that share a type are supported together. */
  ghost predicate Together(h: H264, caps: seq<Codec>, l: seq<Codec>) {
    forall i, j :: 0 <= i < |l| && 0 <= j < |l| && !IsRtx(l[i]) && !IsRtx(l[j]) && l[i].pt == l[j].pt ==>
      (Supported(h, caps, l[i]) <==> Supported(h, caps, l[j]))
  }

  /** With a type for each media codec that goes without saying. */
  lemma SeparateTogether(h: H264, caps: seq<Codec>, l: seq<Codec>)
    requires Separate(l)
    ensures Together(h, caps, l) && MediaApart(l)
  {
    hide Supported;
    forall i, j | 0 <= i < |l| && 0 <= j < |l| && !IsRtx(l[i]) && !IsRtx(l[j]) && l[i].pt == l[j].pt ensures i == j {}
  }

  /** A retransmission codec survives exactly if it and its media codec were both matched. */
  lemma RtxSurvivesExactly(h: H264, caps: seq<Codec>, l: seq<Codec>, j: nat)
    requires Paired(l) && Together(h, caps, l) && j < |l|
    ensures Survives(h, caps, l, j) <==>
      Supported(h, caps, l[j]) && (IsRtx(l[j]) ==> j > 0 && Supported(h, caps, l[j - 1]))
  {
    hide Supported;
    if IsRtx(l[j]) && Wanted(h, caps, l, l[j]) {
      var i :| 0 <= i < |l| && !IsRtx(l[i]) && Supported(h, caps, l[i]) && l[j].apt.Some? && l[i].pt == l[j].apt;
      assert l[i].pt == l[j - 1].pt;
    }
  }

  /** The gate agrees with the builder: it says yes exactly if building does not fail for want
      of a media codec. */
  lemma GateAgreesWithBuilder(h: H264, caps: seq<Codec>, l: seq<Codec>)
    requires Paired(l) && MediaApart(l) && Together(h, caps, l) && Symmetric(h)
    ensures CanConsume(h, caps, l) <==> Consumed(h, caps, l).Ok?
  {
    hide Supported, Symmetric, Consumed, Paired, MediaApart, Together, AptIsMedia, Wanted, Survives, Admits, IsRtx;
    PairedApart(l);
    BuilderExactly(h, caps, l);
    if CanConsume(h, caps, l) {
      var i :| 0 <= i < |l| && Admits(h, caps, l[i]);
      AdmitsIs(h, caps, l[i]);
      var f := FirstMedia(h, caps, l, i);
      forall j | 0 <= j < f && IsRtx(l[j]) && Supported(h, caps, l[j]) ensures !Wanted(h, caps, l, l[j]) {
        UnwantedBefore(h, caps, l, f, j);
      }
      assert NoRtxBefore(h, caps, l, f);
    }
  }

  lemma UnwantedBefore(h: H264, caps: seq<Codec>, l: seq<Codec>, f: nat, j: nat)
    requires Paired(l) && Together(h, caps, l) && j < f <= |l| && IsRtx(l[j]) && Supported(h, caps, l[j])
    requires forall q :: 0 <= q < f && !IsRtx(l[q]) ==> !Supported(h, caps, l[q])
    ensures !Wanted(h, caps, l, l[j])
  {
    hide Supported, Wanted, Paired, Together, IsRtx;
    RtxSurvivesExactly(h, caps, l, j);
    MediaBefore(l, j);
  }

  lemma MediaBefore(l: seq<Codec>, j: nat)
    requires Paired(l) && j < |l| && IsRtx(l[j])
    ensures j > 0 && !IsRtx(l[j - 1])
  {
  }

  lemma FirstMedia(h: H264, caps: seq<Codec>, l: seq<Codec>, i: nat) returns (f: nat)
    requires i < |l| && !IsRtx(l[i]) && Supported(h, caps, l[i])
    ensures f <= i && !IsRtx(l[f]) && Supported(h, caps, l[f])
    ensures forall j :: 0 <= j < f && !IsRtx(l[j]) ==> !Supported(h, caps, l[j])
  {
    f := 0;
    while IsRtx(l[f]) || !Supported(h, caps, l[f])
      invariant 0 <= f <= i
      invariant forall j :: 0 <= j < f && !IsRtx(l[j]) ==> !Supported(h, caps, l[j])
      decreases i - f
    {
      f := f + 1;
    }
  }

  /** The result is closed under apt again: each retransmission codec stands right behind the
      media codec whose type it names, and the list begins with a media codec. */
  lemma {:induction false} ChosenPaired(h: H264, caps: seq<Codec>, l: seq<Codec>, n: nat)
    requires Paired(l) && Together(h, caps, l) && n <= |l|
    ensures Paired(Chosen(h, caps, l, n))
    ensures n > 0 && Survives(h, caps, l, n - 1) ==>
      Chosen(h, caps, l, n) != [] && Chosen(h, caps, l, n)[|Chosen(h, caps, l, n)| - 1] == Answer(h, caps, l[n - 1])
  {
    hide Supported, Survives, Answer, Together, Chosen, Paired;
    ChosenStep(h, caps, l, n);
    if n == 0 {
      PairedNone();
    } else {
      ChosenPaired(h, caps, l, n - 1);
      if Survives(h, caps, l, n - 1) {
        var c := l[n - 1];
        var r := Chosen(h, caps, l, n - 1);
        AnswerKeeps(h, caps, c);
        if IsRtx(c) {
          MediaBefore(l, n - 1);
          RtxSurvivesExactly(h, caps, l, n - 1);
          RtxSurvivesExactly(h, caps, l, n - 2);
          AnswerKeeps(h, caps, l[n - 2]);
        }
        AptBefore(l, n - 1);
        PairedSnoc(r, Answer(h, caps, c));
      }
    }
  }

  lemma ChosenStep(h: H264, caps: seq<Codec>, l: seq<Codec>, n: nat)
    requires n <= |l|
    ensures Chosen(h, caps, l, n) == if n == 0 then [] else
      Chosen(h, caps, l, n - 1) + if Survives(h, caps, l, n - 1) then [Answer(h, caps, l[n - 1])] else []
    ensures n > 0 && !Survives(h, caps, l, n - 1) ==> Chosen(h, caps, l, n) == Chosen(h, caps, l, n - 1)
  {
    hide Survives, Answer;
    if n > 0 { assert Chosen(h, caps, l, n - 1) + [] == Chosen(h, caps, l, n - 1); }
  }

  lemma PairedNone()
    ensures Paired([])
  {
  }

  lemma PairedSnoc(r: seq<Codec>, c: Codec)
    requires Paired(r)
    requires IsRtx(c) ==> r != [] && !IsRtx(r[|r| - 1]) && c.apt.Some? && c.apt == r[|r| - 1].pt
    ensures Paired(r + [c])
  {
    hide IsRtx;
    var m := r + [c];
    forall j | 0 <= j < |m| && IsRtx(m[j]) ensures j > 0 && !IsRtx(m[j - 1]) && m[j].apt.Some? && m[j].apt == m[j - 1].pt {
      if j < |r| { assert m[j] == r[j]; }
    }
  }

  lemma AptBefore(l: seq<Codec>, j: nat)
    requires Paired(l) && j < |l|
    ensures IsRtx(l[j]) ==> j > 0 && l[j].apt.Some? && l[j].apt == l[j - 1].pt
  {
  }

  lemma ConsumedPaired(h: H264, caps: seq<Codec>, l: seq<Codec>)
    requires Paired(l) && MediaApart(l) && Together(h, caps, l) && Consumed(h, caps, l).Ok?
    ensures var r := Consumed(h, caps, l).value; Paired(r) && r != [] && !IsRtx(r[0])
  {
    hide Chosen, Paired, MediaApart, Together, Pruned, Matched;
    PairedApart(l);
    ConsumedIsChosen(h, caps, l);
    ChosenPaired(h, caps, l, |l|);
  }

  // ---------------------------------------------------------------- in place

  method FilterMatched(h: H264, caps: seq<Codec>, consumable: seq<Codec>) returns (codecs: seq<Codec>)
    ensures codecs == Matched(h, caps, consumable)
  {
    codecs := [];
    for i := 0 to |consumable|
      invariant codecs == Matched(h, caps, consumable[..i])
    {
      var k := FindFirst(caps, (x: Codec) => Same(h, x, consumable[i]));
      assert consumable[..i + 1][..i] == consumable[..i];
      if k < |caps| {
        codecs := codecs + [consumable[i].(feedback := caps[k].feedback)];
      }
    }
    assert consumable[..|consumable|] == consumable;
  }

  /** Removes useless retransmission codecs while walking the list. */
  method Sanitize(l: seq<Codec>) returns (codecs: seq<Codec>)
    ensures codecs == Pruned([], l)
  {
    codecs := l;
    var i := 0;
    assert l[..0] == [] && l[0..] == l;
    while i < |codecs|
      invariant 0 <= i <= |codecs|
      invariant Pruned([], l) == Pruned(codecs[..i], codecs[i..])
      decreases |codecs| - i
    {
      assert codecs[i..][1..] == codecs[i + 1..];
      assert codecs[..i] + codecs[i..] == codecs;
      var found := true;
      if IsRtx(codecs[i]) {
        found := Contains(codecs, codecs[i].apt);
      }
      if found {
        assert codecs[..i] + [codecs[i]] == codecs[..i + 1];
        i := i + 1;
      } else {
        var rest := codecs[i + 1..];
        assert (codecs[..i] + rest)[..i] == codecs[..i] && (codecs[..i] + rest)[i..] == rest;
        codecs := codecs[..i] + rest;
      }
    }
    assert codecs[..i] == codecs && codecs[i..] == [];
  }

  method Contains(l: seq<Codec>, t: Option<int>) returns (found: bool)
    ensures found == HasType(l, t)
  {
    found := false;
    for j := 0 to |l|
      invariant found <==> exists i :: 0 <= i < j && t.Some? && l[i].pt == t
    {
      if t.Some? && l[j].pt == t { found := true; }
    }
  }

  method ConsumeInput(h: H264, caps: seq<Codec>, consumable: seq<Codec>) returns (r: Result<seq<Codec>>)
    ensures r == Consumed(h, caps, consumable)
  {
    var codecs := FilterMatched(h, caps, consumable);
    codecs := Sanitize(codecs);
    if |codecs| == 0 || IsRtx(codecs[0]) {
      r := Err(InvalidParameters);
    } else {
      r := Ok(codecs);
    }
  }

  method ProducerCanConsume(h: H264, caps: seq<Codec>, consumable: seq<Codec>) returns (out: bool)
    ensures out == CanConsume(h, caps, consumable)
  {
    for i := 0 to |consumable|
      invariant forall j :: 0 <= j < i ==> !Admits(h, caps, consumable[j])
    {
      var k := FindFirst(caps, (x: Codec) => Same(h, consumable[i], x));
      if k < |caps| && !IsRtx(caps[k]) {
        assert Admits(h, caps, consumable[i]);
        return true;
      }
    }
    out := false;
  }
}
