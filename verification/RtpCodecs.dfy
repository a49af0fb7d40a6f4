/**
 Codec descriptions as they travel through the negotiation, and when two of them are the same
 codec (src/rct/rct_utils.c). Mime types are in lower case.
 */
module RtpCodecs {

  datatype Option<+T> = None | Some(value: T)

  type Params = map<string, string>

  datatype Codec = Codec(
    kind: Option<string>,
    mime: Option<string>,
    clock: Option<int>,
    channels: Option<int>,
    pt: Option<int>,         // payloadType or preferredPayloadType, whichever the list uses
    apt: Option<int>,        // parameters/apt
    mode: Option<int>,       // parameters/packetization-mode
    profile: Option<int>,    // parameters/profile-id
    extra: Params,           // the other parameters
    feedback: seq<string>
  )

  function Or(o: Option<int>, d: int): int {
    if o.Some? then o.value else d
  }

  /** The number that an optional field stands for, if `d` is what its absence means. */
  predicate Means(o: Option<int>, d: int, n: int) {
    o == Some(n) || (o.None? && n == d)
  }

  lemma MeansOr(o: Option<int>, d: int, n: int)
    ensures Means(o, d, n) <==> Or(o, d) == n
  {
  }

  function First<T>(a: Option<T>, b: Option<T>): Option<T> {
    if a.Some? then a else b
  }

  /** rct_codec_is_rtx */
  predicate IsRtx(c: Codec) {
    c.mime.Some? && |c.mime.value| >= 5 && c.mime.value[|c.mime.value| - 4..] == "/rtx"
  }

  /** How two H264 profiles are compared and what is then written into the first codec. */
  datatype H264 = H264(agree: (Codec, Codec) -> bool, answer: (Codec, Codec) -> Params)

  /** rct_utils_codecs_is_matched, in its strict form */
  predicate Same(h: H264, a: Codec, b: Codec) {
    && a.mime.Some? && b.mime == a.mime && a.clock == b.clock && a.channels == b.channels
    && (a.mime.value == "video/h264" ==> Or(a.mode, 0) == Or(b.mode, 0) && h.agree(a, b))
    && (a.mime.value == "video/vp9" ==> Or(a.profile, 0) == Or(b.profile, 0))
  }

  /** What a match does to its first codec when it may modify it. */
  function Answered(h: H264, a: Codec, b: Codec): Codec {
    if a.mime == Some("video/h264") then a.(extra := h.answer(a, b)) else a
  }

  ghost predicate Symmetric(h: H264) {
    forall a, b :: h.agree(a, b) == h.agree(b, a)
  }

  lemma SameSymmetric(h: H264, a: Codec, b: Codec)
    requires Symmetric(h)
    ensures Same(h, a, b) <==> Same(h, b, a)
  {
  }

  lemma SameIsRtx(h: H264, a: Codec, b: Codec)
    requires Same(h, a, b)
    ensures IsRtx(a) <==> IsRtx(b)
  {
  }

  /** The position of the first codec of `l` that `p` accepts, or the length of `l`. */
  function FirstWhere(l: seq<Codec>, p: Codec -> bool): (i: nat)
    ensures i <= |l| && (i < |l| ==> p(l[i]))
    ensures forall j :: 0 <= j < i ==> !p(l[j])
  {
    if l == [] then 0 else if p(l[0]) then 0 else
      var j := FirstWhere(l[1..], p);
      assert forall k :: 1 <= k < j + 1 ==> l[k] == l[1..][k - 1];
      j + 1
  }

  /** Nobody shares a payload type. */
  predicate Distinct(l: seq<Codec>) {
    forall i, j :: 0 <= i < j < |l| ==> l[i].pt != l[j].pt
  }
}
