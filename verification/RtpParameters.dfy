/** What is made of the extended capabilities: the capabilities for receiving, and the local
    and the remote parameters for sending one kind of media. */
module RtpParameters {
  import opened Json
  import opened Wrappers
  import opened RtpValidation
  import opened RtpNegotiation

  function PtValue(pt: Option<int>): Value { if pt.Some? then Int(pt.value) else Null }

  /** The members every emitted codec has; `key` is the name of its payload type. */
  function CodecFields(mime: string, key: Key, pt: Option<int>, clock: int, params: map<Key, Value>,
                       feedback: seq<Value>): map<Key, Value>
  {
    map[MimeType := Str(mime), key := PtValue(pt), ClockRate := Int(clock),
        Parameters := Obj(params), RtcpFeedback := Arr(feedback)]
  }

  /** Receive capabilities also name the kind. */
  function WithKind(m: map<Key, Value>, key: Key, kind: string): map<Key, Value> {
    if key.PreferredPayloadType? then m[Kind := Str(kind)] else m
  }

  function Media(e: Extended, key: Key, pt: Option<int>, params: map<Key, Value>): Value {
    var m := WithKind(CodecFields(e.mime, key, pt, e.clock, params, e.feedback), key, e.kind);
    Obj(if e.channels.Some? then m[Channels := Int(e.channels.value)] else m)
  }

  /** The payload type becomes the apt as an eight-bit number. */
  function RtxCodec(e: Extended, key: Key, pt: int, rtx: Option<int>): Value {
    Obj(WithKind(CodecFields(e.kind + "/rtx", key, rtx, e.clock, map[Apt := Int(pt % 256)], []), key, e.kind))
  }

  /** A media codec, and its RTX codec if it has one. */
  function Emit(e: Extended, key: Key, pt: Option<int>, rtx: Option<int>, params: map<Key, Value>): seq<Value>
    requires rtx.Some? ==> pt.Some?
  {
    [Media(e, key, pt, params)] + if rtx.Some? then [RtxCodec(e, key, pt.value, rtx)] else []
  }

  /** An RTX payload type was found through the payload type it repairs. */
  predicate Repairs(es: seq<Extended>) {
    forall k :: 0 <= k < |es| ==>
      (es[k].localRtx.Some? ==> es[k].localPt.Some?) && (es[k].remoteRtx.Some? ==> es[k].remotePt.Some?)
  }

  // ---- Receive capabilities -----------------------------------------------------------------

  function RecvCodecs(es: seq<Extended>): seq<Value>
    requires Repairs(es)
  {
    if es == [] then [] else RecvCodecs(es[..|es| - 1]) + RecvEmit(es[|es| - 1])
  }

  function RecvEmit(e: Extended): seq<Value>
    requires e.remoteRtx.Some? ==> e.remotePt.Some?
  {
    Emit(e, PreferredPayloadType, e.remotePt, e.remoteRtx, e.localParams)
  }

  lemma RecvUnfold(es: seq<Extended>, n: nat)
    requires Repairs(es) && n == |es| - 1
    ensures Repairs(es[..n]) && (es[n].remoteRtx.Some? ==> es[n].remotePt.Some?)
    ensures RecvCodecs(es) == RecvCodecs(es[..n]) + RecvEmit(es[n])
  {
    hide RecvEmit;
  }

  function RecvExtension(x: ExtendedExt): seq<Value>
    requires x.direction.Some?
  {
    if x.direction.value == "sendrecv" || x.direction.value == "recvonly"
    then [Obj(map[Kind := Str(x.kind), Uri := Str(x.uri), PreferredId := Int(x.recvId),
                  PreferredEncrypt := Bool(x.encrypt), Direction := Str(x.direction.value)])]
    else []
  }

  /** Fails on an extension without a direction. */
  function RecvExtensions(xs: seq<ExtendedExt>): (r: Result<seq<Value>>)
    ensures r.Ok? <==> Directed(xs)
  {
    if xs == [] then Ok([])
    else
      var n := |xs| - 1;
      var rest := RecvExtensions(xs[..n]);
      assert Directed(xs) <==> Directed(xs[..n]) && xs[n].direction.Some?;
      if rest.Err? || xs[n].direction.None? then Err else Ok(rest.value + RecvExtension(xs[n]))
  }

  function RecvCapabilities(x: ExtendedCaps): (r: Result<Value>)
    requires Repairs(x.codecs)
    ensures r.Ok? <==> Directed(x.exts)
  {
    var exts := RecvExtensions(x.exts);
    if exts.Err? then Err
    else Ok(Obj(map[Codecs := Arr(RecvCodecs(x.codecs)), HeaderExtensions := Arr(exts.value)]))
  }

  method GetRecvCapabilities(x: ExtendedCaps) returns (r: Result<Value>)
    requires Repairs(x.codecs)
    ensures r == RecvCapabilities(x)
  {
    hide Media, RtxCodec;
    var codecs := [];
    for i := 0 to |x.codecs|
      invariant codecs == RecvCodecs(x.codecs[..i])
    {
      assert x.codecs[..i + 1][..i] == x.codecs[..i];
      var e := x.codecs[i];
      codecs := codecs + [Media(e, PreferredPayloadType, e.remotePt, e.localParams)];
      if e.remoteRtx.Some? {
        codecs := codecs + [RtxCodec(e, PreferredPayloadType, e.remotePt.value, e.remoteRtx)];
      }
    }
    assert x.codecs[..|x.codecs|] == x.codecs;
    hide RecvCodecs;
    var exts := [];
    for i := 0 to |x.exts|
      invariant RecvExtensions(x.exts[..i]) == Ok(exts)
    {
      assert x.exts[..i + 1][..i] == x.exts[..i];
      if x.exts[i].direction.None? { return Err; }
      exts := exts + RecvExtension(x.exts[i]);
    }
    assert x.exts[..|x.exts|] == x.exts;
    return Ok(Obj(map[Codecs := Arr(codecs), HeaderExtensions := Arr(exts)]));
  }

  lemma {:induction false} RecvExtensionFrom(xs: seq<ExtendedExt>, v: Value)
    requires RecvExtensions(xs).Ok? && v in RecvExtensions(xs).value
    ensures exists x :: x in xs && x.direction.Some? && v in RecvExtension(x)
  {
    var n := |xs| - 1;
    assert xs == xs[..n] + [xs[n]];
    if v in RecvExtensions(xs[..n]).value {
      RecvExtensionFrom(xs[..n], v);
    } else {
      assert v in RecvExtension(xs[n]);
    }
  }

  /** What the receiver states of an extension. */
  function Receiving(l: Extension, r: Extension): Value
    requires Flip(r.direction).Some?
  {
    Obj(map[Kind := Str(r.kind), Uri := Str(r.uri), PreferredId := Int(r.id),
            PreferredEncrypt := Bool(l.encrypt), Direction := Str(Flip(r.direction).value)])
  }

  /** An extension to be received has the identifier the remote side gave it, and the remote
      side may send it. */
  lemma RecvExtensionOrigin(local: seq<Extension>, remote: seq<Extension>, v: Value)
    requires RecvExtensions(MatchExtensions(local, remote)).Ok?
    requires v in RecvExtensions(MatchExtensions(local, remote)).value
    ensures exists l, r :: l in local && r in remote && SameExtension(l, r) && Flip(r.direction).Some?
              && v == Receiving(l, r) && (r.direction == "sendrecv" || r.direction == "sendonly")
  {
    var xs := MatchExtensions(local, remote);
    RecvExtensionFrom(xs, v);
    var x :| x in xs && x.direction.Some? && v in RecvExtension(x);
    ExtensionsJoined(local, remote, x);
    var l, r :| l in local && r in remote && SameExtension(l, r) && x == JoinExtension(l, r);
    FlipReceives(r.direction);
    hide Flip;
    assert v == Receiving(l, r);
  }

  lemma FlipReceives(d: string)
    requires Flip(d).Some?
    ensures Flip(d).value == "sendrecv" || Flip(d).value == "recvonly" <==> d == "sendrecv" || d == "sendonly"
    ensures Flip(d).value == "sendrecv" || Flip(d).value == "sendonly" <==> d == "sendrecv" || d == "recvonly"
  {
  }

  // ---- The RTX codecs emitted -----------------------------------------------------------------

  predicate IsRtxJson(c: Value) { c.HasStr(MimeType) && IsRtx(c.fields[MimeType].s) }

  /** Right before it stands the media codec its apt names, at the same clock rate. */
  predicate FollowsItsMedia(cs: seq<Value>, k: nat, key: Key) {
    && 0 < k < |cs| && !IsRtxJson(cs[k - 1])
    && cs[k].HasObj(Parameters) && Apt in cs[k].fields[Parameters].fields
    && cs[k - 1].Has(key) && cs[k - 1].fields[key] == cs[k].fields[Parameters].fields[Apt]
    && cs[k].Has(ClockRate) && cs[k - 1].Has(ClockRate) && cs[k].fields[ClockRate] == cs[k - 1].fields[ClockRate]
  }

  /** Payload type and apt are those of an RTX codec of `codecs`. */
  predicate Offered(c: Value, key: Key, codecs: seq<Codec>) {
    && c.HasInt(key) && c.HasObj(Parameters) && Apt in c.fields[Parameters].fields
    && exists o :: o in codecs && IsRtx(o.mime) && o.pt == Some(c.fields[key].i)
         && Apt in o.params && o.params[Apt] == c.fields[Parameters].fields[Apt]
  }

  /** One codec of a receiving or sending list. */
  lemma EmitRtx(e: Extended, key: Key, pt: Option<int>, rtx: Option<int>, params: map<Key, Value>, codecs: seq<Codec>)
    requires key.PreferredPayloadType? || key.PayloadType?
    requires !IsRtx(e.mime) && pt.Some? && 0 <= pt.value < 256
    requires rtx.Some? ==> exists o :: o in codecs && IsRtxOf(o, pt) && o.pt == rtx
    ensures var cs := Emit(e, key, pt, rtx, params);
            && !IsRtxJson(cs[0])
            && (rtx.Some? ==> |cs| == 2 && FollowsItsMedia(cs, 1, key) && Offered(cs[1], key, codecs))
  {
    hide Media, RtxCodec, IsRtx, Lowered;
    EmitFields(e, key, pt, rtx, params);
    assert |Emit(e, key, pt, rtx, params)| == if rtx.Some? then 2 else 1;
    if rtx.Some? {
      var o :| o in codecs && IsRtxOf(o, pt) && o.pt == rtx;
      var c := RtxCodec(e, key, pt.value, rtx);
      assert o in codecs && IsRtx(o.mime) && o.pt == Some(c.fields[key].i);
    }
  }

  lemma EmitFields(e: Extended, key: Key, pt: Option<int>, rtx: Option<int>, params: map<Key, Value>)
    requires (key.PreferredPayloadType? || key.PayloadType?) && pt.Some?
    ensures var m, r := Media(e, key, pt, params), RtxCodec(e, key, pt.value, rtx);
            && m.HasStr(MimeType) && m.fields[MimeType].s == e.mime
            && m.Has(key) && m.fields[key] == PtValue(pt)
            && r.Has(key) && r.fields[key] == PtValue(rtx)
            && m.Has(ClockRate) && r.Has(ClockRate) && m.fields[ClockRate] == r.fields[ClockRate]
            && r.Has(Parameters) && r.fields[Parameters] == Obj(map[Apt := Int(pt.value % 256)])
  {
  }

  lemma FollowsWithin(before: seq<Value>, cs: seq<Value>, after: seq<Value>, k: nat, key: Key)
    requires FollowsItsMedia(cs, k, key)
    ensures FollowsItsMedia(before + cs + after, |before| + k, key)
  {
  }

  /** What negotiation with payload types leaves in an extended codec. */
  predicate Usable(e: Extended, local: seq<Codec>, remote: seq<Codec>) {
    && Paired(e, local, remote) && !IsRtx(e.mime)
    && e.localPt.Some? && 0 <= e.localPt.value < 128
    && e.remotePt.Some? && 0 <= e.remotePt.value < 128
  }

  predicate AllUsable(es: seq<Extended>, local: seq<Codec>, remote: seq<Codec>) {
    forall i :: 0 <= i < |es| ==> Usable(es[i], local, remote)
  }

  /** Every RTX codec in the receive capabilities follows the media codec its apt names, and
      was offered by the remote side. */
  lemma {:induction false} RecvRtx(es: seq<Extended>, local: seq<Codec>, remote: seq<Codec>, k: nat)
    requires AllUsable(es, local, remote) && Repairs(es)
    requires k < |RecvCodecs(es)| && IsRtxJson(RecvCodecs(es)[k])
    ensures FollowsItsMedia(RecvCodecs(es), k, PreferredPayloadType)
    ensures Offered(RecvCodecs(es)[k], PreferredPayloadType, remote)
  {
    hide IsRtxJson, Offered, FollowsItsMedia, Media, RtxCodec, Usable;
    var n := |es| - 1;
    var e := es[n];
    var before := RecvCodecs(es[..n]);
    var last := Emit(e, PreferredPayloadType, e.remotePt, e.remoteRtx, e.localParams);
    UsableEmits(e, local, remote);
    assert RecvCodecs(es) == before + last;
    if k < |before| {
      RecvRtx(es[..n], local, remote, k);
      FollowsWithin([], before, last, k, PreferredPayloadType);
      assert [] + before + last == before + last;
    } else {
      assert k == |before| + 1;
      FollowsWithin(before, last, [], 1, PreferredPayloadType);
      assert before + last + [] == before + last;
    }
  }

  lemma UsableEmits(e: Extended, local: seq<Codec>, remote: seq<Codec>)
    requires Usable(e, local, remote)
    ensures var cs := Emit(e, PreferredPayloadType, e.remotePt, e.remoteRtx, e.localParams);
            && !IsRtxJson(cs[0])
            && (e.remoteRtx.Some? ==>
                  && |cs| == 2 && FollowsItsMedia(cs, 1, PreferredPayloadType)
                  && Offered(cs[1], PreferredPayloadType, remote))
  {
    EmitRtx(e, PreferredPayloadType, e.remotePt, e.remoteRtx, e.localParams, remote);
  }

  function MediaOnly(cs: seq<Value>): seq<Value> {
    if cs == [] then []
    else MediaOnly(cs[..|cs| - 1]) + if IsRtxJson(cs[|cs| - 1]) then [] else [cs[|cs| - 1]]
  }

  function RecvOf(e: Extended): Value { Media(e, PreferredPayloadType, e.remotePt, e.localParams) }

  /** The members of a codec to be received, one by one. */
  predicate Receives(c: Value, e: Extended) {
    && c.HasStr(MimeType) && c.fields[MimeType].s == e.mime && c.HasStr(Kind) && c.fields[Kind].s == e.kind
    && c.HasInt(ClockRate) && c.fields[ClockRate].i == e.clock && c.Has(PreferredPayloadType)
    && (if e.remotePt.Some? then c.fields[PreferredPayloadType] == Int(e.remotePt.value)
        else c.fields[PreferredPayloadType].Null?)
    && (if e.channels.Some? then c.HasInt(Channels) && c.fields[Channels].i == e.channels.value else !c.Has(Channels))
    && c.HasObj(Parameters) && c.fields[Parameters].fields == e.localParams
    && c.HasArr(RtcpFeedback) && c.fields[RtcpFeedback].items == e.feedback
  }

  lemma RecvReceives(e: Extended)
    ensures Receives(RecvOf(e), e)
  {
  }

  /** Without their RTX codecs the receive capabilities are the extended codecs, in order,
      with the remote payload types and the local parameters. */
  lemma RecvMedia(es: seq<Extended>)
    requires Repairs(es) && forall k :: 0 <= k < |es| ==> WellFormed(es[k]) && !IsRtx(es[k].mime)
    ensures var cs := MediaOnly(RecvCodecs(es));
            |cs| == |es| && forall k :: 0 <= k < |es| ==> Receives(cs[k], es[k])
  {
    hide RecvOf, Receives, MediaOnly, RecvCodecs, WellFormed, IsRtx;
    RecvInOrder(es);
    var cs := MediaOnly(RecvCodecs(es));
    forall k | 0 <= k < |es| ensures Receives(cs[k], es[k]) { RecvReceives(es[k]); }
  }

  lemma {:induction false} RecvInOrder(es: seq<Extended>)
    requires Repairs(es) && forall k :: 0 <= k < |es| ==> WellFormed(es[k]) && !IsRtx(es[k].mime)
    ensures var cs := MediaOnly(RecvCodecs(es));
            |cs| == |es| && forall k :: 0 <= k < |es| ==> cs[k] == RecvOf(es[k])
  {
    hide WellFormed, IsRtx, RecvOf, RecvEmit, IsRtxJson, Repairs;
    if es != [] {
      var n := |es| - 1;
      RecvUnfold(es, n);
      hide MediaOnly, RecvCodecs;
      MediaOfOne(RecvCodecs(es[..n]), es[n]);
      RecvInOrder(es[..n]);
      var before := MediaOnly(RecvCodecs(es[..n]));
      forall k | 0 <= k < n ensures before[k] == RecvOf(es[k]) { assert es[..n][k] == es[k]; }
    }
  }

  lemma MediaOfOne(cs: seq<Value>, e: Extended)
    requires (e.remoteRtx.Some? ==> e.remotePt.Some?) && WellFormed(e) && !IsRtx(e.mime)
    ensures MediaOnly(cs + RecvEmit(e)) == MediaOnly(cs) + [RecvOf(e)]
  {
    EmitNames(e);
    hide Media, RtxCodec, WellFormed, IsRtx, IsRtxJson;
    var m := RecvOf(e);
    assert (cs + [m])[..|cs|] == cs;
    if e.remoteRtx.Some? {
      var r := RtxCodec(e, PreferredPayloadType, e.remotePt.value, e.remoteRtx);
      assert cs + RecvEmit(e) == cs + [m] + [r] && (cs + [m] + [r])[..|cs| + 1] == cs + [m];
    } else {
      assert cs + RecvEmit(e) == cs + [m];
    }
  }

  lemma EmitNames(e: Extended)
    requires WellFormed(e) && !IsRtx(e.mime)
    ensures !IsRtxJson(RecvOf(e))
    ensures forall pt :: IsRtxJson(RtxCodec(e, PreferredPayloadType, pt, e.remoteRtx))
  {
    RtxNamed(e.kind);
    hide Lowered, IsRtx;
  }

  lemma LoweredJoin(a: string, b: string)
    ensures Lowered(a + b) == Lowered(a) + Lowered(b)
  {
  }

  lemma RtxLowered()
    ensures Lowered("/rtx") == "/rtx"
  {
    hide Lowered;
  }

  lemma RtxSpelled()
    ensures "audio" + "/rtx" == "audio/rtx" && "video" + "/rtx" == "video/rtx"
  {
  }

  lemma RtxNamed(kind: string)
    requires |kind| == 5 && (Lowered(kind) == "audio" || Lowered(kind) == "video")
    ensures IsRtx(kind + "/rtx")
  {
    hide Lowered;
    RtxLowered();
    LoweredJoin(kind, "/rtx");
    RtxSpelled();
  }

  /** Read back, such a codec has what the extended codec said of it. */
  lemma MediaReads(e: Extended)
    requires WellFormed(e) && e.remotePt.Some?
    ensures var c := Media(e, PreferredPayloadType, e.remotePt, e.localParams);
            NormalCodec(c) &&
            ReadCodec(c) == Codec(e.mime, e.kind, e.clock, e.remotePt, e.channels, e.localParams, e.feedback)
  {
  }

  // ---- Receive capabilities are valid -----------------------------------------------------------

  /** What validation of both sides leaves in an extended codec. */
  predicate WellFormed(e: Extended) {
    && IsMedia(e.mime) && e.kind == KindOf(e.mime)
    && (e.kind == "audio" <==> e.channels.Some?)
    && ParametersOk(e.localParams) && ParametersOk(e.remoteParams)
    && AllNormal(e.feedback, NormalFeedback)
  }

  lemma MediaAccepted(e: Extended)
    requires WellFormed(e)
    ensures ValidateCodec(RecvOf(e)).Ok? <==> e.remotePt.Some?
  {
    var c := RecvOf(e);
    RecvReceives(e);
    hide RecvOf, ValidateBody, IsMedia, ParametersOk, AllNormal, KindOf;
    if e.remotePt.Some? {
      ReceivesNormal(c, e);
      hide NormalCodec;
      CodecNormal(c);
    }
  }

  lemma ReceivesNormal(c: Value, e: Extended)
    requires WellFormed(e) && Receives(c, e) && e.remotePt.Some?
    ensures NormalCodec(c)
  {
    hide IsMedia, ParametersOk, AllNormal, KindOf;
  }

  lemma RtxIsMedia(kind: string)
    requires |kind| == 5 && (Lowered(kind) == "audio" || Lowered(kind) == "video")
    ensures IsMedia(kind + "/rtx") && KindOf(kind + "/rtx") == kind
  {
    hide Lowered, IsMedia, IsMediaOf;
    RtxOfMedia(kind);
    MediaShape(kind + "/rtx");
    KindAhead(kind, "/rtx");
  }

  lemma RtxOfMedia(kind: string)
    requires Lowered(kind) == "audio" || Lowered(kind) == "video"
    ensures IsMediaOf(kind + "/rtx", kind, "rtx")
  {
    hide Lowered;
    RtxText();
    Slashed(kind);
  }

  lemma RtxText()
    ensures "rtx" != "" && '\n' !in "rtx" && '\r' !in "rtx"
  {
  }

  lemma Slashed(kind: string)
    ensures kind + "/rtx" == kind + "/" + "rtx"
  {
    assert "/rtx" == "/" + "rtx";
  }

  lemma KindAhead(kind: string, rest: string)
    requires |kind| == 5
    ensures (kind + rest)[..5] == kind
  {
  }

  lemma RtxAccepted(e: Extended, pt: int, rtx: Option<int>)
    requires WellFormed(e) && rtx.Some?
    ensures ValidateCodec(RtxCodec(e, PreferredPayloadType, pt, rtx)).Ok?
  {
    RtxIsMedia(e.kind);
    hide IsMedia, KindOf, Lowered, AllNormal, WellFormed, ValidateCodec;
    RtxFields(e, pt, rtx);
    var c := RtxCodec(e, PreferredPayloadType, pt, rtx);
    hide RtxCodec;
    CodecAccepted(c);
  }

  lemma RtxFields(e: Extended, pt: int, rtx: Option<int>)
    requires rtx.Some?
    ensures var c := RtxCodec(e, PreferredPayloadType, pt, rtx);
            && c.HasStr(MimeType) && c.fields[MimeType].s == e.kind + "/rtx"
            && c.HasInt(PreferredPayloadType) && c.HasInt(ClockRate)
            && c.HasObj(Parameters) && ParametersOk(c.fields[Parameters].fields)
            && c.HasArr(RtcpFeedback) && c.fields[RtcpFeedback].items == []
  {
  }

  lemma CodecAccepted(c: Value)
    requires c.HasStr(MimeType) && IsMedia(c.fields[MimeType].s) && c.HasInt(PreferredPayloadType)
    requires c.HasInt(ClockRate) && c.HasObj(Parameters) && ParametersOk(c.fields[Parameters].fields)
    requires c.HasArr(RtcpFeedback) && c.fields[RtcpFeedback].items == []
    ensures ValidateCodec(c).Ok?
  {
    hide IsMedia, KindOf, ParametersOk, ValidateFeedback;
    var kind := KindOf(c.fields[MimeType].s);
    var d := c.Set(Kind, Str(kind));
    assert d.fields[Parameters] == c.fields[Parameters] && d.fields[RtcpFeedback] == c.fields[RtcpFeedback];
  }

  predicate AllTyped(es: seq<Extended>) { forall k :: 0 <= k < |es| ==> es[k].remotePt.Some? }

  lemma {:induction false} RecvCodecsAccepted(es: seq<Extended>)
    requires Repairs(es) && forall k :: 0 <= k < |es| ==> WellFormed(es[k])
    ensures ValidateAll(RecvCodecs(es), ValidateCodec).Ok? <==> AllTyped(es)
  {
    hide ValidateCodec, WellFormed, RecvEmit, Repairs;
    if es != [] {
      var n := |es| - 1;
      RecvUnfold(es, n);
      hide ValidateAll, RecvCodecs;
      EmitAccepted(RecvCodecs(es[..n]), es[n]);
      RecvCodecsAccepted(es[..n]);
      assert AllTyped(es) <==> AllTyped(es[..n]) && es[n].remotePt.Some?;
    }
  }

  lemma EmitAccepted(cs: seq<Value>, e: Extended)
    requires (e.remoteRtx.Some? ==> e.remotePt.Some?) && WellFormed(e)
    ensures ValidateAll(cs + RecvEmit(e), ValidateCodec).Ok?
            <==> ValidateAll(cs, ValidateCodec).Ok? && e.remotePt.Some?
  {
    hide ValidateCodec, ValidateAll, Media, RtxCodec, WellFormed;
    MediaAccepted(e);
    OneMore(cs, RecvOf(e));
    if e.remoteRtx.Some? {
      var r := RtxCodec(e, PreferredPayloadType, e.remotePt.value, e.remoteRtx);
      RtxAccepted(e, e.remotePt.value, e.remoteRtx);
      OneMore(cs + [RecvOf(e)], r);
      assert cs + RecvEmit(e) == cs + [RecvOf(e)] + [r];
    } else {
      assert cs + RecvEmit(e) == cs + [RecvOf(e)];
    }
  }

  lemma OneMore(cs: seq<Value>, c: Value)
    ensures ValidateAll(cs + [c], ValidateCodec).Ok?
            <==> ValidateAll(cs, ValidateCodec).Ok? && ValidateCodec(c).Ok?
  {
    hide ValidateCodec;
    assert (cs + [c])[..|cs|] == cs;
  }

  predicate WellFormedExt(x: ExtendedExt) { KindOk(x.kind) && x.uri != "" }

  lemma {:induction false} RecvExtensionsAccepted(xs: seq<ExtendedExt>)
    requires Directed(xs) && forall k :: 0 <= k < |xs| ==> WellFormedExt(xs[k])
    ensures RecvExtensions(xs).Ok? && AllNormal(RecvExtensions(xs).value, NormalExtension)
  {
    if xs != [] { RecvExtensionsAccepted(xs[..|xs| - 1]); }
  }

  /** The receive capabilities can be built and pass validation. */
  predicate RecvUsable(x: ExtendedCaps)
    requires Repairs(x.codecs)
  {
    RecvCapabilities(x).Ok? && ValidateCapabilities(RecvCapabilities(x).value).Ok?
  }

  /** That is so exactly when every extended codec has a remote payload type and every
      extended extension a direction. */
  lemma RecvAccepted(x: ExtendedCaps)
    requires Repairs(x.codecs)
    requires forall k :: 0 <= k < |x.codecs| ==> WellFormed(x.codecs[k])
    requires forall k :: 0 <= k < |x.exts| ==> WellFormedExt(x.exts[k])
    ensures RecvUsable(x) <==> AllTyped(x.codecs) && Directed(x.exts)
  {
    hide WellFormed, WellFormedExt, ValidateCodec, ValidateExtension, NormalExtension, NormalCodec, Normalizes,
      RecvCodecs, RecvExtensions, ValidateAll, AllNormal, AllTyped, Directed;
    if Directed(x.exts) {
      RecvCodecsAccepted(x.codecs);
      RecvExtensionsAccepted(x.exts);
      var exts := RecvExtensions(x.exts).value;
      ItemsNormalize();
      ArrayNormal(exts, ValidateExtension, NormalExtension);
      var j := RecvCapabilities(x).value;
      var c := WithArray(j, Codecs, ValidateCodec);
      assert c.Ok? <==> ValidateAll(RecvCodecs(x.codecs), ValidateCodec).Ok?;
      if c.Ok? {
        assert c.value.fields[HeaderExtensions] == Arr(exts);
      }
    }
  }

  // ---- From JSON to receive capabilities ------------------------------------------------------------

  predicate WellFormedCodec(c: Codec) {
    && IsMedia(c.mime) && c.kind == KindOf(c.mime)
    && (c.kind == "audio" <==> c.channels.Some?)
    && ParametersOk(c.params) && AllNormal(c.feedback, NormalFeedback)
  }

  lemma ReadWellFormed(c: Value)
    requires NormalCodec(c)
    ensures WellFormedCodec(ReadCodec(c))
  {
  }

  lemma JoinWellFormed(e: Extended, l: Codec, r: Codec)
    requires Joins(e, l, r) && WellFormedCodec(l) && WellFormedCodec(r)
    ensures WellFormed(e)
  {
    hide IsMedia, KindOf, Lowered;
    RewrittenOk(l, l.(params := e.localParams));
    forall i | 0 <= i < |e.feedback| ensures NormalFeedback(e.feedback[i]) {
      assert e.feedback[i] in r.feedback;
    }
  }

  lemma RewrittenOk(was: Codec, now: Codec)
    requires Rewritten(was, now) && ParametersOk(was.params)
    ensures ParametersOk(now.params)
  {
    forall k | k in now.params ensures ParameterOk(k, now.params[k]) {
      if !k.ProfileLevelId? {
        assert k in now.params - {ProfileLevelId};
        assert now.params[k] == (now.params - {ProfileLevelId})[k] == (was.params - {ProfileLevelId})[k];
      }
    }
  }

  lemma {:induction false} ExtensionsWellFormed(local: seq<Extension>, remote: seq<Extension>)
    requires forall i :: 0 <= i < |remote| ==> KindOk(remote[i].kind) && remote[i].uri != ""
    ensures forall k :: 0 <= k < |MatchExtensions(local, remote)| ==> WellFormedExt(MatchExtensions(local, remote)[k])
  {
    if remote != [] { ExtensionsWellFormed(local, remote[..|remote| - 1]); }
  }

  /** Capabilities that were negotiated from any two accepted JSON values. */
  lemma NegotiatedWellFormed(h: H264, local: Value, remote: Value)
    requires ExtendedOf(h, local, remote).Ok?
    ensures var x := ExtendedOf(h, local, remote).value;
            && Repairs(x.codecs)
            && (forall k :: 0 <= k < |x.codecs| ==> WellFormed(x.codecs[k]))
            && (forall k :: 0 <= k < |x.exts| ==> WellFormedExt(x.exts[k]))
  {
    CapabilitiesNormal(local);
    CapabilitiesNormal(remote);
    var jl := ValidateCapabilities(local).value;
    var jr := ValidateCapabilities(remote).value;
    var l, r := ReadCaps(jl), ReadCaps(jr);
    hide ValidateCapabilities, WellFormed, WellFormedCodec, NormalCodec, WellFormedExt, FindRtx, MatchFirst;
    var x := ExtendedOf(h, local, remote).value;
    NegotiatedJoins(h, l, r);
    var at := Taken(h, l.codecs, r.codecs, |r.codecs|);
    forall k | 0 <= k < |x.codecs| ensures WellFormed(x.codecs[k]) {
      var i :| 0 <= i < |l.codecs| && Joins(x.codecs[k], l.codecs[i], r.codecs[at[k]]);
      ReadWellFormed(jl.fields[Codecs].items[i]);
      ReadWellFormed(jr.fields[Codecs].items[at[k]]);
      JoinWellFormed(x.codecs[k], l.codecs[i], r.codecs[at[k]]);
    }
    forall i | 0 <= i < |r.exts| ensures KindOk(r.exts[i].kind) && r.exts[i].uri != "" {
      assert NormalExtension(jr.fields[HeaderExtensions].items[i]);
    }
    ExtensionsWellFormed(l.exts, r.exts);
    NegotiatedRepairs(h, l, r);
  }

  lemma NegotiatedRepairs(h: H264, l: Caps, r: Caps)
    requires Negotiate(h, l, r).Ok?
    ensures Repairs(Negotiate(h, l, r).value.codecs)
  {
    var p := MatchFirst(h, l.codecs, r.codecs, |r.codecs|).value;
    var es := Negotiate(h, l, r).value.codecs;
    forall k | 0 <= k < |es|
      ensures (es[k].localRtx.Some? ==> es[k].localPt.Some?) && (es[k].remoteRtx.Some? ==> es[k].remotePt.Some?)
    {
      NoRtxYet(h, l.codecs, r.codecs, |r.codecs|, k);
      assert es[k] == AddRtx(p.out[k], p.local, r.codecs);
    }
  }

  /** The capabilities one side states, as they are read after validation. */
  function ReadOf(v: Value): Caps
    requires ValidateCapabilities(v).Ok?
  {
    CapabilitiesNormal(v);
    ReadCaps(ValidateCapabilities(v).value)
  }

  /** Every remote codec that is matched states its payload type. */
  ghost predicate MatchedTyped(h: H264, l: Caps, r: Caps)
    requires Negotiate(h, l, r).Ok?
  {
    forall j :: j in Taken(h, l.codecs, r.codecs, |r.codecs|) ==> j < |r.codecs| && r.codecs[j].pt.Some?
  }

  lemma TypedIff(h: H264, l: Caps, r: Caps)
    requires Negotiate(h, l, r).Ok?
    ensures AllTyped(Negotiate(h, l, r).value.codecs) <==> MatchedTyped(h, l, r)
  {
    NegotiatedJoins(h, l, r);
    var es := Negotiate(h, l, r).value.codecs;
    var at := Taken(h, l.codecs, r.codecs, |r.codecs|);
    hide Negotiate, Taken, Rewritten, Reduce, Lowered, IsRtx;
    assert forall k :: 0 <= k < |es| ==> Joined(es[k], l.codecs, r.codecs[at[k]]);
    assert forall k :: 0 <= k < |es| ==> es[k].remotePt == r.codecs[at[k]].pt;
    if AllTyped(es) {
      forall j | j in at ensures j < |r.codecs| && r.codecs[j].pt.Some? {
        var k :| 0 <= k < |at| && at[k] == j;
        assert es[k].remotePt.Some?;
      }
    }
    if MatchedTyped(h, l, r) {
      forall k | 0 <= k < |es| ensures es[k].remotePt.Some? { assert at[k] in at; }
    }
  }

  /** For any two accepted JSON values that can be negotiated, the receive capabilities can be
      built and pass validation if and only if every matched remote codec states its payload
      type and every matched remote extension one of the four directions. */
  lemma RecvFromJsonAccepted(h: H264, local: Value, remote: Value)
    requires ExtendedOf(h, local, remote).Ok?
    ensures var x := ExtendedOf(h, local, remote).value; var l, r := ReadOf(local), ReadOf(remote);
            && Repairs(x.codecs) && Negotiate(h, l, r).Ok?
            && (RecvUsable(x) <==> MatchedTyped(h, l, r) && KnownDirections(l.exts, r.exts))
  {
    NegotiatedWellFormed(h, local, remote);
    var x := ExtendedOf(h, local, remote).value;
    var l, r := ReadOf(local), ReadOf(remote);
    assert Negotiate(h, l, r) == ExtendedOf(h, local, remote);
    hide ReadOf, MatchedTyped, AllTyped, Directed, KnownDirections, WellFormed, WellFormedExt, ExtendedOf, RecvUsable;
    RecvAccepted(x);
    TypedIff(h, l, r);
    DirectedIff(l.exts, r.exts);
  }

  // ---- Inputs on which they fail ----------------------------------------------------------

  lemma ExtendedReads(h: H264, local: Value, remote: Value)
    requires ValidateCapabilities(local).Ok? && ValidateCapabilities(remote).Ok?
    ensures ExtendedOf(h, local, remote) == Negotiate(h, ReadOf(local), ReadOf(remote))
  {
    hide Negotiate, ReadCaps, ValidateCapabilities;
  }

  function OneExtension(direction: string): Value {
    Obj(map[Kind := Str("audio"), Uri := Str("u"), PreferredId := Int(1), PreferredEncrypt := Bool(false),
            Direction := Str(direction)])
  }

  function OnlyExtension(direction: string): Value {
    Obj(map[Codecs := Arr([]), HeaderExtensions := Arr([OneExtension(direction)])])
  }

  lemma OnlyExtensionReads(d: string)
    ensures ValidateCapabilities(OnlyExtension(d)).Ok?
    ensures ReadOf(OnlyExtension(d)) == Caps([], [Extension("audio", "u", 1, false, d)])
  {
    var v := OnlyExtension(d);
    assert NormalExtension(OneExtension(d));
    assert NormalCapabilities(v);
    NormalCapabilitiesStay(v);
    hide ValidateCapabilities;
  }

  lemma NoCodecs(h: H264, xs: seq<Extension>, ys: seq<Extension>)
    ensures Negotiate(h, Caps([], xs), Caps([], ys)) == Ok(ExtendedCaps([], MatchExtensions(xs, ys)))
  {
    hide MatchExtensions, MatchOne, AddRtx;
  }

  lemma SidewaysUnknown()
    ensures Flip("sideways").None?
  {
  }

  /** A remote extension with a direction of its own passes validation and negotiation, and
      the receive capabilities cannot be built. */
  lemma UnknownDirection(h: H264)
    ensures var x := ExtendedOf(h, OnlyExtension("sendrecv"), OnlyExtension("sideways"));
            x.Ok? && Repairs(x.value.codecs) && RecvCapabilities(x.value).Err?
  {
    hide OnlyExtension, ReadOf, ExtendedOf, Negotiate, MatchExtensions, Directed, ValidateCapabilities, Flip,
      RecvCapabilities;
    OnlyExtensionReads("sendrecv");
    OnlyExtensionReads("sideways");
    ExtendedReads(h, OnlyExtension("sendrecv"), OnlyExtension("sideways"));
    var a, b := Extension("audio", "u", 1, false, "sendrecv"), Extension("audio", "u", 1, false, "sideways");
    NoCodecs(h, [a], [b]);
    SidewaysUnknown();
    assert a in [a] && b in [b] && SameExtension(a, b);
    DirectedIff([a], [b]);
  }

  function OneCodec(mime: string, pt: Option<int>, params: map<Key, Value>): Value {
    var m := map[MimeType := Str(mime), Kind := Str("audio"), ClockRate := Int(8000), Channels := Int(1),
                 Parameters := Obj(params), RtcpFeedback := Arr([])];
    Obj(if pt.Some? then m[PreferredPayloadType := Int(pt.value)] else m)
  }

  function OnlyCodec(pt: Option<int>): Value {
    Obj(map[Codecs := Arr([OneCodec("audio/x", pt, map[])]), HeaderExtensions := Arr([])])
  }

  lemma PlainIsMedia()
    ensures IsMedia("audio/x") && KindOf("audio/x") == "audio"
  {
    assert "audio/x"[..5] == "audio" && "audio/x"[6..] == "x";
  }

  function Read(mime: string, pt: Option<int>, params: map<Key, Value>): Codec {
    Codec(mime, "audio", 8000, pt, Some(1), params, [])
  }

  function Plain(pt: Option<int>): Codec { Read("audio/x", pt, map[]) }

  lemma OneCodecReads(mime: string, pt: Option<int>, params: map<Key, Value>)
    requires IsMedia(mime) && KindOf(mime) == "audio" && ParametersOk(params)
    ensures NormalCodec(OneCodec(mime, pt, params))
    ensures ReadCodec(OneCodec(mime, pt, params)) == Read(mime, pt, params)
  {
    hide IsMedia, KindOf, ParametersOk;
  }

  /** Normal codecs without header extensions read as they stand. */
  lemma CapsRead(cs: seq<Value>, rs: seq<Codec>)
    requires |rs| == |cs| && forall i :: 0 <= i < |cs| ==> NormalCodec(cs[i]) && ReadCodec(cs[i]) == rs[i]
    ensures var v := Obj(map[Codecs := Arr(cs), HeaderExtensions := Arr([])]);
            ValidateCapabilities(v).Ok? && ReadOf(v) == Caps(rs, [])
  {
    hide ReadCodec, NormalCodec, NormalExtension, ReadExtension;
    var v := Obj(map[Codecs := Arr(cs), HeaderExtensions := Arr([])]);
    assert NormalCapabilities(v);
    NormalCapabilitiesStay(v);
    hide ValidateCapabilities;
    assert ReadCaps(v).codecs == rs;
  }

  lemma OnlyCodecReads(pt: Option<int>)
    ensures ValidateCapabilities(OnlyCodec(pt)).Ok?
    ensures ReadOf(OnlyCodec(pt)) == Caps([Plain(pt)], [])
  {
    hide OneCodec, ReadCodec, NormalCodec, ValidateCapabilities, ReadOf;
    PlainIsMedia();
    OneCodecReads("audio/x", pt, map[]);
    CapsRead([OneCodec("audio/x", pt, map[])], [Plain(pt)]);
  }

  lemma OneEach(h: H264, a: Codec, b: Codec)
    requires MatchCodecs(h, a, b).Matches? && !IsRtx(b.mime)
    ensures Negotiate(h, Caps([a], []), Caps([b], [])).Ok? && MatchFirst(h, [a], [b], 1).Ok?
    ensures 0 in Taken(h, [a], [b], 1)
  {
    hide MatchCodecs, IsRtx;
    assert FindMatch(h, [a], b, 0) == At(0, MatchCodecs(h, a, b).params);
    assert MatchFirst(h, [a], [b], 0) == Ok(Progress([a], []));
    assert MatchFirst(h, [a], [b], 1) == MatchOne(h, Progress([a], []), b);
  }

  lemma PlainMatch(h: H264, a: Option<int>, b: Option<int>)
    ensures MatchCodecs(h, Plain(a), Plain(b)).Matches? && !IsRtx(Plain(b).mime)
  {
    PlainLowered();
    hide Lowered;
  }

  lemma PlainLowered()
    ensures |Lowered("audio/x")| == 7
  {
  }

  /** A remote codec without a payload type passes validation and is matched, and the receive
      capabilities do not pass validation. */
  lemma MissingPayloadType(h: H264)
    ensures var x := ExtendedOf(h, OnlyCodec(Some(96)), OnlyCodec(None));
            x.Ok? && Repairs(x.value.codecs) && !RecvUsable(x.value)
  {
    OnlyCodecReads(Some(96));
    OnlyCodecReads(None);
    var l, r := OnlyCodec(Some(96)), OnlyCodec(None);
    ExtendedReads(h, l, r);
    PlainMatch(h, Some(96), None);
    OneEach(h, Plain(Some(96)), Plain(None));
    assert Plain(None).pt.None?;
    hide OnlyCodec, ReadOf, ExtendedOf, Negotiate, Taken, RecvUsable, ValidateCapabilities, Plain, MatchCodecs;
    RecvFromJsonAccepted(h, l, r);
  }

  // A media codec and its RTX codec, which may lack a payload type.

  const REPAIRS := map[Apt := Int(96)]

  function Pair(rtx: Option<int>): seq<Codec> { [Plain(Some(96)), Read("audio/rtx", rtx, REPAIRS)] }

  function PairJson(rtx: Option<int>): Value {
    Obj(map[Codecs := Arr([OneCodec("audio/x", Some(96), map[]), OneCodec("audio/rtx", rtx, REPAIRS)]),
            HeaderExtensions := Arr([])])
  }

  lemma AudioRtx()
    ensures IsMedia("audio/rtx") && KindOf("audio/rtx") == "audio" && IsRtx("audio/rtx")
  {
    assert "audio" + "/rtx" == "audio/rtx";
    RtxIsMedia("audio");
    RtxNamed("audio");
  }

  lemma PairReads(rtx: Option<int>)
    ensures ValidateCapabilities(PairJson(rtx)).Ok?
    ensures ReadOf(PairJson(rtx)) == Caps(Pair(rtx), [])
  {
    hide OneCodec, ReadCodec, NormalCodec, ValidateCapabilities, ReadOf, IsMedia, KindOf, IsRtx;
    PlainIsMedia();
    AudioRtx();
    OneCodecReads("audio/x", Some(96), map[]);
    OneCodecReads("audio/rtx", rtx, REPAIRS);
    CapsRead([OneCodec("audio/x", Some(96), map[]), OneCodec("audio/rtx", rtx, REPAIRS)], Pair(rtx));
  }

  /** The first codecs match; the second is an RTX codec and is passed over. */
  lemma MatchThenSkip(h: H264, l: seq<Codec>, r: seq<Codec>)
    requires l != [] && |r| == 2 && MatchCodecs(h, l[0], r[0]) == Matches(l[0].params)
    requires !IsRtx(r[0].mime) && IsRtx(r[1].mime)
    ensures var p := MatchFirst(h, l, r, 2);
            && p.Ok? && p.value.local == l && |p.value.out| == 1
            && p.value.out[0].localPt == l[0].pt && p.value.out[0].remotePt == r[0].pt
            && p.value.out[0].localRtx.None? && p.value.out[0].remoteRtx.None?
  {
    hide MatchCodecs, IsRtx, Reduce;
    assert FindMatch(h, l, r[0], 0) == At(0, l[0].params);
    assert l[0 := l[0].(params := l[0].params)] == l;
    assert MatchFirst(h, l, r, 0) == Ok(Progress(l, []));
    hide FindMatch;
    assert MatchFirst(h, l, r, 1) == MatchOne(h, Progress(l, []), r[0]);
    assert MatchFirst(h, l, r, 2) == MatchFirst(h, l, r, 1);
  }

  lemma PairMatches(h: H264, a: Option<int>, b: Option<int>)
    ensures var p := MatchFirst(h, Pair(a), Pair(b), 2);
            && p.Ok? && p.value.local == Pair(a) && |p.value.out| == 1
            && p.value.out[0].localPt == Some(96) && p.value.out[0].remotePt == Some(96)
            && p.value.out[0].localRtx.None? && p.value.out[0].remoteRtx.None?
  {
    hide MatchCodecs, IsRtx, MatchFirst, IsMedia, KindOf;
    PlainIsNoRtx();
    AudioRtx();
    PlainUnchanged(h);
    MatchThenSkip(h, Pair(a), Pair(b));
  }

  lemma PlainUnchanged(h: H264)
    ensures MatchCodecs(h, Plain(Some(96)), Plain(Some(96))) == Matches(Plain(Some(96)).params)
    ensures Plain(Some(96)).pt == Some(96)
  {
    PlainLowered();
    hide Lowered;
  }

  /** A remote RTX codec without a payload type passes validation, and the local RTX payload
      type stands alone in what is negotiated. */
  lemma HalfTypedJson(h: H264)
    ensures var x := ExtendedOf(h, PairJson(Some(97)), PairJson(None));
            && x.Ok? && |x.value.codecs| == 1
            && x.value.codecs[0].localRtx == Some(97) && x.value.codecs[0].remoteRtx.None?
  {
    PairReads(Some(97));
    PairReads(None);
    ExtendedReads(h, PairJson(Some(97)), PairJson(None));
    PairMatches(h, Some(97), None);
    var e := MatchFirst(h, Pair(Some(97)), Pair(None), 2).value.out[0];
    PairRtx(Some(97));
    PairRtx(None);
    hide PairJson, ReadOf, ExtendedOf, ValidateCapabilities, MatchFirst, Pair, FindRtx;
    assert AddRtx(e, Pair(Some(97)), Pair(None)).localRtx == Some(97);
  }

  lemma PairRtx(rtx: Option<int>)
    ensures |Pair(rtx)| == 2
    ensures FindRtx(Pair(rtx), Some(96)) == Some(Read("audio/rtx", rtx, REPAIRS))
  {
    AudioRtx();
    var c := Read("audio/rtx", rtx, REPAIRS);
    PlainIsNoRtx();
    hide IsRtx;
    assert Pair(rtx)[1..] == [c] && IsRtxOf(c, Some(96)) && !IsRtxOf(Plain(Some(96)), Some(96));
  }

  lemma PlainIsNoRtx()
    ensures !IsRtx("audio/x")
  {
    PlainLowered();
    hide Lowered;
  }
}
