/** The parameters for sending one kind of media, as this side and as the other side sees
    them, and the parameters of the bandwidth probator. */
module RtpSending {
  import opened Json
  import opened Wrappers
  import opened RtpValidation
  import opened RtpNegotiation
  import opened RtpParameters

  const TRANSPORT_CC_URI := "http://www.ietf.org/id/draft-holmer-rmcat-transport-wide-cc-extensions-01"
  const ABS_SEND_TIME_URI := "http://www.webrtc.org/experiments/rtp-hdrext/abs-send-time"
  const PROBATOR_SSRC := 1234

  predicate CanSend(kind: string, es: seq<Extended>) { exists k :: 0 <= k < |es| && es[k].kind == kind }

  function FirstOfKind(kind: string, es: seq<Extended>): (r: Option<Extended>)
    ensures r.Some? ==> r.value in es && r.value.kind == kind
    ensures r.None? ==> forall k :: 0 <= k < |es| ==> es[k].kind != kind
  {
    if es == [] then None else if es[0].kind == kind then Some(es[0]) else FirstOfKind(kind, es[1..])
  }

  /** The first codec of the kind, with its own or the remote side's parameters. */
  function SendCodecs(kind: string, es: seq<Extended>, theirs: bool): seq<Value>
    requires Repairs(es)
  {
    var f := FirstOfKind(kind, es);
    if f.None? then []
    else
      var e := f.value;
      Emit(e, PayloadType, e.localPt, e.localRtx, if theirs then e.remoteParams else e.localParams)
  }

  function SendExtension(kind: string, x: ExtendedExt): (r: seq<Value>)
    requires x.kind == kind ==> x.direction.Some?
    ensures forall v :: v in r ==> v.HasStr(Uri)
  {
    if x.kind == kind && (x.direction.value == "sendrecv" || x.direction.value == "sendonly")
    then [Obj(map[Uri := Str(x.uri), Id := Int(x.sendId), Encrypt := Bool(x.encrypt), Parameters := Obj(map[])])]
    else []
  }

  /** The direction is read only of the extensions of the kind. */
  predicate DirectedFor(kind: string, xs: seq<ExtendedExt>) {
    forall k :: 0 <= k < |xs| && xs[k].kind == kind ==> xs[k].direction.Some?
  }

  /** Fails on an extension of the kind that has no direction. */
  function SendExtensions(kind: string, xs: seq<ExtendedExt>): (r: Result<seq<Value>>)
    ensures r.Ok? <==> DirectedFor(kind, xs)
    ensures r.Ok? ==> forall x :: x in r.value ==> x.HasStr(Uri)
  {
    if xs == [] then Ok([])
    else
      var n := |xs| - 1;
      var rest := SendExtensions(kind, xs[..n]);
      assert DirectedFor(kind, xs) <==> DirectedFor(kind, xs[..n]) && (xs[n].kind == kind ==> xs[n].direction.Some?);
      if rest.Err? || (xs[n].kind == kind && xs[n].direction.None?) then Err
      else Ok(rest.value + SendExtension(kind, xs[n]))
  }

  function SendParameters(codecs: seq<Value>, exts: seq<Value>): Value {
    Obj(map[Mid := Null, Codecs := Arr(codecs), HeaderExtensions := Arr(exts),
            Encodings := Arr([]), Rtcp := Obj(map[])])
  }

  function Sending(kind: string, x: ExtendedCaps): (r: Result<Value>)
    requires Repairs(x.codecs)
    ensures r.Ok? <==> DirectedFor(kind, x.exts)
  {
    var exts := SendExtensions(kind, x.exts);
    if exts.Err? then Err else Ok(SendParameters(SendCodecs(kind, x.codecs, false), exts.value))
  }

  // ---- Feedback the remote side may use ------------------------------------------------------

  predicate HasUri(exts: seq<Value>, uri: string) {
    exists k :: 0 <= k < |exts| && exts[k].HasStr(Uri) && exts[k].fields[Uri].s == uri
  }

  /** Transport-wide congestion control if it was negotiated, else REMB, else neither. */
  function Dropped(exts: seq<Value>): set<string> {
    if HasUri(exts, TRANSPORT_CC_URI) then {"goog-remb"}
    else if HasUri(exts, ABS_SEND_TIME_URI) then {"transport-cc"}
    else {"transport-cc", "goog-remb"}
  }

  predicate IsDropped(fb: Value, drop: set<string>) { fb.HasStr(Type) && fb.fields[Type].s in drop }

  function Keep(fbs: seq<Value>, drop: set<string>): seq<Value> {
    if fbs == [] then []
    else if IsDropped(fbs[0], drop) then Keep(fbs[1..], drop)
    else [fbs[0]] + Keep(fbs[1..], drop)
  }

  lemma {:induction false} KeepExact(fbs: seq<Value>, drop: set<string>, x: Value)
    ensures x in Keep(fbs, drop) <==> x in fbs && !IsDropped(x, drop)
  {
    if fbs != [] {
      KeepExact(fbs[1..], drop, x);
      assert fbs == [fbs[0]] + fbs[1..];
    }
  }

  /** Erasing in place while walking the list is the filter. */
  method EraseFeedback(fbs: seq<Value>, drop: set<string>) returns (r: seq<Value>)
    ensures r == Keep(fbs, drop)
  {
    hide IsDropped;
    r := fbs;
    var i := 0;
    while i < |r|
      invariant 0 <= i <= |r|
      invariant Keep(fbs, drop) == r[..i] + Keep(r[i..], drop)
      decreases |r| - i
    {
      ghost var done, rest := r[..i], r[i..];
      assert rest[0] == r[i] && rest[1..] == r[i + 1..];
      if IsDropped(r[i], drop) {
        r := r[..i] + r[i + 1..];
        assert r[..i] == done && r[i..] == rest[1..];
      } else {
        i := i + 1;
        assert r[..i] == done + [rest[0]] && r[i..] == rest[1..];
      }
    }
    assert r[i..] == [] && r[..i] == r;
  }

  function Reduced(c: Value, drop: set<string>): Value {
    if c.HasArr(RtcpFeedback) then c.Set(RtcpFeedback, Arr(Keep(c.fields[RtcpFeedback].items, drop))) else c
  }

  function AllReduced(cs: seq<Value>, drop: set<string>): (r: seq<Value>)
    ensures |r| == |cs| && forall k :: 0 <= k < |cs| ==> r[k] == Reduced(cs[k], drop)
  {
    if cs == [] then [] else [Reduced(cs[0], drop)] + AllReduced(cs[1..], drop)
  }

  function SendingRemote(kind: string, x: ExtendedCaps): (r: Result<Value>)
    requires Repairs(x.codecs)
    ensures r.Ok? <==> DirectedFor(kind, x.exts)
  {
    var exts := SendExtensions(kind, x.exts);
    if exts.Err? then Err
    else Ok(SendParameters(AllReduced(SendCodecs(kind, x.codecs, true), Dropped(exts.value)), exts.value))
  }

  // ---- The loops -----------------------------------------------------------------------------

  method BuildCodecs(kind: string, es: seq<Extended>, theirs: bool) returns (codecs: seq<Value>)
    requires Repairs(es)
    ensures codecs == SendCodecs(kind, es, theirs)
  {
    codecs := [];
    var i := 0;
    while i < |es|
      invariant 0 <= i <= |es| && codecs == []
      invariant FirstOfKind(kind, es) == FirstOfKind(kind, es[i..])
    {
      var e := es[i];
      if e.kind == kind {
        codecs := codecs + [Media(e, PayloadType, e.localPt, if theirs then e.remoteParams else e.localParams)];
        if e.localRtx.Some? {
          codecs := codecs + [RtxCodec(e, PayloadType, e.localPt.value, e.localRtx)];
        }
        break;
      }
      assert es[i..][1..] == es[i + 1..];
      i := i + 1;
    }
  }

  method BuildExtensions(kind: string, xs: seq<ExtendedExt>) returns (r: Result<seq<Value>>)
    ensures r == SendExtensions(kind, xs)
  {
    var exts := [];
    for i := 0 to |xs|
      invariant SendExtensions(kind, xs[..i]) == Ok(exts)
    {
      assert xs[..i + 1][..i] == xs[..i];
      if xs[i].kind == kind && xs[i].direction.None? { return Err; }
      exts := exts + SendExtension(kind, xs[i]);
    }
    assert xs[..|xs|] == xs;
    return Ok(exts);
  }

  method GetSending(kind: string, x: ExtendedCaps) returns (r: Result<Value>)
    requires Repairs(x.codecs)
    ensures r == Sending(kind, x)
  {
    var codecs := BuildCodecs(kind, x.codecs, false);
    var exts := BuildExtensions(kind, x.exts);
    if exts.Err? { return Err; }
    return Ok(SendParameters(codecs, exts.value));
  }

  method GetSendingRemote(kind: string, x: ExtendedCaps) returns (r: Result<Value>)
    requires Repairs(x.codecs)
    ensures r == SendingRemote(kind, x)
  {
    hide Reduced, SendCodecs, SendExtensions, Dropped, DirectedFor;
    var codecs := BuildCodecs(kind, x.codecs, true);
    var exts := BuildExtensions(kind, x.exts);
    if exts.Err? { return Err; }
    codecs := ReduceCodecs(codecs, Dropped(exts.value));
    return Ok(SendParameters(codecs, exts.value));
  }

  method ReduceCodecs(was: seq<Value>, drop: set<string>) returns (codecs: seq<Value>)
    ensures codecs == AllReduced(was, drop)
  {
    codecs := was;
    for i := 0 to |codecs|
      invariant |codecs| == |was|
      invariant forall k :: 0 <= k < i ==> codecs[k] == Reduced(was[k], drop)
      invariant forall k :: i <= k < |was| ==> codecs[k] == was[k]
    {
      if codecs[i].HasArr(RtcpFeedback) {
        var fbs := EraseFeedback(codecs[i].fields[RtcpFeedback].items, drop);
        codecs := codecs[i := codecs[i].Set(RtcpFeedback, Arr(fbs))];
      }
    }
  }

  // ---- What the two sides agree on -------------------------------------------------------------

  function CodecsOf(v: Value): seq<Value> { if v.HasArr(Codecs) then v.fields[Codecs].items else [] }

  /** The codec list is empty exactly when the kind cannot be sent. */
  lemma SendsIff(kind: string, x: ExtendedCaps)
    requires Repairs(x.codecs)
    ensures Sending(kind, x).Ok? ==> (CodecsOf(Sending(kind, x).value) != [] <==> CanSend(kind, x.codecs))
    ensures SendingRemote(kind, x).Ok? ==> (CodecsOf(SendingRemote(kind, x).value) != [] <==> CanSend(kind, x.codecs))
  {
    hide SendExtensions, DirectedFor, Reduced;
    var f := FirstOfKind(kind, x.codecs);
    if f.Some? {
      var k :| 0 <= k < |x.codecs| && x.codecs[k] == f.value;
    }
  }

  /** Local and remote parameters are built or fail together. They have the same header
      extensions and, codec by codec, differ only in the codec's parameters and feedback; the
      remote feedback is the local one without the entries that were dropped. */
  lemma SidesAgree(kind: string, x: ExtendedCaps)
    requires Repairs(x.codecs)
    ensures Sending(kind, x).Ok? <==> SendingRemote(kind, x).Ok?
    ensures Sending(kind, x).Ok? ==>
              var l, r := Sending(kind, x).value, SendingRemote(kind, x).value;
              var drop := Dropped(SendExtensions(kind, x.exts).value);
              && SameBut(l, r, {Codecs}) && |CodecsOf(l)| == |CodecsOf(r)|
              && forall k :: 0 <= k < |CodecsOf(l)| ==> AgreeOn(CodecsOf(l)[k], CodecsOf(r)[k], drop, k)
  {
    hide SendExtensions, DirectedFor, Dropped, Media, RtxCodec, AgreeOn, Reduced;
    if Sending(kind, x).Ok? {
      var drop := Dropped(SendExtensions(kind, x.exts).value);
      var f := FirstOfKind(kind, x.codecs);
      if f.Some? {
        var e := f.value;
        MediaAgree(e, drop);
        if e.localRtx.Some? { RtxAgree(e, e.localPt.value, drop); }
      }
    }
  }

  predicate AgreeOn(l: Value, r: Value, drop: set<string>, k: nat) {
    && SameBut(l, r, {Parameters, RtcpFeedback})
    && l.HasArr(RtcpFeedback) && r.HasArr(RtcpFeedback)
    && r.fields[RtcpFeedback].items == Keep(l.fields[RtcpFeedback].items, drop)
    && (k > 0 ==> l == r)
  }

  lemma MediaAgree(e: Extended, drop: set<string>)
    ensures AgreeOn(Media(e, PayloadType, e.localPt, e.localParams),
                    Reduced(Media(e, PayloadType, e.localPt, e.remoteParams), drop), drop, 0)
  {
  }

  lemma RtxAgree(e: Extended, pt: int, drop: set<string>)
    ensures var c := RtxCodec(e, PayloadType, pt, e.localRtx); AgreeOn(c, Reduced(c, drop), drop, 1)
  {
    var c := RtxCodec(e, PayloadType, pt, e.localRtx);
    SetSame(c, RtcpFeedback);
  }

  // ---- Which codec, and whose parameters --------------------------------------------------------

  predicate FirstAt(kind: string, es: seq<Extended>, j: nat) {
    j < |es| && es[j].kind == kind && forall k :: 0 <= k < j ==> es[k].kind != kind
  }

  /** The members of an emitted media codec, one by one. */
  predicate Describes(c: Value, e: Extended, params: map<Key, Value>) {
    && c.HasStr(MimeType) && c.fields[MimeType].s == e.mime
    && c.HasInt(ClockRate) && c.fields[ClockRate].i == e.clock
    && c.Has(PayloadType)
    && (if e.localPt.Some? then c.fields[PayloadType] == Int(e.localPt.value) else c.fields[PayloadType].Null?)
    && (if e.channels.Some? then c.HasInt(Channels) && c.fields[Channels].i == e.channels.value else !c.Has(Channels))
    && c.HasObj(Parameters) && c.fields[Parameters].fields == params
    && c.HasArr(RtcpFeedback)
  }

  /** The first extended codec of the kind is what is sent, under the local payload type: with
      the local parameters as this side sees it, with the remote ones as the other does. */
  lemma SendsFirst(kind: string, x: ExtendedCaps, j: nat)
    requires Repairs(x.codecs) && FirstAt(kind, x.codecs, j) && Sending(kind, x).Ok?
    ensures SendingRemote(kind, x).Ok?
    ensures var l, r, e := CodecsOf(Sending(kind, x).value), CodecsOf(SendingRemote(kind, x).value), x.codecs[j];
            && |l| == |r| == (if e.localRtx.Some? then 2 else 1)
            && Describes(l[0], e, e.localParams) && Describes(r[0], e, e.remoteParams)
            && l[0].fields[RtcpFeedback].items == e.feedback
  {
    hide SendExtensions, DirectedFor, Dropped, Media, RtxCodec, Describes, Reduced, FirstOfKind, SendCodecs, Repairs;
    var e := x.codecs[j];
    SentCodecs(kind, x.codecs, j);
    MediaDescribes(e, e.localParams);
    MediaDescribes(e, e.remoteParams);
    var drop := Dropped(SendExtensions(kind, x.exts).value);
    ReducedDescribes(Media(e, PayloadType, e.localPt, e.remoteParams), e, e.remoteParams, drop);
  }

  lemma SentCodecs(kind: string, es: seq<Extended>, j: nat)
    requires Repairs(es) && FirstAt(kind, es, j)
    ensures var e, l, r := es[j], SendCodecs(kind, es, false), SendCodecs(kind, es, true);
            && |l| == |r| == (if e.localRtx.Some? then 2 else 1)
            && l[0] == Media(e, PayloadType, e.localPt, e.localParams)
            && r[0] == Media(e, PayloadType, e.localPt, e.remoteParams)
  {
    hide Media, RtxCodec, FirstOfKind;
    FirstIs(kind, es, j);
  }

  lemma {:induction false} FirstIs(kind: string, es: seq<Extended>, j: nat)
    requires FirstAt(kind, es, j)
    ensures FirstOfKind(kind, es) == Some(es[j])
  {
    if j > 0 {
      assert FirstAt(kind, es[1..], j - 1);
      FirstIs(kind, es[1..], j - 1);
    }
  }

  lemma MediaDescribes(e: Extended, params: map<Key, Value>)
    ensures var c := Media(e, PayloadType, e.localPt, params);
            Describes(c, e, params) && c.fields[RtcpFeedback].items == e.feedback
  {
  }

  lemma ReducedDescribes(c: Value, e: Extended, params: map<Key, Value>, drop: set<string>)
    requires Describes(c, e, params)
    ensures Describes(Reduced(c, drop), e, params)
  {
    hide Keep;
  }

  /** Back to the two offers: the sender's payload type and, a rewritten H.264 profile apart,
      the sender's parameters on this side; the receiver's parameters on the other. */
  lemma SendsOffered(h: H264, local: Caps, remote: Caps, kind: string, j: nat) returns (l: Codec, r: Codec)
    requires Negotiate(h, local, remote).Ok?
    requires FirstAt(kind, Negotiate(h, local, remote).value.codecs, j)
    requires KnownFor(kind, local.exts, remote.exts)
    ensures var x := Negotiate(h, local, remote).value; var e := x.codecs[j];
            && Repairs(x.codecs) && Sending(kind, x).Ok? && SendingRemote(kind, x).Ok?
            && l in local.codecs && r in remote.codecs && Joins(e, l, r)
            && var mine, theirs := CodecsOf(Sending(kind, x).value), CodecsOf(SendingRemote(kind, x).value);
               && |mine| > 0 && |theirs| > 0
               && Describes(mine[0], e, e.localParams) && (e.localParams == l.params || IsAvc(l.mime))
               && e.localParams - {ProfileLevelId} == l.params - {ProfileLevelId}
               && Describes(theirs[0], e, r.params) && e.localPt == l.pt
  {
    BuiltIff(h, local, remote, kind);
    NegotiatedJoins(h, local, remote);
    var x := Negotiate(h, local, remote).value;
    var at := Taken(h, local.codecs, remote.codecs, |remote.codecs|);
    hide Negotiate, Taken, Sending, SendingRemote, Describes, Lowered, Reduce, KnownFor, Increasing;
    SendsFirst(kind, x, j);
    r := remote.codecs[at[j]];
    assert Joined(x.codecs[j], local.codecs, r);
    var i :| 0 <= i < |local.codecs| && Joins(x.codecs[j], local.codecs[i], r);
    l := local.codecs[i];
  }

  /** Which congestion control feedback the other side may use: transport-wide if its header
      extension was negotiated, REMB if only the absolute send time was; all else stays. */
  predicate MayUse(fb: Value, exts: seq<Value>) {
    && (fb.HasStr(Type) && fb.fields[Type].s == "transport-cc" ==> HasUri(exts, TRANSPORT_CC_URI))
    && (fb.HasStr(Type) && fb.fields[Type].s == "goog-remb" ==>
          HasUri(exts, ABS_SEND_TIME_URI) && !HasUri(exts, TRANSPORT_CC_URI))
  }

  lemma FeedbackExact(kind: string, x: ExtendedCaps, k: nat, fb: Value)
    requires Repairs(x.codecs) && Sending(kind, x).Ok? && k < |CodecsOf(Sending(kind, x).value)|
    ensures SendingRemote(kind, x).Ok? && k < |CodecsOf(SendingRemote(kind, x).value)|
    ensures var l, r := CodecsOf(Sending(kind, x).value)[k], CodecsOf(SendingRemote(kind, x).value)[k];
            && l.HasArr(RtcpFeedback) && r.HasArr(RtcpFeedback)
            && (fb in r.fields[RtcpFeedback].items <==>
                fb in l.fields[RtcpFeedback].items && MayUse(fb, SendExtensions(kind, x.exts).value))
  {
    SidesAgree(kind, x);
    hide Sending, SendingRemote, SendExtensions, HasUri;
    var exts, l := SendExtensions(kind, x.exts).value, CodecsOf(Sending(kind, x).value)[k];
    assert AgreeOn(l, CodecsOf(SendingRemote(kind, x).value)[k], Dropped(exts), k);
    KeepExact(l.fields[RtcpFeedback].items, Dropped(exts), fb);
    DroppedExact(fb, exts);
    hide Dropped, MayUse, IsDropped, Keep;
  }

  lemma DroppedExact(fb: Value, exts: seq<Value>)
    ensures IsDropped(fb, Dropped(exts)) <==> !MayUse(fb, exts)
  {
    hide HasUri;
    assert "transport-cc" != "goog-remb" by { assert "transport-cc"[0] != "goog-remb"[0]; }
  }

  predicate Lists(c: Value, name: string) {
    && c.HasArr(RtcpFeedback)
    && exists fb :: fb in c.fields[RtcpFeedback].items && fb.HasStr(Type) && fb.fields[Type].s == name
  }

  /** No codec of the remote parameters lists both congestion controls, and one is listed
      only if its header extension was negotiated. */
  lemma NeverBoth(kind: string, x: ExtendedCaps, k: nat)
    requires Repairs(x.codecs) && SendingRemote(kind, x).Ok? && k < |CodecsOf(SendingRemote(kind, x).value)|
    ensures var c := CodecsOf(SendingRemote(kind, x).value)[k]; var exts := SendExtensions(kind, x.exts).value;
            && !(Lists(c, "transport-cc") && Lists(c, "goog-remb"))
            && (Lists(c, "transport-cc") ==> HasUri(exts, TRANSPORT_CC_URI))
            && (Lists(c, "goog-remb") ==> HasUri(exts, ABS_SEND_TIME_URI))
  {
    hide HasUri, SendCodecs, SendExtensions, DirectedFor, Reduced, Lists;
    var drop := Dropped(SendExtensions(kind, x.exts).value);
    var was := SendCodecs(kind, x.codecs, true)[k];
    if "transport-cc" in drop { ReducedLists(was, drop, "transport-cc"); }
    if "goog-remb" in drop { ReducedLists(was, drop, "goog-remb"); }
  }

  lemma ReducedLists(c: Value, drop: set<string>, name: string)
    requires name in drop
    ensures !Lists(Reduced(c, drop), name)
  {
    if c.HasArr(RtcpFeedback) {
      var fbs := c.fields[RtcpFeedback].items;
      forall x ensures x in Keep(fbs, drop) <==> x in fbs && !IsDropped(x, drop) { KeepExact(fbs, drop, x); }
    }
  }

  lemma {:induction false} SendExtensionFrom(kind: string, xs: seq<ExtendedExt>, v: Value)
    requires SendExtensions(kind, xs).Ok? && v in SendExtensions(kind, xs).value
    ensures exists x :: x in xs && (x.kind == kind ==> x.direction.Some?) && v in SendExtension(kind, x)
  {
    var n := |xs| - 1;
    assert xs == xs[..n] + [xs[n]];
    if v in SendExtensions(kind, xs[..n]).value {
      SendExtensionFrom(kind, xs[..n], v);
    } else {
      assert v in SendExtension(kind, xs[n]);
    }
  }

  /** What the sender states of an extension. */
  function Stated(l: Extension): Value {
    Obj(map[Uri := Str(l.uri), Id := Int(l.id), Encrypt := Bool(l.encrypt), Parameters := Obj(map[])])
  }

  /** An extension to be sent has the identifier and encryption this side gave it, and the
      remote side may receive it. */
  lemma SendExtensionOrigin(kind: string, local: seq<Extension>, remote: seq<Extension>, v: Value)
    requires SendExtensions(kind, MatchExtensions(local, remote)).Ok?
    requires v in SendExtensions(kind, MatchExtensions(local, remote)).value
    ensures exists l, r :: l in local && r in remote && SameExtension(l, r) && l.kind == kind
              && v == Stated(l) && (r.direction == "sendrecv" || r.direction == "recvonly")
  {
    var xs := MatchExtensions(local, remote);
    SendExtensionFrom(kind, xs, v);
    var x :| x in xs && (x.kind == kind ==> x.direction.Some?) && v in SendExtension(kind, x);
    ExtensionsJoined(local, remote, x);
    var l, r :| l in local && r in remote && SameExtension(l, r) && x == JoinExtension(l, r);
    FlipReceives(r.direction);
    hide Flip;
    assert v == Stated(l);
  }

  /** Every remote extension of the kind that has a local partner has one of the four
      directions. */
  predicate KnownFor(kind: string, local: seq<Extension>, remote: seq<Extension>) {
    forall l, r :: l in local && r in remote && SameExtension(l, r) && r.kind == kind ==> Flip(r.direction).Some?
  }

  /** What the two sides must offer for the parameters of a kind to be built. */
  lemma BuiltIff(h: H264, local: Caps, remote: Caps, kind: string)
    requires Negotiate(h, local, remote).Ok?
    ensures var x := Negotiate(h, local, remote).value;
            && Repairs(x.codecs)
            && (Sending(kind, x).Ok? <==> KnownFor(kind, local.exts, remote.exts))
            && (SendingRemote(kind, x).Ok? <==> KnownFor(kind, local.exts, remote.exts))
  {
    hide Flip, Sending, SendingRemote;
    NegotiatedRepairs(h, local, remote);
    var xs := MatchExtensions(local.exts, remote.exts);
    assert Negotiate(h, local, remote).value.exts == xs;
    hide MatchExtensions, FindExtension, Negotiate;
    if DirectedFor(kind, xs) {
      forall l, r | l in local.exts && r in remote.exts && SameExtension(l, r) && r.kind == kind
        ensures Flip(r.direction).Some?
      {
        ExtensionsComplete(local.exts, remote.exts, l, r);
      }
    }
    if KnownFor(kind, local.exts, remote.exts) {
      forall k | 0 <= k < |xs| && xs[k].kind == kind ensures xs[k].direction.Some? {
        ExtensionsJoined(local.exts, remote.exts, xs[k]);
      }
    }
  }

  /** The values of UnknownDirection: nothing of that kind can be sent either. */
  lemma UnknownDirectionSends(h: H264)
    ensures var x := ExtendedOf(h, OnlyExtension("sendrecv"), OnlyExtension("sideways"));
            && x.Ok? && Repairs(x.value.codecs)
            && Sending("audio", x.value).Err? && SendingRemote("audio", x.value).Err?
  {
    hide OnlyExtension, ReadOf, ExtendedOf, Negotiate, ValidateCapabilities, Flip, Sending, SendingRemote;
    OnlyExtensionReads("sendrecv");
    OnlyExtensionReads("sideways");
    var l, r := OnlyExtension("sendrecv"), OnlyExtension("sideways");
    ExtendedReads(h, l, r);
    var a, b := Extension("audio", "u", 1, false, "sendrecv"), Extension("audio", "u", 1, false, "sideways");
    NoCodecs(h, [a], [b]);
    SidewaysUnknown();
    assert a in [a] && b in [b] && SameExtension(a, b);
    BuiltIff(h, ReadOf(l), ReadOf(r), "audio");
  }

  // ---- RTX in everything that is emitted -----------------------------------------------------

  lemma NegotiatedUsable(h: H264, local: Caps, remote: Caps)
    requires Negotiate(h, local, remote).Ok?
    requires HasPayloadTypes(local.codecs) && HasPayloadTypes(remote.codecs)
    ensures AllUsable(Negotiate(h, local, remote).value.codecs, local.codecs, remote.codecs)
  {
    Negotiated(h, local, remote);
    var es := Negotiate(h, local, remote).value.codecs;
    var at := Taken(h, local.codecs, remote.codecs, |remote.codecs|);
    hide Negotiate, Taken, Paired, Rewritten, Reduce, Lowered;
    forall k | 0 <= k < |es| ensures Usable(es[k], local.codecs, remote.codecs) {
      assert Joined(es[k], local.codecs, remote.codecs[at[k]]);
    }
  }

  /** Every RTX codec stands right after the media codec its apt names, and has the payload
      type and apt of an RTX codec in `codecs`. */
  predicate RtxInPlace(cs: seq<Value>, key: Key, codecs: seq<Codec>) {
    forall k :: 0 <= k < |cs| && IsRtxJson(cs[k]) ==> FollowsItsMedia(cs, k, key) && Offered(cs[k], key, codecs)
  }

  lemma SendRtx(kind: string, es: seq<Extended>, local: seq<Codec>, remote: seq<Codec>, theirs: bool)
    requires AllUsable(es, local, remote) && Repairs(es)
    ensures RtxInPlace(SendCodecs(kind, es, theirs), PayloadType, local)
  {
    hide Media, RtxCodec, IsRtxJson, FollowsItsMedia, Offered, Usable;
    var f := FirstOfKind(kind, es);
    if f.Some? {
      var i :| 0 <= i < |es| && es[i] == f.value;
      UsableSends(f.value, local, remote, if theirs then f.value.remoteParams else f.value.localParams);
    }
  }

  lemma UsableSends(e: Extended, local: seq<Codec>, remote: seq<Codec>, params: map<Key, Value>)
    requires Usable(e, local, remote)
    ensures var cs := Emit(e, PayloadType, e.localPt, e.localRtx, params);
            && !IsRtxJson(cs[0])
            && (e.localRtx.Some? ==>
                  |cs| == 2 && FollowsItsMedia(cs, 1, PayloadType) && Offered(cs[1], PayloadType, local))
  {
    hide Media, RtxCodec, IsRtxJson, FollowsItsMedia, Offered;
    EmitRtx(e, PayloadType, e.localPt, e.localRtx, params, local);
  }

  predicate SameAs(c: Value, r: Value, k: Key) {
    (r.Has(k) <==> c.Has(k)) && (c.Has(k) ==> r.fields[k] == c.fields[k])
  }

  /** What places an RTX codec. */
  predicate SamePlace(c: Value, r: Value) {
    SameAs(c, r, MimeType) && SameAs(c, r, Parameters) && SameAs(c, r, PayloadType) && SameAs(c, r, ClockRate)
  }

  lemma ReducedPlace(c: Value, drop: set<string>)
    ensures SamePlace(c, Reduced(c, drop))
  {
    hide Keep;
  }

  lemma PlaceKept(cs: seq<Value>, rs: seq<Value>, k: nat, codecs: seq<Codec>)
    requires |rs| == |cs| && k < |rs| && SamePlace(cs[k], rs[k]) && (k > 0 ==> SamePlace(cs[k - 1], rs[k - 1]))
    ensures IsRtxJson(rs[k]) <==> IsRtxJson(cs[k])
    ensures FollowsItsMedia(cs, k, PayloadType) ==> FollowsItsMedia(rs, k, PayloadType)
    ensures Offered(cs[k], PayloadType, codecs) ==> Offered(rs[k], PayloadType, codecs)
  {
    hide IsRtx;
  }

  lemma ReducedInPlace(cs: seq<Value>, drop: set<string>, codecs: seq<Codec>)
    requires RtxInPlace(cs, PayloadType, codecs)
    ensures RtxInPlace(AllReduced(cs, drop), PayloadType, codecs)
  {
    hide IsRtxJson, FollowsItsMedia, Offered, Reduced, SamePlace;
    var rs := AllReduced(cs, drop);
    hide AllReduced;
    forall k | 0 <= k < |rs| && IsRtxJson(rs[k])
      ensures FollowsItsMedia(rs, k, PayloadType) && Offered(rs[k], PayloadType, codecs)
    {
      ReducedPlace(cs[k], drop);
      if k > 0 { ReducedPlace(cs[k - 1], drop); }
      PlaceKept(cs, rs, k, codecs);
    }
  }

  /** In everything that is made from a negotiation in which all codecs have payload types
      below 128, for receiving, for sending and for the remote side, the RTX codecs are in
      place and were offered: by the remote side for receiving, by this side for sending. */
  lemma EveryRtx(h: H264, local: Caps, remote: Caps, kind: string)
    requires Negotiate(h, local, remote).Ok?
    requires HasPayloadTypes(local.codecs) && HasPayloadTypes(remote.codecs)
    ensures var x := Negotiate(h, local, remote).value;
            && Repairs(x.codecs)
            && (RecvCapabilities(x).Ok? ==>
                  RtxInPlace(CodecsOf(RecvCapabilities(x).value), PreferredPayloadType, remote.codecs))
            && (Sending(kind, x).Ok? ==> RtxInPlace(CodecsOf(Sending(kind, x).value), PayloadType, local.codecs))
            && (SendingRemote(kind, x).Ok? ==>
                  RtxInPlace(CodecsOf(SendingRemote(kind, x).value), PayloadType, local.codecs))
  {
    hide Negotiate, RecvCodecs, SendCodecs, AllReduced, RtxInPlace, SendExtensions, RecvExtensions, Dropped, AllUsable,
      Repairs, DirectedFor, Directed, HasPayloadTypes;
    NegotiatedRepairs(h, local, remote);
    NegotiatedUsable(h, local, remote);
    var x := Negotiate(h, local, remote).value;
    AllRecvRtx(x.codecs, local.codecs, remote.codecs);
    SendRtx(kind, x.codecs, local.codecs, remote.codecs, false);
    SendRtx(kind, x.codecs, local.codecs, remote.codecs, true);
    if SendingRemote(kind, x).Ok? {
      ReducedInPlace(SendCodecs(kind, x.codecs, true), Dropped(SendExtensions(kind, x.exts).value), local.codecs);
    }
  }

  lemma AllRecvRtx(es: seq<Extended>, local: seq<Codec>, remote: seq<Codec>)
    requires AllUsable(es, local, remote) && Repairs(es)
    ensures RtxInPlace(RecvCodecs(es), PreferredPayloadType, remote)
  {
    hide AllUsable, RecvCodecs, IsRtxJson, FollowsItsMedia, Offered;
    forall k | 0 <= k < |RecvCodecs(es)| && IsRtxJson(RecvCodecs(es)[k])
      ensures FollowsItsMedia(RecvCodecs(es), k, PreferredPayloadType)
      ensures Offered(RecvCodecs(es)[k], PreferredPayloadType, remote)
    {
      RecvRtx(es, local, remote, k);
    }
  }

  // ---- The probator ---------------------------------------------------------------------------------

  predicate IsProbed(x: Value) {
    x.HasStr(Uri) && (x.fields[Uri].s == ABS_SEND_TIME_URI || x.fields[Uri].s == TRANSPORT_CC_URI)
  }

  function Probed(xs: seq<Value>): (r: seq<Value>)
    ensures forall x :: x in r ==> x in xs && IsProbed(x)
  {
    if xs == [] then []
    else Probed(xs[..|xs| - 1]) + if IsProbed(xs[|xs| - 1]) then [xs[|xs| - 1]] else []
  }

  function ProbatorOf(codec: Value, exts: seq<Value>): Value {
    Obj(map[Mid := Str("probator"), Codecs := Arr([codec]), HeaderExtensions := Arr(exts),
            Encodings := Arr([Obj(map[Ssrc := Int(PROBATOR_SSRC)])]),
            Rtcp := Obj(map[Cname := Str("probator")])])
  }

  /** The first codec of the video parameters; indexing an empty array yields a null. */
  function Probator(params: Value): Result<Value> {
    var v := ValidateParameters(params);
    if v.Err? then Err
    else
      ParametersNormal(params);
      var cs := v.value.fields[Codecs].items;
      Ok(ProbatorOf(if cs == [] then Null else cs[0], Probed(v.value.fields[HeaderExtensions].items)))
  }

  method GenerateProbator(params: Value) returns (r: Result<Value>)
    ensures r == Probator(params)
  {
    hide ValidateParameters, AllNormal, IsProbed;
    ParametersNormal(params);
    var v := ValidateParameters(params);
    if v.Err? { return Err; }
    var cs := v.value.fields[Codecs].items;
    var xs := v.value.fields[HeaderExtensions].items;
    var exts := [];
    for i := 0 to |xs|
      invariant exts == Probed(xs[..i])
    {
      assert xs[..i + 1][..i] == xs[..i];
      if IsProbed(xs[i]) { exts := exts + [xs[i]]; }
    }
    assert xs[..|xs|] == xs;
    return Ok(ProbatorOf(if cs == [] then Null else cs[0], exts));
  }

  /** The probator: the first codec of the video parameters as they are validated, the two
      congestion control extensions among theirs, and its own identifiers. */
  lemma ProbatorSays(params: Value)
    requires Probator(params).Ok?
    ensures var v, p := ValidateParameters(params).value, Probator(params).value;
            && v.HasArr(Codecs) && v.HasArr(HeaderExtensions) && p.HasArr(Codecs) && p.HasArr(HeaderExtensions)
            && p.HasStr(Mid) && p.fields[Mid].s == "probator"
            && (v.fields[Codecs].items != [] ==> p.fields[Codecs].items == [v.fields[Codecs].items[0]])
            && (forall e :: e in p.fields[HeaderExtensions].items <==>
                  e in v.fields[HeaderExtensions].items && e.HasStr(Uri) &&
                  (e.fields[Uri].s == ABS_SEND_TIME_URI || e.fields[Uri].s == TRANSPORT_CC_URI))
            && p.HasArr(Encodings) && p.fields[Encodings].items == [Obj(map[Ssrc := Int(1234)])]
            && p.Has(Rtcp) && p.fields[Rtcp] == Obj(map[Cname := Str("probator")])
  {
    hide ValidateParameters, NormalCodecParameters, NormalExtensionParameters, NormalEncoding, NormalRtcp, Probed,
      IsProbed;
    ParametersNormal(params);
    var v := ValidateParameters(params).value;
    forall e
      ensures e in Probed(v.fields[HeaderExtensions].items) <==> e in v.fields[HeaderExtensions].items && IsProbed(e)
    {
      ProbedExact(v.fields[HeaderExtensions].items, e);
    }
    ProbedUris();
  }

  lemma ProbedUris()
    ensures forall e: Value :: IsProbed(e) <==>
              e.HasStr(Uri) && (e.fields[Uri].s == ABS_SEND_TIME_URI || e.fields[Uri].s == TRANSPORT_CC_URI)
  {
  }

  lemma {:induction false} ProbedExact(xs: seq<Value>, e: Value)
    ensures e in Probed(xs) <==> e in xs && IsProbed(e)
  {
    hide IsProbed;
    if xs != [] {
      var n := |xs| - 1;
      ProbedExact(xs[..n], e);
      assert xs == xs[..n] + [xs[n]];
    }
  }

  /** Probator parameters are accepted exactly when the video parameters have a codec. */
  lemma ProbatorAcceptedIff(params: Value)
    requires Probator(params).Ok?
    ensures ValidateParameters(Probator(params).value).Ok?
            <==> ValidateParameters(params).value.fields[Codecs].items != []
  {
    hide ValidateParameters, NormalExtensionParameters, ProbatorOf, IsMedia, NormalBody;
    ParametersNormal(params);
    var v := ValidateParameters(params).value;
    var cs := v.fields[Codecs].items;
    ProbedNormal(v.fields[HeaderExtensions].items);
    ProbatorParts(if cs == [] then Null else cs[0], Probed(v.fields[HeaderExtensions].items));
  }

  /** Video parameters without codecs are accepted, and their probator is not. */
  lemma NoCodecToProbe()
    ensures var params := Obj(map[Codecs := Arr([]), HeaderExtensions := Arr([]), Encodings := Arr([]),
                                  Rtcp := Obj(map[ReducedSize := Bool(true)])]);
            Probator(params).Ok? && ValidateParameters(Probator(params).value).Err?
  {
    hide ValidateParameters;
    var params := Obj(map[Codecs := Arr([]), HeaderExtensions := Arr([]), Encodings := Arr([]),
                          Rtcp := Obj(map[ReducedSize := Bool(true)])]);
    assert NormalParameters(params);
    NormalParametersStay(params);
    ProbatorAcceptedIff(params);
  }

  lemma ProbedNormal(xs: seq<Value>)
    requires AllNormal(xs, NormalExtensionParameters)
    ensures AllNormal(Probed(xs), NormalExtensionParameters)
  {
    hide NormalExtensionParameters, IsProbed;
    var r := Probed(xs);
    forall i | 0 <= i < |r| ensures NormalExtensionParameters(r[i]) {
      assert r[i] in xs;
    }
  }

  lemma ProbatorParts(codec: Value, xs: seq<Value>)
    requires codec.Null? || NormalCodecParameters(codec)
    requires AllNormal(xs, NormalExtensionParameters)
    ensures ValidateParameters(ProbatorOf(codec, xs)).Ok? <==> !codec.Null?
  {
    hide ValidateParameters, NormalExtensionParameters, ValidateExtensionParameters, ValidateBody, NormalBody, IsMedia,
      KindOf;
    PartsAccepted(ProbatorOf(codec, xs));
    CodecParametersNormal(codec);
    ParameterItemsNormalize();
    ArrayNormal(xs, ValidateExtensionParameters, NormalExtensionParameters);
    hide Normalizes, AllNormal;
    var es := [Obj(map[Ssrc := Int(PROBATOR_SSRC)])];
    assert ValidateAll(es, ValidateEncoding).Ok? by { assert ValidateEncoding(es[0]).Ok?; }
    assert ValidateAll([codec], ValidateCodecParameters).Ok? <==> ValidateCodecParameters([codec][0]).Ok?;
  }
}
