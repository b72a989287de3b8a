/** Which JSON values the validators accept, said of the values alone: what must be there, and
    what may be missing or must be usable if it is there. */
module RtpAcceptance {
  import opened Json
  import opened Wrappers
  import opened RtpValidation

  // ---- What is asked of each kind of value ------------------------------------------------

  predicate FeedbackOk(fb: Value) { fb.HasStr(Type) }

  ghost predicate MediaType(c: Value) {
    c.HasStr(MimeType) && exists media, subtype :: IsMediaOf(c.fields[MimeType].s, media, subtype)
  }

  /** Parameters that are an object hold texts, numbers and nulls, and an integer apt. */
  predicate UsableParameters(c: Value) {
    c.HasObj(Parameters) ==>
      var m := c.fields[Parameters].fields;
      && (forall k :: k in m ==> m[k].Str? || m[k].Int? || m[k].Float? || m[k].Null?)
      && (Apt in m ==> m[Apt].Int?)
  }

  predicate UsableFeedback(c: Value) {
    c.HasArr(RtcpFeedback) ==>
      forall i :: 0 <= i < |c.fields[RtcpFeedback].items| ==> FeedbackOk(c.fields[RtcpFeedback].items[i])
  }

  ghost predicate CodecOk(c: Value) {
    && MediaType(c) && c.HasInt(ClockRate)
    && (c.Has(PreferredPayloadType) ==> c.HasInt(PreferredPayloadType))
    && UsableParameters(c) && UsableFeedback(c)
  }

  ghost predicate CodecParametersOk(c: Value) {
    MediaType(c) && c.HasInt(PayloadType) && c.HasInt(ClockRate) && UsableParameters(c) && UsableFeedback(c)
  }

  predicate ExtensionOk(x: Value) {
    && x.HasText(Uri) && x.HasInt(PreferredId)
    && (x.HasStr(Kind) ==> x.fields[Kind].s == "" || x.fields[Kind].s == "audio" || x.fields[Kind].s == "video")
    && (x.Has(PreferredEncrypt) ==> x.HasBool(PreferredEncrypt)) && (x.Has(Direction) ==> x.HasStr(Direction))
  }

  predicate ExtensionParamsOk(x: Value) {
    && x.HasText(Uri) && x.HasInt(Id) && (x.Has(Encrypt) ==> x.HasBool(Encrypt))
    && (x.HasObj(Parameters) ==>
          var m := x.fields[Parameters].fields; forall k :: k in m ==> m[k].Str? || m[k].Int? || m[k].Float?)
  }

  predicate EncodingOk(e: Value) {
    && e.Obj? && (e.Has(Ssrc) ==> e.HasInt(Ssrc)) && (e.Has(Rid) ==> e.HasText(Rid))
    && (e.Has(Rtx) ==> e.fields[Rtx].HasInt(Ssrc)) && (e.Has(ScalabilityMode) ==> e.HasText(ScalabilityMode))
  }

  predicate RtcpOk(r: Value) { r.Obj? && (r.Has(Cname) ==> r.HasStr(Cname)) }

  /** An array under `k`, if there is anything, of good items. */
  ghost predicate ArrayOk(v: Value, k: Key, good: Value -> bool) {
    v.Has(k) ==> v.HasArr(k) && forall i :: 0 <= i < |v.fields[k].items| ==> good(v.fields[k].items[i])
  }

  ghost predicate CapabilitiesOk(v: Value) {
    v.Obj? && ArrayOk(v, Codecs, c => CodecOk(c)) && ArrayOk(v, HeaderExtensions, ExtensionOk)
  }

  ghost predicate RtpParametersOk(p: Value) {
    && p.Has(Codecs) && (p.Has(Mid) ==> p.HasText(Mid)) && (p.Has(Rtcp) ==> RtcpOk(p.fields[Rtcp]))
    && ArrayOk(p, Codecs, c => CodecParametersOk(c)) && ArrayOk(p, HeaderExtensions, ExtensionParamsOk)
    && ArrayOk(p, Encodings, EncodingOk)
  }

  // ---- Acceptance ---------------------------------------------------------------------------

  lemma FeedbackAcceptedIff(fb: Value)
    ensures ValidateFeedback(fb).Ok? <==> FeedbackOk(fb)
  {
  }

  lemma ParametersIff(c: Value)
    ensures UsableParameters(c) <==> (c.HasObj(Parameters) ==> ParametersOk(c.fields[Parameters].fields))
    ensures ParametersOk(map[])
  {
    if c.HasObj(Parameters) {
      var m := c.fields[Parameters].fields;
      if UsableParameters(c) {
        forall k | k in m ensures ParameterOk(k, m[k]) { assert m[k].Str? || m[k].Int? || m[k].Float? || m[k].Null?; }
      }
      if ParametersOk(m) {
        forall k | k in m ensures m[k].Str? || m[k].Int? || m[k].Float? || m[k].Null? { assert ParameterOk(k, m[k]); }
        if Apt in m { assert ParameterOk(Apt, m[Apt]); }
      }
    }
  }

  lemma FeedbackIff(c: Value)
    ensures UsableFeedback(c) <==>
            ValidateAll(if c.HasArr(RtcpFeedback) then c.fields[RtcpFeedback].items else [], ValidateFeedback).Ok?
  {
    hide ValidateFeedback, FeedbackOk, ValidateAll;
    forall fb: Value ensures ValidateFeedback(fb).Ok? <==> FeedbackOk(fb) { FeedbackAcceptedIff(fb); }
  }

  lemma BodyAcceptedIff(c: Value, kind: string)
    requires c.Obj?
    ensures ValidateBody(c, kind).Ok? <==> UsableParameters(c) && UsableFeedback(c)
  {
    ParametersIff(c);
    FeedbackIff(c);
    hide UsableParameters, UsableFeedback, ParametersOk, ValidateAll, ValidateFeedback;
  }

  lemma MediaIff(c: Value)
    ensures MediaType(c) <==> c.HasStr(MimeType) && IsMedia(c.fields[MimeType].s)
  {
    hide IsMedia, IsMediaOf;
    if c.HasStr(MimeType) { MediaShape(c.fields[MimeType].s); }
  }

  lemma CodecAcceptedIff(c: Value)
    ensures ValidateCodec(c).Ok? <==> CodecOk(c)
  {
    hide IsMedia, MediaType, ValidateBody, UsableParameters, UsableFeedback;
    MediaIff(c);
    if MediaType(c) {
      var kind := KindOf(c.fields[MimeType].s);
      var d := c.Set(Kind, Str(kind));
      BodyAcceptedIff(d, kind);
      SetUsable(c, Kind, Str(kind));
    }
  }

  lemma SetUsable(c: Value, k: Key, v: Value)
    requires c.Obj? && k != Parameters && k != RtcpFeedback
    ensures UsableParameters(c.Set(k, v)) == UsableParameters(c) && UsableFeedback(c.Set(k, v)) == UsableFeedback(c)
  {
    var d := c.Set(k, v);
    assert d.HasObj(Parameters) == c.HasObj(Parameters) && d.HasArr(RtcpFeedback) == c.HasArr(RtcpFeedback);
    assert c.Has(Parameters) ==> d.fields[Parameters] == c.fields[Parameters];
    assert c.Has(RtcpFeedback) ==> d.fields[RtcpFeedback] == c.fields[RtcpFeedback];
  }

  lemma CodecParametersAcceptedIff(c: Value)
    ensures ValidateCodecParameters(c).Ok? <==> CodecParametersOk(c)
  {
    hide IsMedia, MediaType, ValidateBody, UsableParameters, UsableFeedback;
    MediaIff(c);
    if MediaType(c) { BodyAcceptedIff(c, KindOf(c.fields[MimeType].s)); }
  }

  lemma ExtensionAcceptedIff(x: Value)
    ensures ValidateExtension(x).Ok? <==> ExtensionOk(x)
  {
  }

  lemma ExtensionParamsAcceptedIff(x: Value)
    ensures ValidateExtensionParameters(x).Ok? <==> ExtensionParamsOk(x)
  {
  }

  lemma EncodingAcceptedIff(e: Value)
    ensures ValidateEncoding(e).Ok? <==> EncodingOk(e)
    ensures ValidateRtcp(e).Ok? <==> RtcpOk(e)
  {
  }

  lemma ArrayAcceptedIff(v: Value, k: Key, f: Value -> Result<Value>, good: Value -> bool)
    requires v.Obj? && forall x :: f(x).Ok? <==> good(x)
    ensures WithArray(v, k, f).Ok? <==> ArrayOk(v, k, good)
  {
    hide ValidateAll;
  }

  lemma ArraySame(v: Value, k: Key, f: Value -> Result<Value>)
    requires v.Obj? && WithArray(v, k, f).Ok?
    ensures SameBut(v, WithArray(v, k, f).value, {k})
  {
    hide ValidateAll, SameBut;
    SetElsewhere(v, k, Arr(ValidateAll(if v.Has(k) then v.fields[k].items else [], f).value));
  }

  /** What an accepted array becomes: its items validated one by one, or nothing where there
      was none. */
  lemma ArrayBecomes(v: Value, k: Key, f: Value -> Result<Value>)
    requires v.Obj? && WithArray(v, k, f).Ok?
    ensures var w := WithArray(v, k, f).value;
            && w.HasArr(k) && (!v.Has(k) ==> w.fields[k].items == [])
            && (v.Has(k) ==>
                  && v.HasArr(k) && |w.fields[k].items| == |v.fields[k].items|
                  && forall i :: 0 <= i < |v.fields[k].items| ==> f(v.fields[k].items[i]) == Ok(w.fields[k].items[i]))
  {
    var r := ValidateAll(if v.Has(k) then v.fields[k].items else [], f);
    assert forall i :: 0 <= i < |r.value| ==> r.value[i] == f(v.fields[k].items[i]).value;
  }

  lemma ArrayElsewhere(v: Value, w: Value, but: Key, k: Key, good: Value -> bool)
    requires SameBut(v, w, {but}) && k != but
    ensures ArrayOk(v, k, good) <==> ArrayOk(w, k, good)
  {
    SameAt(v, w, {but}, k);
  }

  /** Capabilities are accepted exactly when they are an object whose codecs and header
      extensions, if it has any, are arrays of good ones. */
  lemma CapabilitiesAcceptedIff(v: Value)
    ensures ValidateCapabilities(v).Ok? <==> CapabilitiesOk(v)
  {
    hide ValidateCodec, ValidateExtension, CodecOk, ExtensionOk, WithArray, ArrayOk, SameBut;
    forall x: Value ensures ValidateCodec(x).Ok? <==> CodecOk(x) { CodecAcceptedIff(x); }
    forall x: Value ensures ValidateExtension(x).Ok? <==> ExtensionOk(x) { ExtensionAcceptedIff(x); }
    if v.Obj? {
      ArrayAcceptedIff(v, Codecs, ValidateCodec, c => CodecOk(c));
      var w := WithArray(v, Codecs, ValidateCodec);
      if w.Ok? {
        ArraySame(v, Codecs, ValidateCodec);
        IsObject(v, w.value, {Codecs});
        ArrayAcceptedIff(w.value, HeaderExtensions, ValidateExtension, ExtensionOk);
        ArrayElsewhere(v, w.value, Codecs, HeaderExtensions, ExtensionOk);
      }
    }
  }

  lemma IsObject(v: Value, w: Value, but: set<Key>)
    requires SameBut(v, w, but)
    ensures w.Obj?
  {
  }

  /** The same for parameters, which must have codecs. */
  lemma ParametersAcceptedIff(p: Value)
    ensures ValidateParameters(p).Ok? <==> RtpParametersOk(p)
  {
    hide ValidateCodecParameters, ValidateExtensionParameters, ValidateEncoding, ValidateRtcp, CodecParametersOk,
      ExtensionParamsOk, EncodingOk, RtcpOk, WithArray, ArrayOk, SameBut;
    forall x: Value ensures ValidateCodecParameters(x).Ok? <==> CodecParametersOk(x) { CodecParametersAcceptedIff(x); }
    forall x: Value ensures ValidateExtensionParameters(x).Ok? <==> ExtensionParamsOk(x) {
      ExtensionParamsAcceptedIff(x);
    }
    forall x: Value ensures ValidateEncoding(x).Ok? <==> EncodingOk(x) { EncodingAcceptedIff(x); }
    EncodingAcceptedIff(if p.Has(Rtcp) then p.fields[Rtcp] else Obj(map[]));
    NoRtcp();
    if p.Obj? {
      ArrayAcceptedIff(p, Codecs, ValidateCodecParameters, c => CodecParametersOk(c));
      var c := WithArray(p, Codecs, ValidateCodecParameters);
      if c.Ok? {
        ArraySame(p, Codecs, ValidateCodecParameters);
        IsObject(p, c.value, {Codecs});
        ArrayAcceptedIff(c.value, HeaderExtensions, ValidateExtensionParameters, ExtensionParamsOk);
        ArrayElsewhere(p, c.value, Codecs, HeaderExtensions, ExtensionParamsOk);
        ArrayElsewhere(p, c.value, Codecs, Encodings, EncodingOk);
        var x := WithArray(c.value, HeaderExtensions, ValidateExtensionParameters);
        if x.Ok? {
          ArraySame(c.value, HeaderExtensions, ValidateExtensionParameters);
          IsObject(c.value, x.value, {HeaderExtensions});
          ArrayAcceptedIff(x.value, Encodings, ValidateEncoding, EncodingOk);
          ArrayElsewhere(c.value, x.value, HeaderExtensions, Encodings, EncodingOk);
        }
      }
    }
  }

  lemma NoRtcp()
    ensures RtcpOk(Obj(map[]))
  {
  }

  // ---- Saying less ---------------------------------------------------------------------------

  /** `w` has only members of `v`, and all of those in `must`; but for the members `ks` they
      have the same values. */
  predicate Fewer(v: Value, w: Value, must: set<Key>, ks: set<Key>) {
    && v.Obj? && w.Obj? && (forall k :: k in w.fields ==> k in v.fields)
    && (forall k :: k in must && k in v.fields ==> k in w.fields)
    && forall k :: k in w.fields && k !in ks ==> w.fields[k] == v.fields[k]
  }

  /** Item by item the arrays under `k`, if `w` has kept its one, say less. */
  ghost predicate LessIn(v: Value, w: Value, k: Key, less: (Value, Value) -> bool) {
    v.Has(k) && w.Has(k) && v.HasArr(k) ==>
      && w.HasArr(k) && |w.fields[k].items| == |v.fields[k].items|
      && forall i :: 0 <= i < |w.fields[k].items| ==> less(v.fields[k].items[i], w.fields[k].items[i])
  }

  predicate LessFeedback(a: Value, b: Value) { Fewer(a, b, {Type}, {}) }

  ghost predicate LessCodec(c: Value, d: Value, must: set<Key>) {
    && Fewer(c, d, must, {RtcpFeedback}) && LessIn(c, d, RtcpFeedback, LessFeedback)
    && (c.Has(RtcpFeedback) && d.Has(RtcpFeedback) && !c.HasArr(RtcpFeedback) ==> !d.HasArr(RtcpFeedback))
  }

  predicate LessExtension(x: Value, y: Value) { Fewer(x, y, {Uri, PreferredId}, {}) }

  predicate LessExtensionParams(x: Value, y: Value) { Fewer(x, y, {Uri, Id}, {}) }

  predicate LessEncoding(x: Value, y: Value) { Fewer(x, y, {}, {}) }

  lemma FewerHas(v: Value, w: Value, must: set<Key>, ks: set<Key>, k: Key)
    requires Fewer(v, w, must, ks) && k !in ks
    ensures w.Has(k) ==> v.Has(k) && w.fields[k] == v.fields[k]
    ensures v.Has(k) && k in must ==> w.Has(k)
  {
  }

  lemma LessUsable(c: Value, d: Value, must: set<Key>)
    requires LessCodec(c, d, must) && UsableParameters(c) && UsableFeedback(c)
    ensures UsableParameters(d) && UsableFeedback(d)
  {
    FewerHas(c, d, must, {RtcpFeedback}, Parameters);
    if d.HasArr(RtcpFeedback) {
      var xs, ys := c.fields[RtcpFeedback].items, d.fields[RtcpFeedback].items;
      forall i | 0 <= i < |ys| ensures FeedbackOk(ys[i]) {
        assert FeedbackOk(xs[i]) && LessFeedback(xs[i], ys[i]);
        FewerHas(xs[i], ys[i], {Type}, {}, Type);
      }
    }
  }

  lemma LessMedia(c: Value, d: Value, must: set<Key>)
    requires LessCodec(c, d, must) && MimeType in must && MediaType(c)
    ensures MediaType(d)
  {
    hide IsMediaOf;
    FewerHas(c, d, must, {RtcpFeedback}, MimeType);
  }

  lemma LessCodecOk(c: Value, d: Value)
    requires LessCodec(c, d, {MimeType, ClockRate}) && CodecOk(c)
    ensures CodecOk(d)
  {
    var must := {MimeType, ClockRate};
    LessUsable(c, d, must);
    LessMedia(c, d, must);
    hide MediaType, UsableParameters, UsableFeedback, LessIn;
    FewerHas(c, d, must, {RtcpFeedback}, ClockRate);
    FewerHas(c, d, must, {RtcpFeedback}, PreferredPayloadType);
  }

  lemma LessCodecParametersOk(c: Value, d: Value)
    requires LessCodec(c, d, {MimeType, ClockRate, PayloadType}) && CodecParametersOk(c)
    ensures CodecParametersOk(d)
  {
    var must := {MimeType, ClockRate, PayloadType};
    LessUsable(c, d, must);
    LessMedia(c, d, must);
    hide MediaType, UsableParameters, UsableFeedback, LessIn;
    FewerHas(c, d, must, {RtcpFeedback}, ClockRate);
    FewerHas(c, d, must, {RtcpFeedback}, PayloadType);
  }

  lemma LessExtensionOk(x: Value, y: Value)
    ensures LessExtension(x, y) && ExtensionOk(x) ==> ExtensionOk(y)
    ensures LessExtensionParams(x, y) && ExtensionParamsOk(x) ==> ExtensionParamsOk(y)
    ensures LessEncoding(x, y) && EncodingOk(x) ==> EncodingOk(y)
    ensures LessEncoding(x, y) && RtcpOk(x) ==> RtcpOk(y)
  {
  }

  lemma LessArray(v: Value, w: Value, k: Key, less: (Value, Value) -> bool, good: Value -> bool)
    requires v.Has(k) || !w.Has(k)
    requires ArrayOk(v, k, good) && LessIn(v, w, k, less)
    requires forall x, y :: less(x, y) && good(x) ==> good(y)
    ensures ArrayOk(w, k, good)
  {
  }

  /** Capabilities `w` are `v` with members left out, at any depth, that may be missing. */
  ghost predicate LessCapabilities(v: Value, w: Value) {
    && Fewer(v, w, {}, {Codecs, HeaderExtensions})
    && LessIn(v, w, Codecs, (c, d) => LessCodec(c, d, {MimeType, ClockRate}))
    && LessIn(v, w, HeaderExtensions, LessExtension)
  }

  /** Leaving out what may be missing never makes capabilities unacceptable. */
  lemma SilenceAccepted(v: Value, w: Value)
    requires ValidateCapabilities(v).Ok? && LessCapabilities(v, w)
    ensures ValidateCapabilities(w).Ok?
  {
    hide ValidateCapabilities, CodecOk, ExtensionOk, LessCodec, LessExtension, ArrayOk, LessIn;
    CapabilitiesAcceptedIff(v);
    CapabilitiesAcceptedIff(w);
    forall c, d | LessCodec(c, d, {MimeType, ClockRate}) && CodecOk(c) ensures CodecOk(d) { LessCodecOk(c, d); }
    forall x, y | LessExtension(x, y) && ExtensionOk(x) ensures ExtensionOk(y) { LessExtensionOk(x, y); }
    LessArray(v, w, Codecs, (c, d) => LessCodec(c, d, {MimeType, ClockRate}), c => CodecOk(c));
    LessArray(v, w, HeaderExtensions, LessExtension, ExtensionOk);
  }

  ghost predicate LessParameters(p: Value, q: Value) {
    && Fewer(p, q, {Codecs}, {Codecs, HeaderExtensions, Encodings, Rtcp})
    && LessIn(p, q, Codecs, (c, d) => LessCodec(c, d, {MimeType, ClockRate, PayloadType}))
    && LessIn(p, q, HeaderExtensions, LessExtensionParams) && LessIn(p, q, Encodings, LessEncoding)
    && (q.Has(Rtcp) ==> LessEncoding(p.fields[Rtcp], q.fields[Rtcp]))
  }

  /** Nor parameters. */
  lemma SilenceAcceptedInParameters(p: Value, q: Value)
    requires ValidateParameters(p).Ok? && LessParameters(p, q)
    ensures ValidateParameters(q).Ok?
  {
    hide ValidateParameters, CodecParametersOk, ExtensionParamsOk, EncodingOk, RtcpOk, LessCodec, LessExtensionParams,
      LessEncoding, ArrayOk, LessIn;
    ParametersAcceptedIff(p);
    ParametersAcceptedIff(q);
    forall c, d | LessCodec(c, d, {MimeType, ClockRate, PayloadType}) && CodecParametersOk(c)
      ensures CodecParametersOk(d)
    {
      LessCodecParametersOk(c, d);
    }
    forall x, y | LessExtensionParams(x, y) && ExtensionParamsOk(x) ensures ExtensionParamsOk(y) {
      LessExtensionOk(x, y);
    }
    forall x, y | LessEncoding(x, y) && EncodingOk(x) ensures EncodingOk(y) { LessExtensionOk(x, y); }
    LessArray(p, q, Codecs, (c, d) => LessCodec(c, d, {MimeType, ClockRate, PayloadType}), c => CodecParametersOk(c));
    LessArray(p, q, HeaderExtensions, LessExtensionParams, ExtensionParamsOk);
    LessArray(p, q, Encodings, LessEncoding, EncodingOk);
    if q.Has(Rtcp) { LessExtensionOk(p.fields[Rtcp], q.fields[Rtcp]); }
    FewerHas(p, q, {Codecs}, {Codecs, HeaderExtensions, Encodings, Rtcp}, Mid);
  }
}
