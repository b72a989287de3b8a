/** JSON values as the RTP code sees them. */
module Json {

  /** The member names the code mentions, one constructor each; any other name is Other. */
  datatype Key =
    | Codecs | HeaderExtensions | Encodings | Rtcp | Mid
    | MimeType | Kind | PreferredPayloadType | PayloadType | ClockRate | Channels
    | Parameters | RtcpFeedback | Type | Parameter
    | Uri | PreferredId | PreferredEncrypt | Direction | Id | Encrypt
    | Ssrc | Rid | Rtx | Dtx | ScalabilityMode | Cname | ReducedSize
    | Apt | ProfileLevelId | PacketizationMode | LevelAsymmetryAllowed | ProfileId
    | Other(name: string)

  datatype Value =
    | Null | Bool(b: bool) | Int(i: int) | Float(r: real) | Str(s: string)
    | Arr(items: seq<Value>) | Obj(fields: map<Key, Value>)
  {
    predicate IsNumber() { Int? || Float? }
    predicate HasStr(k: Key) { Obj? && k in fields && fields[k].Str? }
    predicate HasText(k: Key) { HasStr(k) && fields[k].s != "" }
    predicate HasInt(k: Key) { Obj? && k in fields && fields[k].Int? }
    predicate HasBool(k: Key) { Obj? && k in fields && fields[k].Bool? }
    predicate HasObj(k: Key) { Obj? && k in fields && fields[k].Obj? }
    predicate HasArr(k: Key) { Obj? && k in fields && fields[k].Arr? }
    predicate Has(k: Key) { Obj? && k in fields }

    function Set(k: Key, v: Value): Value
      requires Obj?
    {
      Obj(fields[k := v])
    }
  }
}

/** The validators of RTP capabilities and parameters: each accepts or refuses a JSON value
    and fills in defaults. What they accept is proved to be a normal form, described by
    the Normal predicates without running a validator. */
module RtpValidation {
  import opened Json
  import opened Wrappers

  function Lower(c: char): char {
    if 'A' <= c <= 'Z' then (c as int + 32) as char else c
  }

  function Lowered(s: string): (t: string)
    ensures |t| == |s|
    ensures forall i :: 0 <= i < |s| ==> t[i] == Lower(s[i])
  {
    if s == [] then [] else [Lower(s[0])] + Lowered(s[1..])
  }

  /** `(audio|video)/(.+)`, ignoring case; the dot matches no line break. */
  predicate IsMedia(mime: string) {
    && |mime| >= 7
    && (Lowered(KindOf(mime)) == "audio" || Lowered(KindOf(mime)) == "video")
    && mime[5] == '/'
    && '\n' !in mime[6..] && '\r' !in mime[6..]
  }

  /** The media component, in the case it is written in. */
  function KindOf(mime: string): string { if |mime| < 5 then mime else mime[..5] }

  /** The two parts a media type is made of. */
  predicate IsMediaOf(mime: string, media: string, subtype: string) {
    && mime == media + "/" + subtype && (Lowered(media) == "audio" || Lowered(media) == "video")
    && subtype != "" && '\n' !in subtype && '\r' !in subtype
  }

  /** The test is the pattern. */
  lemma MediaShape(mime: string)
    ensures IsMedia(mime) <==> exists media, subtype :: IsMediaOf(mime, media, subtype)
  {
    hide Lowered;
    if IsMedia(mime) {
      assert mime == mime[..5] + "/" + mime[6..];
      assert IsMediaOf(mime, mime[..5], mime[6..]);
    }
    if media, subtype :| IsMediaOf(mime, media, subtype) {
      assert |media| == |Lowered(media)| == 5;
      assert mime[..5] == media && mime[6..] == subtype;
    }
  }

  // ---- Arrays ---------------------------------------------------------------------------

  /** Validate every item in turn; the first refusal refuses the array. */
  function ValidateAll(items: seq<Value>, f: Value -> Result<Value>): (r: Result<seq<Value>>)
    ensures r.Ok? <==> forall i :: 0 <= i < |items| ==> f(items[i]).Ok?
    ensures r.Ok? ==> |r.value| == |items| && forall i :: 0 <= i < |items| ==> r.value[i] == f(items[i]).value
  {
    if items == [] then Ok([])
    else
      var last := f(items[|items| - 1]);
      var rest := ValidateAll(items[..|items| - 1], f);
      if last.Err? || rest.Err? then Err else Ok(rest.value + [last.value])
  }

  method ValidateItems(items: seq<Value>, f: Value -> Result<Value>) returns (r: Result<seq<Value>>)
    ensures r == ValidateAll(items, f)
  {
    var out := items;
    var i := 0;
    while i < |items|
      invariant 0 <= i <= |items| == |out|
      invariant forall k :: 0 <= k < i ==> f(items[k]).Ok? && out[k] == f(items[k]).value
      invariant forall k :: i <= k < |items| ==> out[k] == items[k]
    {
      var v := f(out[i]);
      if v.Err? { return Err; }
      out := out[i := v.value];
      i := i + 1;
    }
    assert out == ValidateAll(items, f).value;
    return Ok(out);
  }

  /** Whatever `f` accepts becomes normal, and it leaves normal values alone. */
  ghost predicate Normalizes(f: Value -> Result<Value>, normal: Value -> bool) {
    forall x :: (f(x).Ok? ==> normal(f(x).value)) && (normal(x) ==> f(x) == Ok(x))
  }

  /** If `f` makes every item normal and leaves normal items alone, so does the array. */
  lemma ArrayNormal(items: seq<Value>, f: Value -> Result<Value>, normal: Value -> bool)
    requires Normalizes(f, normal)
    ensures ValidateAll(items, f).Ok? ==> AllNormal(ValidateAll(items, f).value, normal)
    ensures AllNormal(items, normal) ==> ValidateAll(items, f) == Ok(items)
  {
    var r := ValidateAll(items, f);
    if AllNormal(items, normal) {
      assert r.value == items;
    }
  }

  predicate AllNormal(items: seq<Value>, normal: Value -> bool) {
    forall i :: 0 <= i < |items| ==> normal(items[i])
  }

  lemma SetElsewhere(j: Value, k: Key, v: Value)
    requires j.Obj?
    ensures SameBut(j, j.Set(k, v), {k})
  {
  }

  lemma SetSame(j: Value, k: Key)
    requires j.Has(k)
    ensures j.Set(k, j.fields[k]) == j
  {
    assert j.fields[k := j.fields[k]] == j.fields;
  }

  // ---- RTCP feedback ----------------------------------------------------------------------

  function ValidateFeedback(fb: Value): Result<Value> {
    if !fb.HasStr(Type) then Err
    else if fb.HasStr(Parameter) then Ok(fb)
    else Ok(fb.Set(Parameter, Str("")))
  }

  predicate NormalFeedback(fb: Value) { fb.HasStr(Type) && fb.HasStr(Parameter) }

  lemma FeedbackNormalizes()
    ensures Normalizes(ValidateFeedback, NormalFeedback)
  {
    forall fb: Value ensures NormalFeedback(fb) ==> ValidateFeedback(fb) == Ok(fb) {}
  }

  // ---- Codecs -----------------------------------------------------------------------------

  predicate ParameterOk(k: Key, v: Value) {
    (v.Str? || v.IsNumber() || v.Null?) && (k.Apt? ==> v.Int?)
  }

  predicate ParametersOk(m: map<Key, Value>) { forall k :: k in m ==> ParameterOk(k, m[k]) }

  /** Channels only on audio, parameters an object, feedback an array. */
  function ValidateBody(c: Value, kind: string): Result<Value>
    requires c.Obj?
  {
    var c1 := if kind != "audio" then Obj(c.fields - {Channels})
              else if c.HasInt(Channels) then c else c.Set(Channels, Int(1));
    var c2 := if c.HasObj(Parameters) then c1 else c1.Set(Parameters, Obj(map[]));
    var fbs := ValidateAll(if c.HasArr(RtcpFeedback) then c.fields[RtcpFeedback].items else [], ValidateFeedback);
    if !ParametersOk(c2.fields[Parameters].fields) || fbs.Err? then Err
    else Ok(c2.Set(RtcpFeedback, Arr(fbs.value)))
  }

  predicate ChannelsOk(c: Value, kind: string) { if kind == "audio" then c.HasInt(Channels) else !c.Has(Channels) }

  predicate NormalBody(c: Value, kind: string) {
    && ChannelsOk(c, kind)
    && c.HasObj(Parameters) && ParametersOk(c.fields[Parameters].fields)
    && c.HasArr(RtcpFeedback) && AllNormal(c.fields[RtcpFeedback].items, NormalFeedback)
  }

  /** What the body's validation leaves as it was. */
  predicate SameBut(c: Value, d: Value, but: set<Key>) {
    c.Obj? && d.Obj? && c.fields - but == d.fields - but
  }

  lemma BodyNormal(c: Value, kind: string)
    requires c.Obj?
    ensures var r := ValidateBody(c, kind);
            && (r.Ok? ==> NormalBody(r.value, kind) && SameBut(c, r.value, {Channels, Parameters, RtcpFeedback}))
            && (NormalBody(c, kind) ==> r == Ok(c))
  {
    hide ValidateBody, NormalBody, SameBut;
    if ValidateBody(c, kind).Ok? {
      BodyAccepted(c, kind);
      BodyRest(c, kind);
    }
    if NormalBody(c, kind) { BodyStays(c, kind); }
  }

  lemma BodyAccepted(c: Value, kind: string)
    requires c.Obj? && ValidateBody(c, kind).Ok?
    ensures NormalBody(ValidateBody(c, kind).value, kind)
  {
    hide ParametersOk, AllNormal, ValidateAll, ValidateFeedback, NormalFeedback;
    var c1 := if kind != "audio" then Obj(c.fields - {Channels})
              else if c.HasInt(Channels) then c else c.Set(Channels, Int(1));
    assert c1.Obj? && ChannelsOk(c1, kind) && (c1.HasObj(Parameters) <==> c.HasObj(Parameters));
    var c2 := if c.HasObj(Parameters) then c1 else c1.Set(Parameters, Obj(map[]));
    assert c2.HasObj(Parameters) && ChannelsOk(c2, kind);
    var items := if c.HasArr(RtcpFeedback) then c.fields[RtcpFeedback].items else [];
    FeedbackNormalizes();
    ArrayNormal(items, ValidateFeedback, NormalFeedback);
    BodyParts(c2, kind, ValidateAll(items, ValidateFeedback).value);
  }

  lemma BodyParts(c: Value, kind: string, fbs: seq<Value>)
    requires ChannelsOk(c, kind) && c.HasObj(Parameters) && ParametersOk(c.fields[Parameters].fields)
    requires AllNormal(fbs, NormalFeedback)
    ensures NormalBody(c.Set(RtcpFeedback, Arr(fbs)), kind)
  {
    hide ParametersOk, AllNormal, NormalFeedback;
  }

  lemma BodyRest(c: Value, kind: string)
    requires c.Obj? && ValidateBody(c, kind).Ok?
    ensures SameBut(c, ValidateBody(c, kind).value, {Channels, Parameters, RtcpFeedback})
  {
    hide ParametersOk, ValidateAll, ValidateFeedback;
  }

  lemma BodyStays(c: Value, kind: string)
    requires NormalBody(c, kind)
    ensures ValidateBody(c, kind) == Ok(c)
  {
    hide ParametersOk, AllNormal, ValidateAll, ValidateFeedback, NormalFeedback;
    FeedbackNormalizes();
    ArrayNormal(c.fields[RtcpFeedback].items, ValidateFeedback, NormalFeedback);
    SetSame(c, RtcpFeedback);
    if kind != "audio" { assert c.fields - {Channels} == c.fields; }
  }

  function ValidateCodec(c: Value): Result<Value> {
    if !c.HasStr(MimeType) || !IsMedia(c.fields[MimeType].s) then Err
    else if (c.Has(PreferredPayloadType) && !c.HasInt(PreferredPayloadType)) || !c.HasInt(ClockRate) then Err
    else
      var kind := KindOf(c.fields[MimeType].s);
      ValidateBody(c.Set(Kind, Str(kind)), kind)
  }

  predicate NormalCodec(c: Value) {
    && c.HasStr(MimeType) && IsMedia(c.fields[MimeType].s)
    && c.Has(Kind) && c.fields[Kind] == Str(KindOf(c.fields[MimeType].s))
    && (c.Has(PreferredPayloadType) ==> c.HasInt(PreferredPayloadType))
    && c.HasInt(ClockRate)
    && NormalBody(c, KindOf(c.fields[MimeType].s))
  }

  lemma CodecNormal(c: Value)
    ensures ValidateCodec(c).Ok? ==>
              NormalCodec(ValidateCodec(c).value) &&
              SameBut(c, ValidateCodec(c).value, {Kind, Channels, Parameters, RtcpFeedback})
    ensures NormalCodec(c) ==> ValidateCodec(c) == Ok(c)
  {
    hide ValidateBody, NormalBody, IsMedia;
    if ValidateCodec(c).Ok? {
      var kind := KindOf(c.fields[MimeType].s);
      var d := c.Set(Kind, Str(kind));
      BodyNormal(d, kind);
      var e := ValidateCodec(c).value;
      SameAt(d, e, {Channels, Parameters, RtcpFeedback}, MimeType);
      SameAt(d, e, {Channels, Parameters, RtcpFeedback}, Kind);
      SameAt(d, e, {Channels, Parameters, RtcpFeedback}, PreferredPayloadType);
      SameAt(d, e, {Channels, Parameters, RtcpFeedback}, ClockRate);
      var but := {Kind, Channels, Parameters, RtcpFeedback};
      SameWider(d, e, {Channels, Parameters, RtcpFeedback}, but);
      assert c.fields - but == d.fields - but;
    }
    if NormalCodec(c) {
      SetSame(c, Kind);
      BodyNormal(c, KindOf(c.fields[MimeType].s));
    }
  }

  lemma SameAt(c: Value, d: Value, but: set<Key>, k: Key)
    requires SameBut(c, d, but) && k !in but
    ensures c.Has(k) <==> d.Has(k)
    ensures c.Has(k) ==> c.fields[k] == d.fields[k]
  {
    assert k in c.fields <==> k in c.fields - but;
    assert k in d.fields <==> k in d.fields - but;
    if k in c.fields {
      assert c.fields[k] == (c.fields - but)[k] == (d.fields - but)[k] == d.fields[k];
    }
  }

  lemma SameWider(c: Value, d: Value, but: set<Key>, more: set<Key>)
    requires SameBut(c, d, but) && but <= more
    ensures SameBut(c, d, more)
  {
    forall k | k !in more
      ensures k in c.fields <==> k in d.fields
      ensures k in c.fields ==> c.fields[k] == d.fields[k]
    {
      SameAt(c, d, but, k);
    }
  }

  function ValidateCodecParameters(c: Value): Result<Value> {
    if !c.HasStr(MimeType) || !IsMedia(c.fields[MimeType].s) then Err
    else if !c.HasInt(PayloadType) || !c.HasInt(ClockRate) then Err
    else ValidateBody(c, KindOf(c.fields[MimeType].s))
  }

  predicate NormalCodecParameters(c: Value) {
    && c.HasStr(MimeType) && IsMedia(c.fields[MimeType].s)
    && c.HasInt(PayloadType) && c.HasInt(ClockRate)
    && NormalBody(c, KindOf(c.fields[MimeType].s))
  }

  lemma CodecParametersNormal(c: Value)
    ensures ValidateCodecParameters(c).Ok? ==>
              NormalCodecParameters(ValidateCodecParameters(c).value) &&
              SameBut(c, ValidateCodecParameters(c).value, {Channels, Parameters, RtcpFeedback})
    ensures NormalCodecParameters(c) ==> ValidateCodecParameters(c) == Ok(c)
  {
    hide ValidateBody, NormalBody, IsMedia;
    if c.HasStr(MimeType) && IsMedia(c.fields[MimeType].s) {
      BodyNormal(c, KindOf(c.fields[MimeType].s));
    }
    if ValidateCodecParameters(c).Ok? {
      var e := ValidateCodecParameters(c).value;
      SameAt(c, e, {Channels, Parameters, RtcpFeedback}, MimeType);
      SameAt(c, e, {Channels, Parameters, RtcpFeedback}, PayloadType);
      SameAt(c, e, {Channels, Parameters, RtcpFeedback}, ClockRate);
    }
  }

  // ---- Header extensions --------------------------------------------------------------------

  function WithDefault(j: Value, k: Key, v: Value): Value
    requires j.Obj?
  {
    if j.Has(k) then j else j.Set(k, v)
  }

  predicate KindOk(kind: string) { kind == "" || kind == "audio" || kind == "video" }

  function ValidateExtension(x: Value): Result<Value> {
    if !x.Obj? then Err
    else
      var y := if x.HasStr(Kind) then x else x.Set(Kind, Str(""));
      if !KindOk(y.fields[Kind].s) || !x.HasText(Uri) || !x.HasInt(PreferredId) then Err
      else if x.Has(PreferredEncrypt) && !x.HasBool(PreferredEncrypt) then Err
      else if x.Has(Direction) && !x.HasStr(Direction) then Err
      else Ok(WithDefault(WithDefault(y, PreferredEncrypt, Bool(false)), Direction, Str("sendrecv")))
  }

  predicate NormalExtension(x: Value) {
    && x.HasStr(Kind) && KindOk(x.fields[Kind].s) && x.HasText(Uri) && x.HasInt(PreferredId)
    && x.HasBool(PreferredEncrypt) && x.HasStr(Direction)
  }

  lemma ExtensionNormal(x: Value)
    ensures ValidateExtension(x).Ok? ==>
              NormalExtension(ValidateExtension(x).value) &&
              SameBut(x, ValidateExtension(x).value, {Kind, PreferredEncrypt, Direction})
    ensures NormalExtension(x) ==> ValidateExtension(x) == Ok(x)
  {
  }

  predicate ExtensionParametersOk(m: map<Key, Value>) {
    forall k :: k in m ==> m[k].Str? || m[k].IsNumber()
  }

  function ValidateExtensionParameters(x: Value): Result<Value> {
    if !x.HasText(Uri) || !x.HasInt(Id) || (x.Has(Encrypt) && !x.HasBool(Encrypt)) then Err
    else
      var y := WithDefault(x, Encrypt, Bool(false));
      var z := if x.HasObj(Parameters) then y else y.Set(Parameters, Obj(map[]));
      if ExtensionParametersOk(z.fields[Parameters].fields) then Ok(z) else Err
  }

  predicate NormalExtensionParameters(x: Value) {
    && x.HasText(Uri) && x.HasInt(Id) && x.HasBool(Encrypt)
    && x.HasObj(Parameters) && ExtensionParametersOk(x.fields[Parameters].fields)
  }

  lemma ExtensionParametersNormal(x: Value)
    ensures ValidateExtensionParameters(x).Ok? ==>
              NormalExtensionParameters(ValidateExtensionParameters(x).value) &&
              SameBut(x, ValidateExtensionParameters(x).value, {Encrypt, Parameters})
    ensures NormalExtensionParameters(x) ==> ValidateExtensionParameters(x) == Ok(x)
  {
  }

  // ---- Encodings and RTCP -------------------------------------------------------------------

  function ValidateEncoding(e: Value): Result<Value> {
    if !e.Obj? || (e.Has(Ssrc) && !e.HasInt(Ssrc)) || (e.Has(Rid) && !e.HasText(Rid)) then Err
    else if e.Has(Rtx) && !e.fields[Rtx].HasInt(Ssrc) then Err
    else if e.Has(ScalabilityMode) && !e.HasText(ScalabilityMode) then Err
    else Ok(if e.HasBool(Dtx) then e else e.Set(Dtx, Bool(false)))
  }

  predicate NormalEncoding(e: Value) {
    && (e.Has(Ssrc) ==> e.HasInt(Ssrc)) && (e.Has(Rid) ==> e.HasText(Rid))
    && (e.Has(Rtx) ==> e.fields[Rtx].HasInt(Ssrc))
    && (e.Has(ScalabilityMode) ==> e.HasText(ScalabilityMode))
    && e.HasBool(Dtx)
  }

  function ValidateRtcp(r: Value): Result<Value> {
    if !r.Obj? || (r.Has(Cname) && !r.HasStr(Cname)) then Err
    else Ok(if r.HasBool(ReducedSize) then r else r.Set(ReducedSize, Bool(true)))
  }

  predicate NormalRtcp(r: Value) { (r.Has(Cname) ==> r.HasStr(Cname)) && r.HasBool(ReducedSize) }

  /** The value under `k` is kept if `ok`, else it is the default. */
  predicate Defaulted(x: Value, v: Value, k: Key, ok: bool, fallback: Value) {
    v.Has(k) && v.fields[k] == if ok && x.Has(k) then x.fields[k] else fallback
  }

  /** What an accepted item ends up with where it was silent, or said something unusable. */
  lemma Defaults(x: Value)
    ensures var v := ValidateFeedback(x); v.Ok? ==> Defaulted(x, v.value, Parameter, x.HasStr(Parameter), Str(""))
    ensures var v := ValidateExtension(x); v.Ok? ==>
              && Defaulted(x, v.value, Kind, x.HasStr(Kind), Str(""))
              && Defaulted(x, v.value, PreferredEncrypt, true, Bool(false))
              && Defaulted(x, v.value, Direction, true, Str("sendrecv"))
    ensures var v := ValidateExtensionParameters(x); v.Ok? ==>
              && Defaulted(x, v.value, Encrypt, true, Bool(false))
              && Defaulted(x, v.value, Parameters, x.HasObj(Parameters), Obj(map[]))
    ensures var v := ValidateEncoding(x); v.Ok? ==>
              Defaulted(x, v.value, Dtx, x.HasBool(Dtx), Bool(false)) && SameBut(x, v.value, {Dtx})
    ensures var v := ValidateRtcp(x); v.Ok? ==>
              && Defaulted(x, v.value, ReducedSize, x.HasBool(ReducedSize), Bool(true))
              && SameBut(x, v.value, {ReducedSize})
  {
  }

  lemma CodecDefaults(x: Value)
    ensures var v := ValidateCodec(x); v.Ok? ==>
              && Defaulted(x, v.value, Parameters, x.HasObj(Parameters), Obj(map[]))
              && (KindOf(x.fields[MimeType].s) == "audio" ==>
                    Defaulted(x, v.value, Channels, x.HasInt(Channels), Int(1)))
              && (!x.HasArr(RtcpFeedback) ==> v.value.fields[RtcpFeedback] == Arr([]))
  {
    hide ParametersOk, IsMedia, ValidateFeedback;
  }

  // ---- Capabilities and parameters ------------------------------------------------------------

  /** The array under `k`, validated by `f`; a missing one becomes empty. */
  function WithArray(j: Value, k: Key, f: Value -> Result<Value>): Result<Value>
    requires j.Obj?
  {
    if j.Has(k) && !j.HasArr(k) then Err
    else
      var r := ValidateAll(if j.Has(k) then j.fields[k].items else [], f);
      if r.Err? then Err else Ok(j.Set(k, Arr(r.value)))
  }

  predicate NormalArray(j: Value, k: Key, normal: Value -> bool) {
    j.HasArr(k) && AllNormal(j.fields[k].items, normal)
  }

  lemma WithArrayNormal(j: Value, k: Key, f: Value -> Result<Value>, normal: Value -> bool)
    requires j.Obj?
    requires Normalizes(f, normal)
    ensures var r := WithArray(j, k, f);
            && (r.Ok? ==> NormalArray(r.value, k, normal) && SameBut(j, r.value, {k}))
            && (NormalArray(j, k, normal) ==> r == Ok(j))
  {
    hide WithArray, NormalArray, SameBut, Normalizes;
    if WithArray(j, k, f).Ok? { WithArrayAccepted(j, k, f, normal); }
    if NormalArray(j, k, normal) { WithArrayStays(j, k, f, normal); }
  }

  lemma WithArrayAccepted(j: Value, k: Key, f: Value -> Result<Value>, normal: Value -> bool)
    requires j.Obj? && Normalizes(f, normal) && WithArray(j, k, f).Ok?
    ensures NormalArray(WithArray(j, k, f).value, k, normal) && SameBut(j, WithArray(j, k, f).value, {k})
  {
    hide AllNormal, ValidateAll, Normalizes, SameBut;
    var items := if j.Has(k) then j.fields[k].items else [];
    ArrayNormal(items, f, normal);
    SetElsewhere(j, k, Arr(ValidateAll(items, f).value));
  }

  lemma WithArrayStays(j: Value, k: Key, f: Value -> Result<Value>, normal: Value -> bool)
    requires j.Obj? && Normalizes(f, normal) && NormalArray(j, k, normal)
    ensures WithArray(j, k, f) == Ok(j)
  {
    hide AllNormal, ValidateAll, Normalizes;
    ArrayNormal(j.fields[k].items, f, normal);
    SetSame(j, k);
  }

  function ValidateCapabilities(caps: Value): Result<Value> {
    if !caps.Obj? then Err
    else
      var r := WithArray(caps, Codecs, ValidateCodec);
      if r.Err? then Err else WithArray(r.value, HeaderExtensions, ValidateExtension)
  }

  predicate NormalCapabilities(caps: Value) {
    NormalArray(caps, Codecs, NormalCodec) && NormalArray(caps, HeaderExtensions, NormalExtension)
  }

  lemma NormalArrayKept(c: Value, d: Value, but: set<Key>, k: Key, normal: Value -> bool)
    requires SameBut(c, d, but) && k !in but && NormalArray(c, k, normal)
    ensures NormalArray(d, k, normal)
  {
    SameAt(c, d, but, k);
  }

  lemma SameJoin(c: Value, d: Value, e: Value, b: set<Key>, b': set<Key>)
    requires SameBut(c, d, b) && SameBut(d, e, b')
    ensures SameBut(c, e, b + b')
  {
    SameWider(c, d, b, b + b');
    SameWider(d, e, b', b + b');
  }

  lemma ItemsNormalize()
    ensures Normalizes(ValidateCodec, NormalCodec) && Normalizes(ValidateExtension, NormalExtension)
  {
    hide ValidateCodec, NormalCodec, ValidateExtension, NormalExtension;
    forall x: Value
      ensures ValidateCodec(x).Ok? ==> NormalCodec(ValidateCodec(x).value)
      ensures NormalCodec(x) ==> ValidateCodec(x) == Ok(x)
    {
      CodecNormal(x);
    }
    forall x: Value
      ensures ValidateExtension(x).Ok? ==> NormalExtension(ValidateExtension(x).value)
      ensures NormalExtension(x) ==> ValidateExtension(x) == Ok(x)
    {
      ExtensionNormal(x);
    }
  }

  /** Validation is a normal form: what it accepts is normal, and a second pass accepts
      that and changes nothing. */
  lemma CapabilitiesNormal(caps: Value)
    ensures ValidateCapabilities(caps).Ok? ==>
              var v := ValidateCapabilities(caps).value;
              NormalCapabilities(v) && ValidateCapabilities(v) == Ok(v) &&
              SameBut(caps, v, {Codecs, HeaderExtensions})
    ensures NormalCapabilities(caps) ==> ValidateCapabilities(caps) == Ok(caps)
  {
    hide ValidateCodec, NormalCodec, ValidateExtension, NormalExtension, SameBut, Normalizes;
    NormalCapabilitiesStay(caps);
    if ValidateCapabilities(caps).Ok? {
      ItemsNormalize();
      WithArrayNormal(caps, Codecs, ValidateCodec, NormalCodec);
      var c := WithArray(caps, Codecs, ValidateCodec).value;
      WithArrayNormal(c, HeaderExtensions, ValidateExtension, NormalExtension);
      hide WithArray, NormalArray;
      var v := ValidateCapabilities(caps).value;
      NormalArrayKept(c, v, {HeaderExtensions}, Codecs, NormalCodec);
      SameJoin(caps, c, v, {Codecs}, {HeaderExtensions});
      assert {Codecs} + {HeaderExtensions} == {Codecs, HeaderExtensions};
      NormalCapabilitiesStay(v);
    }
  }

  lemma NormalCapabilitiesStay(caps: Value)
    ensures NormalCapabilities(caps) ==> ValidateCapabilities(caps) == Ok(caps)
  {
    hide ValidateCodec, NormalCodec, ValidateExtension, NormalExtension, SameBut, Normalizes;
    if NormalCapabilities(caps) {
      ItemsNormalize();
      WithArrayNormal(caps, Codecs, ValidateCodec, NormalCodec);
      WithArrayNormal(caps, HeaderExtensions, ValidateExtension, NormalExtension);
    }
  }

  function ValidateParameters(params: Value): Result<Value> {
    if !params.Obj? || (params.Has(Mid) && !params.HasText(Mid)) || !params.Has(Codecs) then Err
    else
      var c := WithArray(params, Codecs, ValidateCodecParameters);
      if c.Err? then Err
      else
        var x := WithArray(c.value, HeaderExtensions, ValidateExtensionParameters);
        if x.Err? then Err
        else
          var e := WithArray(x.value, Encodings, ValidateEncoding);
          if e.Err? then Err
          else
            var r := ValidateRtcp(if params.Has(Rtcp) then params.fields[Rtcp] else Obj(map[]));
            if r.Err? then Err else Ok(e.value.Set(Rtcp, r.value))
  }

  predicate NormalParameters(params: Value) {
    && (params.Has(Mid) ==> params.HasText(Mid))
    && NormalArray(params, Codecs, NormalCodecParameters)
    && NormalArray(params, HeaderExtensions, NormalExtensionParameters)
    && NormalArray(params, Encodings, NormalEncoding)
    && params.Has(Rtcp) && NormalRtcp(params.fields[Rtcp])
  }

  lemma ParameterItemsNormalize()
    ensures Normalizes(ValidateCodecParameters, NormalCodecParameters)
    ensures Normalizes(ValidateExtensionParameters, NormalExtensionParameters)
    ensures Normalizes(ValidateEncoding, NormalEncoding)
    ensures Normalizes(ValidateRtcp, NormalRtcp)
  {
    hide ValidateCodecParameters, NormalCodecParameters, ValidateExtensionParameters, NormalExtensionParameters;
    forall x: Value
      ensures ValidateCodecParameters(x).Ok? ==> NormalCodecParameters(ValidateCodecParameters(x).value)
      ensures NormalCodecParameters(x) ==> ValidateCodecParameters(x) == Ok(x)
    {
      CodecParametersNormal(x);
    }
    forall x: Value
      ensures ValidateExtensionParameters(x).Ok? ==> NormalExtensionParameters(ValidateExtensionParameters(x).value)
      ensures NormalExtensionParameters(x) ==> ValidateExtensionParameters(x) == Ok(x)
    {
      ExtensionParametersNormal(x);
    }
  }

  lemma NormalParametersStay(params: Value)
    ensures NormalParameters(params) ==> ValidateParameters(params) == Ok(params)
  {
    hide ValidateCodecParameters, NormalCodecParameters, ValidateExtensionParameters, NormalExtensionParameters,
      ValidateEncoding, NormalEncoding, ValidateRtcp, NormalRtcp, SameBut;
    if NormalParameters(params) {
      ParameterItemsNormalize();
      WithArrayNormal(params, Codecs, ValidateCodecParameters, NormalCodecParameters);
      WithArrayNormal(params, HeaderExtensions, ValidateExtensionParameters, NormalExtensionParameters);
      WithArrayNormal(params, Encodings, ValidateEncoding, NormalEncoding);
      assert ValidateRtcp(params.fields[Rtcp]) == Ok(params.fields[Rtcp]);
      SetSame(params, Rtcp);
    }
  }

  /** The same for parameters. */
  lemma ParametersNormal(params: Value)
    ensures ValidateParameters(params).Ok? ==>
              var v := ValidateParameters(params).value;
              NormalParameters(v) && ValidateParameters(v) == Ok(v) &&
              SameBut(params, v, {Codecs, HeaderExtensions, Encodings, Rtcp})
    ensures NormalParameters(params) ==> ValidateParameters(params) == Ok(params)
  {
    NormalParametersStay(params);
    if ValidateParameters(params).Ok? {
      var c, x, e := AcceptedParts(params);
      var v := ValidateParameters(params).value;
      PartsNormal(params, c, x, e, v);
      NormalParametersStay(v);
    }
  }

  /** The value after the codecs, the extensions and the encodings have been validated. */
  lemma AcceptedParts(params: Value) returns (c: Value, x: Value, e: Value)
    requires ValidateParameters(params).Ok?
    ensures var v := ValidateParameters(params).value;
            && SameBut(params, c, {Codecs}) && NormalArray(c, Codecs, NormalCodecParameters)
            && SameBut(c, x, {HeaderExtensions}) && NormalArray(x, HeaderExtensions, NormalExtensionParameters)
            && SameBut(x, e, {Encodings}) && NormalArray(e, Encodings, NormalEncoding)
            && SameBut(e, v, {Rtcp}) && v.Has(Rtcp) && NormalRtcp(v.fields[Rtcp])
            && (params.Has(Mid) ==> params.HasText(Mid))
  {
    hide ValidateCodecParameters, NormalCodecParameters, ValidateExtensionParameters, NormalExtensionParameters,
      ValidateEncoding, NormalEncoding, ValidateRtcp, NormalRtcp, ValidateAll, AllNormal;
    ParameterItemsNormalize();
    c := WithArray(params, Codecs, ValidateCodecParameters).value;
    WithArrayNormal(params, Codecs, ValidateCodecParameters, NormalCodecParameters);
    x := WithArray(c, HeaderExtensions, ValidateExtensionParameters).value;
    WithArrayNormal(c, HeaderExtensions, ValidateExtensionParameters, NormalExtensionParameters);
    e := WithArray(x, Encodings, ValidateEncoding).value;
    WithArrayNormal(x, Encodings, ValidateEncoding, NormalEncoding);
    hide WithArray, NormalArray, SameBut;
    var r := ValidateRtcp(if params.Has(Rtcp) then params.fields[Rtcp] else Obj(map[]));
    SetElsewhere(e, Rtcp, r.value);
  }

  lemma PartsNormal(params: Value, c: Value, x: Value, e: Value, v: Value)
    requires SameBut(params, c, {Codecs}) && NormalArray(c, Codecs, NormalCodecParameters)
    requires SameBut(c, x, {HeaderExtensions}) && NormalArray(x, HeaderExtensions, NormalExtensionParameters)
    requires SameBut(x, e, {Encodings}) && NormalArray(e, Encodings, NormalEncoding)
    requires SameBut(e, v, {Rtcp}) && v.Has(Rtcp) && NormalRtcp(v.fields[Rtcp])
    requires params.Has(Mid) ==> params.HasText(Mid)
    ensures NormalParameters(v) && SameBut(params, v, {Codecs, HeaderExtensions, Encodings, Rtcp})
  {
    hide SameBut, NormalArray, NormalRtcp;
    NormalArrayKept(c, x, {HeaderExtensions}, Codecs, NormalCodecParameters);
    NormalArrayKept(x, e, {Encodings}, Codecs, NormalCodecParameters);
    NormalArrayKept(e, v, {Rtcp}, Codecs, NormalCodecParameters);
    NormalArrayKept(x, e, {Encodings}, HeaderExtensions, NormalExtensionParameters);
    NormalArrayKept(e, v, {Rtcp}, HeaderExtensions, NormalExtensionParameters);
    NormalArrayKept(e, v, {Rtcp}, Encodings, NormalEncoding);
    SameJoin(params, c, x, {Codecs}, {HeaderExtensions});
    SameJoin(params, x, e, {Codecs} + {HeaderExtensions}, {Encodings});
    SameJoin(params, e, v, {Codecs} + {HeaderExtensions} + {Encodings}, {Rtcp});
    var all := {Codecs} + {HeaderExtensions} + {Encodings} + {Rtcp};
    assert all == {Codecs, HeaderExtensions, Encodings, Rtcp};
    SameAt(params, v, all, Mid);
  }

  /** Parameters with all their parts present are accepted exactly when each part is. */
  lemma PartsAccepted(p: Value)
    requires p.HasText(Mid) && p.HasArr(Codecs) && p.HasArr(HeaderExtensions) && p.HasArr(Encodings) && p.Has(Rtcp)
    ensures ValidateParameters(p).Ok? <==>
            && ValidateAll(p.fields[Codecs].items, ValidateCodecParameters).Ok?
            && ValidateAll(p.fields[HeaderExtensions].items, ValidateExtensionParameters).Ok?
            && ValidateAll(p.fields[Encodings].items, ValidateEncoding).Ok?
            && ValidateRtcp(p.fields[Rtcp]).Ok?
  {
    hide ValidateCodecParameters, ValidateExtensionParameters, ValidateEncoding, ValidateRtcp, ValidateAll;
    var c := WithArray(p, Codecs, ValidateCodecParameters);
    if c.Ok? {
      assert c.value.fields[HeaderExtensions] == p.fields[HeaderExtensions];
      var x := WithArray(c.value, HeaderExtensions, ValidateExtensionParameters);
      if x.Ok? {
        assert x.value.fields[Encodings] == p.fields[Encodings];
      }
    }
  }
}
