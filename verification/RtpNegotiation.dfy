/** RTP negotiation: from validated local and remote capabilities to the extended
    capabilities both sides share. */
module RtpNegotiation {
  import opened Json
  import opened Wrappers
  import opened RtpValidation
  import Samples

  datatype Codec = Codec(mime: string, kind: string, clock: int, pt: Option<int>, channels: Option<int>,
                         params: map<Key, Value>, feedback: seq<Value>)

  datatype Extension = Extension(kind: string, uri: string, id: int, encrypt: bool, direction: string)

  datatype Caps = Caps(codecs: seq<Codec>, exts: seq<Extension>)

  /** Payload types may be missing; the others are as the validator leaves them. */
  function IntAt(c: Value, k: Key): Option<int> {
    if c.HasInt(k) then Some(c.fields[k].i) else None
  }

  function ReadCodec(c: Value): Codec
    requires NormalCodec(c)
  {
    Codec(c.fields[MimeType].s, c.fields[Kind].s, c.fields[ClockRate].i, IntAt(c, PreferredPayloadType),
          IntAt(c, Channels), c.fields[Parameters].fields, c.fields[RtcpFeedback].items)
  }

  function ReadExtension(x: Value): Extension
    requires NormalExtension(x)
  {
    Extension(x.fields[Kind].s, x.fields[Uri].s, x.fields[PreferredId].i, x.fields[PreferredEncrypt].b,
              x.fields[Direction].s)
  }

  function ReadCaps(v: Value): Caps
    requires NormalCapabilities(v)
  {
    var cs := v.fields[Codecs].items;
    var xs := v.fields[HeaderExtensions].items;
    Caps(seq(|cs|, i requires 0 <= i < |cs| => ReadCodec(cs[i])),
         seq(|xs|, i requires 0 <= i < |xs| => ReadExtension(xs[i])))
  }

  // ---- Matching two codecs ----------------------------------------------------------------

  /** The H.264 parameters of a codec, and the library that compares them. */
  datatype Avc = Avc(asymmetry: nat, mode: nat, id: string)

  datatype Answer = Refused | NoId | WithId(id: string)

  datatype H264 = H264(same: (Avc, Avc) -> bool, answer: (Avc, Avc) -> Answer)

  predicate IsRtx(mime: string) { Lowered(mime) == "audio/rtx" || Lowered(mime) == "video/rtx" }

  predicate IsAvc(mime: string) { Lowered(mime) == "video/h264" }

  function Digits(n: nat): string {
    if n < 10 then [(n + 48) as char] else Digits(n / 10) + [(n % 10 + 48) as char]
  }

  /** An integer as 32 bits hold it, in decimal. */
  function Decimal(n: int): string {
    var m := n % 0x1_0000_0000;
    if m < 0x8000_0000 then Digits(m) else "-" + Digits(0x1_0000_0000 - m)
  }

  /** The text of a profile parameter; asking a null for its text is an error. */
  function TextAt(params: map<Key, Value>, k: Key, missing: string): Result<string> {
    if k !in params then Ok(missing)
    else
      match params[k]
      case Int(i) => Ok(Decimal(i))
      case Float(r) => Ok(Decimal(Samples.Truncate(r)))
      case Str(s) => Ok(s)
      case _ => Err
  }

  /** A small unsigned parameter; only the low eight bits count. */
  function ByteAt(params: map<Key, Value>, k: Key): nat {
    if k in params && params[k].Int? then params[k].i % 256 else 0
  }

  datatype Match = Matches(params: map<Key, Value>) | Differs | Throws

  function MatchAvc(h: H264, a: Codec, b: Codec): Match {
    var aId := TextAt(a.params, ProfileLevelId, "");
    var bId := TextAt(b.params, ProfileLevelId, "");
    if ByteAt(a.params, PacketizationMode) != ByteAt(b.params, PacketizationMode) then Differs
    else if aId.Err? || bId.Err? then Throws
    else
      var p := Avc(ByteAt(a.params, LevelAsymmetryAllowed), ByteAt(a.params, PacketizationMode), aId.value);
      var q := Avc(ByteAt(b.params, LevelAsymmetryAllowed), ByteAt(b.params, PacketizationMode), bId.value);
      if !h.same(p, q) then Differs
      else
        match h.answer(p, q)
        case Refused => Differs
        case NoId => Matches(a.params - {ProfileLevelId})
        case WithId(s) => Matches(a.params[ProfileLevelId := Str(s)])
  }

  function MatchVp9(a: Codec, b: Codec): Match {
    var aId := TextAt(a.params, ProfileId, "0");
    var bId := TextAt(b.params, ProfileId, "0");
    if aId.Err? || bId.Err? then Throws
    else if aId.value == bId.value then Matches(a.params) else Differs
  }

  /** Whether `a` matches `b`, and what the match makes of `a`'s parameters. */
  function MatchCodecs(h: H264, a: Codec, b: Codec): Match {
    if Lowered(a.mime) != Lowered(b.mime) || a.clock != b.clock || a.channels != b.channels then Differs
    else if IsAvc(a.mime) then MatchAvc(h, a, b)
    else if Lowered(a.mime) == "video/vp9" then MatchVp9(a, b)
    else Matches(a.params)
  }

  // ---- Which codecs match ---------------------------------------------------------------------

  predicate IsVp9(mime: string) { Lowered(mime) == "video/vp9" }

  /** The two codecs say the same under `k`, where silence means `missing`. */
  predicate SameText(a: Codec, b: Codec, k: Key, missing: string) {
    TextAt(a.params, k, missing).Ok? && TextAt(a.params, k, missing) == TextAt(b.params, k, missing)
  }

  predicate HasProfile(c: Codec) { TextAt(c.params, ProfileLevelId, "").Ok? }

  function AvcOf(c: Codec): Avc
    requires HasProfile(c)
  {
    Avc(ByteAt(c.params, LevelAsymmetryAllowed), ByteAt(c.params, PacketizationMode),
        TextAt(c.params, ProfileLevelId, "").value)
  }

  /** Same packetization mode, same profile, and an answer both can use. */
  predicate SameAvc(h: H264, a: Codec, b: Codec) {
    && ByteAt(a.params, PacketizationMode) == ByteAt(b.params, PacketizationMode)
    && HasProfile(a) && HasProfile(b)
    && h.same(AvcOf(a), AvcOf(b)) && !h.answer(AvcOf(a), AvcOf(b)).Refused?
  }

  /** What one side sends the other can decode. */
  predicate Compatible(h: H264, a: Codec, b: Codec) {
    && Lowered(a.mime) == Lowered(b.mime) && a.clock == b.clock && a.channels == b.channels
    && (IsAvc(a.mime) ==> SameAvc(h, a, b))
    && (IsVp9(a.mime) ==> SameText(a, b, ProfileId, "0"))
  }

  /** Codecs match exactly when they are compatible. A match throws instead of failing when a
      profile that has to be compared is no text. */
  lemma MatchIff(h: H264, a: Codec, b: Codec)
    ensures MatchCodecs(h, a, b).Matches? <==> Compatible(h, a, b)
    ensures MatchCodecs(h, a, b).Throws? <==>
            && Lowered(a.mime) == Lowered(b.mime) && a.clock == b.clock && a.channels == b.channels
            && if IsAvc(a.mime) then
                 ByteAt(a.params, PacketizationMode) == ByteAt(b.params, PacketizationMode) &&
                 (!HasProfile(a) || !HasProfile(b))
               else
                 IsVp9(a.mime) && (TextAt(a.params, ProfileId, "0").Err? || TextAt(b.params, ProfileId, "0").Err?)
  {
    hide Lowered, TextAt, ByteAt;
    AvcIsNoVp9();
  }

  lemma AvcIsNoVp9()
    ensures "video/h264" != "video/vp9"
  {
  }

  /** An H.264 match takes over the profile the library answers with, or none; every other
      parameter, and every other codec, stays as it is. */
  lemma MatchAnswers(h: H264, a: Codec, b: Codec)
    requires Compatible(h, a, b)
    ensures var m := MatchCodecs(h, a, b);
            && m.Matches? && m.params - {ProfileLevelId} == a.params - {ProfileLevelId}
            && (!IsAvc(a.mime) ==> m.params == a.params)
            && (IsAvc(a.mime) ==>
                  match h.answer(AvcOf(a), AvcOf(b))
                  case WithId(id) => ProfileLevelId in m.params && m.params[ProfileLevelId] == Str(id)
                  case _ => ProfileLevelId !in m.params)
  {
    hide Lowered, TextAt, ByteAt;
    AvcIsNoVp9();
    var m := MatchCodecs(h, a, b).params;
    assert m - {ProfileLevelId} == a.params - {ProfileLevelId};
  }

  lemma {:induction false} DigitsSame(m: nat, n: nat)
    ensures Digits(m) == Digits(n) ==> m == n
  {
    if m >= 10 && n >= 10 && Digits(m) == Digits(n) {
      var a, b := Digits(m / 10), Digits(n / 10);
      var c, d := (m % 10 + 48) as char, (n % 10 + 48) as char;
      assert a == (a + [c])[..|a|] && b == (b + [d])[..|b|];
      assert (a + [c])[|a|] == c && (b + [d])[|b|] == d;
      DigitsSame(m / 10, n / 10);
    } else if Digits(m) == Digits(n) {
      DigitsLength(m);
      DigitsLength(n);
    }
  }

  lemma {:induction false} DigitsLength(n: nat)
    ensures |Digits(n)| >= 1 && (n >= 10 ==> |Digits(n)| >= 2) && Digits(n)[0] != '-'
  {
    if n >= 10 { DigitsLength(n / 10); }
  }

  /** A number and its text say the same: two integers read alike exactly when they are the
      same 32-bit number. */
  lemma DecimalSame(m: int, n: int)
    ensures Decimal(m) == Decimal(n) <==> m % 0x1_0000_0000 == n % 0x1_0000_0000
  {
    hide Digits;
    var a, b := m % 0x1_0000_0000, n % 0x1_0000_0000;
    if Decimal(m) == Decimal(n) {
      DigitsLength(a);
      DigitsLength(b);
      if a < 0x8000_0000 && b < 0x8000_0000 {
        DigitsSame(a, b);
      } else if a >= 0x8000_0000 && b >= 0x8000_0000 {
        var x, y := Digits(0x1_0000_0000 - a), Digits(0x1_0000_0000 - b);
        assert x == ("-" + x)[1..] && y == ("-" + y)[1..];
        DigitsSame(0x1_0000_0000 - a, 0x1_0000_0000 - b);
      } else {
        assert Decimal(m)[0] == Decimal(n)[0];
      }
    }
  }

  datatype Found = At(i: nat, params: map<Key, Value>) | Nowhere | Broken

  /** The first local codec from `i` on that matches. */
  function FindMatch(h: H264, local: seq<Codec>, r: Codec, i: nat): (f: Found)
    requires i <= |local|
    ensures f.At? ==> i <= f.i < |local| && MatchCodecs(h, local[f.i], r) == Matches(f.params)
    ensures f.At? ==> forall k :: i <= k < f.i ==> MatchCodecs(h, local[k], r).Differs?
    ensures f.Nowhere? ==> forall k :: i <= k < |local| ==> MatchCodecs(h, local[k], r).Differs?
    decreases |local| - i
  {
    if i == |local| then Nowhere
    else
      match MatchCodecs(h, local[i], r)
      case Matches(params) => At(i, params)
      case Differs => FindMatch(h, local, r, i + 1)
      case Throws => Broken
  }

  // ---- Feedback -----------------------------------------------------------------------------

  predicate SameFeedback(a: Value, b: Value) {
    NormalFeedback(a) && NormalFeedback(b) &&
    a.fields[Type] == b.fields[Type] && a.fields[Parameter] == b.fields[Parameter]
  }

  function FindFeedback(a: Value, theirs: seq<Value>): (r: seq<Value>)
    ensures |r| <= 1 && forall x :: x in r ==> x in theirs && SameFeedback(a, x)
    ensures r == [] <==> forall x :: x in theirs ==> !SameFeedback(a, x)
  {
    if theirs == [] then [] else if SameFeedback(a, theirs[0]) then [theirs[0]] else FindFeedback(a, theirs[1..])
  }

  /** The remote entries that some local entry names, in the local order. */
  function Reduce(ours: seq<Value>, theirs: seq<Value>): (r: seq<Value>)
    ensures forall x :: x in r ==> x in theirs && exists a :: a in ours && SameFeedback(a, x)
  {
    if ours == [] then []
    else
      var n := |ours| - 1;
      assert ours == ours[..n] + [ours[n]];
      Reduce(ours[..n], theirs) + FindFeedback(ours[n], theirs)
  }

  /** Nothing both sides name is lost. */
  lemma {:induction false} ReduceFinds(ours: seq<Value>, theirs: seq<Value>, a: Value, b: Value) returns (x: Value)
    requires a in ours && b in theirs && SameFeedback(a, b)
    ensures x in Reduce(ours, theirs) && SameFeedback(a, x)
  {
    var n := |ours| - 1;
    assert ours == ours[..n] + [ours[n]];
    if a == ours[n] {
      x := FindFeedback(a, theirs)[0];
    } else {
      x := ReduceFinds(ours[..n], theirs, a, b);
    }
  }

  /** Type and parameter of a feedback entry. */
  predicate Names(fb: Value, kind: string, parameter: string) {
    fb.HasStr(Type) && fb.HasStr(Parameter) && fb.fields[Type].s == kind && fb.fields[Parameter].s == parameter
  }

  /** `x` is the first of `theirs` with the type and parameter of `a`. */
  predicate FirstNamed(a: Value, x: Value, theirs: seq<Value>) {
    a.HasStr(Type) && a.HasStr(Parameter) &&
    exists j :: 0 <= j < |theirs| && theirs[j] == x && Names(x, a.fields[Type].s, a.fields[Parameter].s)
      && forall k :: 0 <= k < j ==> !Names(theirs[k], a.fields[Type].s, a.fields[Parameter].s)
  }

  predicate Unnamed(a: Value, theirs: seq<Value>) {
    a.HasStr(Type) && a.HasStr(Parameter) ==>
      forall x :: x in theirs ==> !Names(x, a.fields[Type].s, a.fields[Parameter].s)
  }

  lemma {:induction false} FindsFirst(a: Value, theirs: seq<Value>)
    ensures FindFeedback(a, theirs) != [] ==> FirstNamed(a, FindFeedback(a, theirs)[0], theirs)
    ensures FindFeedback(a, theirs) == [] ==> Unnamed(a, theirs)
  {
    if theirs != [] && !SameFeedback(a, theirs[0]) {
      FindsFirst(a, theirs[1..]);
      if FindFeedback(a, theirs) != [] {
        var j :| 0 <= j < |theirs[1..]| && theirs[1..][j] == FindFeedback(a, theirs)[0]
          && Names(theirs[1..][j], a.fields[Type].s, a.fields[Parameter].s)
          && forall k :: 0 <= k < j ==> !Names(theirs[1..][k], a.fields[Type].s, a.fields[Parameter].s);
        assert theirs[j + 1] == theirs[1..][j];
        forall k | 0 <= k < j + 1 ensures !Names(theirs[k], a.fields[Type].s, a.fields[Parameter].s) {
          if k > 0 { assert theirs[k] == theirs[1..][k - 1]; }
        }
      }
    }
  }

  lemma IncreasingNone(n: nat)
    ensures Increasing([], n)
  {
  }

  lemma IncreasingNext(at: seq<nat>, n: nat)
    requires Increasing(at, n)
    ensures Increasing(at, n + 1) && Increasing(at + [n], n + 1) && at + [] == at
  {
  }

  lemma ReduceUnfold(ours: seq<Value>, theirs: seq<Value>, n: nat)
    requires n + 1 == |ours|
    ensures Reduce(ours, theirs) == Reduce(ours[..n], theirs) + FindFeedback(ours[n], theirs)
  {
    hide SameFeedback, FindFeedback;
  }

  /** The reduced feedback is, in the local order, the first remote entry of the same type and
      parameter for each local entry that has one. */
  lemma {:induction false} ReduceExact(ours: seq<Value>, theirs: seq<Value>) returns (at: seq<nat>)
    ensures |at| == |Reduce(ours, theirs)| && Increasing(at, |ours|)
    ensures forall k :: 0 <= k < |at| ==> FirstNamed(ours[at[k]], Reduce(ours, theirs)[k], theirs)
    ensures forall i :: 0 <= i < |ours| && i !in at ==> Unnamed(ours[i], theirs)
  {
    hide Names, FirstNamed, SameFeedback, Unnamed, Increasing;
    at := [];
    IncreasingNone(|ours|);
    if ours != [] {
      var n := |ours| - 1;
      var before := ReduceExact(ours[..n], theirs);
      var found := FindFeedback(ours[n], theirs);
      ReduceUnfold(ours, theirs, n);
      FindsFirst(ours[n], theirs);
      hide Reduce, FindFeedback;
      IncreasingNext(before, n);
      at := before + if found == [] then [] else [n];
      assert found != [] ==> at[|before|] == n;
      forall i | 0 <= i < |ours| && i !in at ensures Unnamed(ours[i], theirs) {
        if i < n { assert i !in before && ours[..n][i] == ours[i]; }
      }
    }
  }

  method FirstFeedback(a: Value, theirs: seq<Value>) returns (found: seq<Value>)
    ensures found == FindFeedback(a, theirs)
  {
    hide SameFeedback;
    var j := 0;
    while j < |theirs| && !SameFeedback(a, theirs[j])
      invariant 0 <= j <= |theirs| && FindFeedback(a, theirs) == FindFeedback(a, theirs[j..])
    {
      assert theirs[j..][1..] == theirs[j + 1..];
      j := j + 1;
    }
    found := if j < |theirs| then [theirs[j]] else [];
  }

  method ReduceFeedback(ours: seq<Value>, theirs: seq<Value>) returns (r: seq<Value>)
    ensures r == Reduce(ours, theirs)
  {
    hide SameFeedback;
    r := [];
    for i := 0 to |ours|
      invariant r == Reduce(ours[..i], theirs)
    {
      assert ours[..i + 1][..i] == ours[..i];
      ReduceUnfold(ours[..i + 1], theirs, i);
      var found := FirstFeedback(ours[i], theirs);
      hide Reduce, FindFeedback;
      r := r + found;
    }
    assert ours[..|ours|] == ours;
  }

  // ---- Extended codecs ------------------------------------------------------------------------

  /** A codec both sides have. A payload type that is null in JSON is None. */
  datatype Extended = Extended(mime: string, kind: string, clock: int, channels: Option<int>,
                               localPt: Option<int>, localRtx: Option<int>,
                               remotePt: Option<int>, remoteRtx: Option<int>,
                               localParams: map<Key, Value>, remoteParams: map<Key, Value>,
                               feedback: seq<Value>)

  function Extend(l: Codec, r: Codec): Extended {
    Extended(l.mime, l.kind, l.clock, l.channels, l.pt, None, r.pt, None, l.params, r.params,
             Reduce(l.feedback, r.feedback))
  }

  /** The local codecs, which matching changes, and the extended codecs made so far. */
  datatype Progress = Progress(local: seq<Codec>, out: seq<Extended>)

  function MatchOne(h: H264, p: Progress, r: Codec): Result<Progress> {
    if IsRtx(r.mime) then Ok(p)
    else
      match FindMatch(h, p.local, r, 0)
      case Broken => Err
      case Nowhere => Ok(p)
      case At(i, params) =>
        var l := p.local[i].(params := params);
        Ok(Progress(p.local[i := l], p.out + [Extend(l, r)]))
  }

  /** After the first `n` remote codecs, in the order the remote side prefers. */
  function MatchFirst(h: H264, local: seq<Codec>, remote: seq<Codec>, n: nat): Result<Progress>
    requires n <= |remote|
  {
    if n == 0 then Ok(Progress(local, []))
    else
      var p := MatchFirst(h, local, remote, n - 1);
      if p.Err? then Err else MatchOne(h, p.value, remote[n - 1])
  }

  lemma {:induction false} MatchStops(h: H264, local: seq<Codec>, remote: seq<Codec>, n: nat, m: nat)
    requires n <= m <= |remote| && MatchFirst(h, local, remote, n).Err?
    ensures MatchFirst(h, local, remote, m).Err?
    decreases m - n
  {
    if n < m { MatchStops(h, local, remote, n, m - 1); }
  }

  method FindLocal(h: H264, local: seq<Codec>, r: Codec) returns (f: Found)
    ensures f == FindMatch(h, local, r, 0)
  {
    var i := 0;
    while i < |local|
      invariant 0 <= i <= |local|
      invariant FindMatch(h, local, r, 0) == FindMatch(h, local, r, i)
    {
      match MatchCodecs(h, local[i], r) {
        case Matches(params) => return At(i, params);
        case Throws => return Broken;
        case Differs =>
      }
      i := i + 1;
    }
    return Nowhere;
  }

  method MatchMedia(h: H264, local: seq<Codec>, remote: seq<Codec>) returns (r: Result<Progress>)
    ensures r == MatchFirst(h, local, remote, |remote|)
  {
    hide MatchCodecs, IsRtx, FindMatch, Extend;
    var locals, out := local, [];
    for n := 0 to |remote|
      invariant MatchFirst(h, local, remote, n) == Ok(Progress(locals, out))
    {
      var codec := remote[n];
      if !IsRtx(codec.mime) {
        var f := FindLocal(h, locals, codec);
        match f {
          case Nowhere =>
          case At(i, params) =>
            locals := locals[i := locals[i].(params := params)];
            out := out + [Extend(locals[i], codec)];
          case Broken =>
            assert MatchFirst(h, local, remote, n + 1).Err?;
            MatchStops(h, local, remote, n + 1, |remote|);
            return Err;
        }
      }
    }
    return Ok(Progress(locals, out));
  }

  // ---- The extended codecs are a subsequence of the remote ones ----------------------------------

  /** Matching may have rewritten the profile of an H.264 codec, and nothing else. */
  predicate Rewritten(was: Codec, now: Codec) {
    && now == was.(params := now.params)
    && (now == was || IsAvc(was.mime))
    && now.params - {ProfileLevelId} == was.params - {ProfileLevelId}
    && (ProfileLevelId in now.params && !now.params[ProfileLevelId].Str? ==> now == was)
  }

  predicate AllRewritten(was: seq<Codec>, now: seq<Codec>) {
    |now| == |was| && forall i :: 0 <= i < |was| ==> Rewritten(was[i], now[i])
  }

  /** `e` joins the local codec `l` with the remote codec `r`. */
  predicate Joins(e: Extended, l: Codec, r: Codec) {
    && e.mime == l.mime && e.kind == l.kind && e.clock == l.clock && e.channels == l.channels
    && Lowered(l.mime) == Lowered(r.mime) && l.clock == r.clock && l.channels == r.channels
    && e.localPt == l.pt && e.remotePt == r.pt && e.remoteParams == r.params
    && Rewritten(l, l.(params := e.localParams))
    && e.feedback == Reduce(l.feedback, r.feedback)
  }

  lemma MatchRewrites(h: H264, a: Codec, b: Codec)
    requires MatchCodecs(h, a, b).Matches?
    ensures Rewritten(a, a.(params := MatchCodecs(h, a, b).params))
    ensures Lowered(a.mime) == Lowered(b.mime) && a.clock == b.clock && a.channels == b.channels
  {
    var m := MatchCodecs(h, a, b).params;
    assert m - {ProfileLevelId} == a.params - {ProfileLevelId};
  }

  lemma RewrittenTwice(a: Codec, b: Codec, c: Codec)
    requires Rewritten(a, b) && Rewritten(b, c)
    ensures Rewritten(a, c)
  {
  }

  /** The indices, in the remote list, of the codecs that were extended. */
  ghost function Taken(h: H264, local: seq<Codec>, remote: seq<Codec>, n: nat): (at: seq<nat>)
    requires n <= |remote| && MatchFirst(h, local, remote, n).Ok?
  {
    if n == 0 then []
    else
      var p := MatchFirst(h, local, remote, n - 1).value;
      if |MatchFirst(h, local, remote, n).value.out| == |p.out|
      then Taken(h, local, remote, n - 1)
      else Taken(h, local, remote, n - 1) + [n - 1]
  }

  predicate Increasing(at: seq<nat>, n: nat) {
    (forall k :: 0 <= k < |at| ==> at[k] < n) && forall j, k :: 0 <= j < k < |at| ==> at[j] < at[k]
  }

  predicate Joined(e: Extended, local: seq<Codec>, r: Codec) {
    !IsRtx(r.mime) && exists i :: 0 <= i < |local| && Joins(e, local[i], r)
  }

  predicate AllJoined(out: seq<Extended>, local: seq<Codec>, remote: seq<Codec>, at: seq<nat>) {
    && |at| == |out| && Increasing(at, |remote|)
    && forall k :: 0 <= k < |out| ==> Joined(out[k], local, remote[at[k]])
  }

  /** In spite of the matching that rewrites local codecs, the extended codecs are, in order,
      some of the remote media codecs, each joined with a local codec that matches it. */
  lemma {:induction false} InRemoteOrder(h: H264, local: seq<Codec>, remote: seq<Codec>, n: nat)
    requires n <= |remote| && MatchFirst(h, local, remote, n).Ok?
    ensures var p := MatchFirst(h, local, remote, n).value; var at := Taken(h, local, remote, n);
            && AllRewritten(local, p.local) && Increasing(at, n)
            && AllJoined(p.out, local, remote, at)
  {
    if n != 0 {
      InRemoteOrder(h, local, remote, n - 1);
      var p := MatchFirst(h, local, remote, n - 1).value;
      MatchOneJoins(h, local, p, remote[n - 1]);
      hide MatchOne, AllRewritten, AllJoined, Joined;
      var at := Taken(h, local, remote, n - 1);
      var q := MatchFirst(h, local, remote, n).value;
      if q.out != p.out {
        JoinedGrows(p.out, local, remote, at, q.out[|p.out|], n - 1);
        assert q.out == p.out + [q.out[|p.out|]];
      }
    }
  }

  lemma JoinedGrows(out: seq<Extended>, local: seq<Codec>, remote: seq<Codec>, at: seq<nat>, e: Extended, i: nat)
    requires AllJoined(out, local, remote, at) && Increasing(at, i)
    requires i < |remote| && Joined(e, local, remote[i])
    ensures AllJoined(out + [e], local, remote, at + [i]) && Increasing(at + [i], i + 1)
  {
    hide Joined;
  }

  lemma MatchOneJoins(h: H264, local: seq<Codec>, p: Progress, r: Codec)
    requires AllRewritten(local, p.local) && MatchOne(h, p, r).Ok?
    ensures var q := MatchOne(h, p, r).value;
            && AllRewritten(local, q.local)
            && (q.out == p.out ||
                (|q.out| == |p.out| + 1 && q.out[..|p.out|] == p.out && Joined(q.out[|p.out|], local, r)))
  {
    var f := FindMatch(h, p.local, r, 0);
    if !IsRtx(r.mime) && f.At? {
      hide MatchCodecs, Lowered;
      MatchRewrites(h, p.local[f.i], r);
      var l := p.local[f.i].(params := f.params);
      RewrittenTwice(local[f.i], p.local[f.i], l);
      assert Joins(Extend(l, r), local[f.i], r);
    }
  }

  lemma RewrittenMatches(h: H264, was: Codec, now: Codec, r: Codec)
    requires Rewritten(was, now) && !IsAvc(r.mime)
    ensures MatchCodecs(h, was, r) == MatchCodecs(h, now, r)
  {
  }

  /** And it leaves none out: a remote media codec is extended exactly when one of the local
      codecs, as the codecs before it have left them, matches it. */
  lemma {:induction false} TakenNow(h: H264, local: seq<Codec>, remote: seq<Codec>, n: nat, j: nat)
    requires j < n <= |remote| && MatchFirst(h, local, remote, n).Ok? && !IsRtx(remote[j].mime)
    ensures MatchFirst(h, local, remote, j).Ok?
    ensures var now := MatchFirst(h, local, remote, j).value.local;
            j in Taken(h, local, remote, n) <==> exists i :: 0 <= i < |now| && Compatible(h, now[i], remote[j])
    decreases n
  {
    hide MatchCodecs, MatchOne, AllJoined, AllRewritten, Compatible;
    InRemoteOrder(h, local, remote, n - 1);
    if j < n - 1 {
      TakenNow(h, local, remote, n - 1, j);
    } else {
      MatchedIff(h, MatchFirst(h, local, remote, j).value, remote[j]);
    }
  }

  lemma MatchedIff(h: H264, p: Progress, r: Codec)
    requires MatchOne(h, p, r).Ok? && !IsRtx(r.mime)
    ensures |MatchOne(h, p, r).value.out| != |p.out|
            <==> exists i :: 0 <= i < |p.local| && Compatible(h, p.local[i], r)
  {
    hide MatchCodecs, Compatible;
    forall i | 0 <= i < |p.local|
      ensures MatchCodecs(h, p.local[i], r).Matches? <==> Compatible(h, p.local[i], r)
    {
      MatchIff(h, p.local[i], r);
    }
  }

  /** The local codec it is joined with is the first that is compatible with it, and the
      extended codec says what the two say. */
  lemma JoinsFirst(h: H264, p: Progress, r: Codec) returns (i: nat)
    requires MatchOne(h, p, r).Ok? && !IsRtx(r.mime) && exists k :: 0 <= k < |p.local| && Compatible(h, p.local[k], r)
    ensures i < |p.local| && Compatible(h, p.local[i], r) && forall k :: 0 <= k < i ==> !Compatible(h, p.local[k], r)
    ensures var q, l := MatchOne(h, p, r).value, p.local[i];
            && |q.out| == |p.out| + 1 && q.out[..|p.out|] == p.out && Joins(q.out[|p.out|], l, r)
            && q.out[|p.out|].localParams == MatchCodecs(h, l, r).params
  {
    hide MatchCodecs, Compatible, Rewritten, Lowered;
    forall k | 0 <= k < |p.local|
      ensures MatchCodecs(h, p.local[k], r).Matches? <==> Compatible(h, p.local[k], r)
    {
      MatchIff(h, p.local[k], r);
    }
    i := FindMatch(h, p.local, r, 0).i;
    MatchRewrites(h, p.local[i], r);
  }

  /** H.264 apart, that is when one of the local codecs as they were offered matches it. */
  lemma TakenIff(h: H264, local: seq<Codec>, remote: seq<Codec>, n: nat, j: nat)
    requires j < n <= |remote| && MatchFirst(h, local, remote, n).Ok?
    requires !IsRtx(remote[j].mime) && !IsAvc(remote[j].mime)
    ensures j in Taken(h, local, remote, n)
            <==> exists i :: 0 <= i < |local| && Compatible(h, local[i], remote[j])
  {
    TakenNow(h, local, remote, n, j);
    InRemoteOrder(h, local, remote, j);
    var now := MatchFirst(h, local, remote, j).value.local;
    hide MatchFirst, MatchCodecs, Rewritten, Compatible;
    forall i | 0 <= i < |local|
      ensures Compatible(h, local[i], remote[j]) <==> Compatible(h, now[i], remote[j])
    {
      RewrittenMatches(h, local[i], now[i], remote[j]);
      MatchIff(h, local[i], remote[j]);
      MatchIff(h, now[i], remote[j]);
    }
  }

  // ---- Matching as a relation -----------------------------------------------------------------

  /** What a fair H.264 library answers: either way round alike, and yes to itself. */
  ghost predicate Fair(h: H264) {
    && (forall p, q :: h.same(p, q) == h.same(q, p) && h.answer(p, q).Refused? == h.answer(q, p).Refused?)
    && (forall p :: h.same(p, p) && !h.answer(p, p).Refused?)
  }

  /** It makes no difference which side a codec is on. */
  lemma MatchSymmetric(h: H264, a: Codec, b: Codec)
    requires IsAvc(a.mime) ==> Fair(h)
    ensures MatchCodecs(h, a, b).Matches? <==> MatchCodecs(h, b, a).Matches?
  {
  }

  /** The profile matching looks at is there to be read, or the default is. */
  predicate Readable(c: Codec) {
    && (IsAvc(c.mime) ==> TextAt(c.params, ProfileLevelId, "").Ok?)
    && (Lowered(c.mime) == "video/vp9" ==> TextAt(c.params, ProfileId, "0").Ok?)
  }

  /** A codec matches itself if and only if its profile can be read; otherwise matching
      throws. */
  lemma MatchSelf(h: H264, c: Codec)
    requires IsAvc(c.mime) ==> Fair(h)
    ensures if Readable(c) then MatchCodecs(h, c, c).Matches? else MatchCodecs(h, c, c).Throws?
    ensures Readable(c) && !IsAvc(c.mime) ==> MatchCodecs(h, c, c) == Matches(c.params)
  {
  }

  predicate NoAvc(codecs: seq<Codec>) { forall k :: 0 <= k < |codecs| ==> !IsAvc(codecs[k].mime) }

  predicate AllReadable(codecs: seq<Codec>) { forall k :: 0 <= k < |codecs| ==> Readable(codecs[k]) }

  lemma PairReadable(h: H264, a: Codec, b: Codec)
    requires !IsAvc(a.mime)
    ensures Readable(a) && Readable(b) ==> !MatchCodecs(h, a, b).Throws?
    ensures !Readable(b) ==> !MatchCodecs(h, a, b).Matches?
  {
  }

  lemma {:induction false} NeverBroken(h: H264, local: seq<Codec>, r: Codec, i: nat)
    requires i <= |local| && NoAvc(local) && Readable(r) && AllReadable(local)
    ensures !FindMatch(h, local, r, i).Broken?
    decreases |local| - i
  {
    hide MatchCodecs, Readable;
    if i < |local| {
      PairReadable(h, local[i], r);
      NeverBroken(h, local, r, i + 1);
    }
  }

  lemma {:induction false} SurelyBroken(h: H264, local: seq<Codec>, r: Codec, i: nat, k: nat)
    requires i <= k < |local| && local[k] == r && NoAvc(local) && !Readable(r)
    ensures FindMatch(h, local, r, i).Broken?
    decreases k - i
  {
    MatchSelf(h, r);
    hide MatchCodecs, Readable;
    PairReadable(h, local[i], r);
    if i < k { SurelyBroken(h, local, r, i + 1, k); }
  }

  lemma NoAvcKeeps(h: H264, local: seq<Codec>, remote: seq<Codec>, n: nat)
    requires n <= |remote| && NoAvc(local) && MatchFirst(h, local, remote, n).Ok?
    ensures MatchFirst(h, local, remote, n).value.local == local
  {
    InRemoteOrder(h, local, remote, n);
    var now := MatchFirst(h, local, remote, n).value.local;
    hide MatchFirst;
    forall i | 0 <= i < |local| ensures now[i] == local[i] {
      assert Rewritten(local[i], now[i]);
    }
  }

  lemma {:induction false} SelfSucceeds(h: H264, codecs: seq<Codec>, n: nat)
    requires n <= |codecs| && NoAvc(codecs) && AllReadable(codecs)
    ensures MatchFirst(h, codecs, codecs, n).Ok?
  {
    hide MatchCodecs, Readable, IsAvc;
    if n != 0 {
      SelfSucceeds(h, codecs, n - 1);
      NoAvcKeeps(h, codecs, codecs, n - 1);
      NeverBroken(h, codecs, codecs[n - 1], 0);
    }
  }

  lemma SelfFails(h: H264, codecs: seq<Codec>, k: nat)
    requires k < |codecs| && NoAvc(codecs) && !Readable(codecs[k])
    ensures MatchFirst(h, codecs, codecs, |codecs|).Err?
  {
    hide Lowered, IsRtx, Readable, IsAvc, MatchCodecs, FindMatch;
    var r := codecs[k];
    UnreadableIsMedia(r);
    if MatchFirst(h, codecs, codecs, k).Ok? {
      NoAvcKeeps(h, codecs, codecs, k);
      SurelyBroken(h, codecs, r, 0, k);
      assert MatchFirst(h, codecs, codecs, k + 1).Err?;
      hide MatchFirst;
      MatchStops(h, codecs, codecs, k + 1, |codecs|);
    } else {
      hide MatchFirst;
      MatchStops(h, codecs, codecs, k, |codecs|);
    }
  }

  lemma UnreadableIsMedia(c: Codec)
    requires !IsAvc(c.mime) && !Readable(c)
    ensures !IsRtx(c.mime)
  {
    hide Lowered;
    assert "video/vp9"[0] != "audio/rtx"[0] && "video/vp9"[6] != "video/rtx"[6];
  }

  /** A side without H.264 that negotiates with itself succeeds if and only if its profiles
      can be read; then it keeps its codecs as they are and gets exactly its media codecs. */
  lemma SelfMatch(h: H264, codecs: seq<Codec>)
    requires NoAvc(codecs)
    ensures var p := MatchFirst(h, codecs, codecs, |codecs|);
            && (p.Ok? <==> AllReadable(codecs))
            && (p.Ok? ==>
                  && p.value.local == codecs
                  && forall j :: 0 <= j < |codecs| ==>
                       (j in Taken(h, codecs, codecs, |codecs|) <==> !IsRtx(codecs[j].mime)))
  {
    hide MatchFirst, Taken, Readable, IsAvc, MatchCodecs;
    var n := |codecs|;
    if AllReadable(codecs) {
      SelfSucceeds(h, codecs, n);
      NoAvcKeeps(h, codecs, codecs, n);
      InRemoteOrder(h, codecs, codecs, n);
      forall j | 0 <= j < n && !IsRtx(codecs[j].mime) ensures j in Taken(h, codecs, codecs, n) {
        SelfTaken(h, codecs, n, j);
      }
    } else {
      var k :| 0 <= k < n && !Readable(codecs[k]);
      SelfFails(h, codecs, k);
    }
  }

  lemma SelfTaken(h: H264, codecs: seq<Codec>, n: nat, j: nat)
    requires j < n <= |codecs| && NoAvc(codecs) && MatchFirst(h, codecs, codecs, n).Ok?
    requires !IsRtx(codecs[j].mime) && Readable(codecs[j])
    ensures j in Taken(h, codecs, codecs, n)
  {
    TakenNow(h, codecs, codecs, n, j);
    NoAvcKeeps(h, codecs, codecs, j);
    MatchSelf(h, codecs[j]);
    hide MatchFirst, Taken, Readable, IsAvc, MatchCodecs;
  }

  // ---- RTX ----------------------------------------------------------------------------------------

  /** The codec is the RTX codec of payload type `pt`. */
  predicate IsRtxOf(c: Codec, pt: Option<int>) {
    IsRtx(c.mime) && pt.Some? && Apt in c.params && c.params[Apt] == Int(pt.value)
  }

  function FindRtx(codecs: seq<Codec>, pt: Option<int>): (r: Option<Codec>)
    ensures r.Some? ==> r.value in codecs && IsRtxOf(r.value, pt)
    ensures r.None? ==> forall c :: c in codecs ==> !IsRtxOf(c, pt)
  {
    if codecs == [] then None
    else if IsRtxOf(codecs[0], pt) then Some(codecs[0]) else FindRtx(codecs[1..], pt)
  }

  function AddRtx(e: Extended, local: seq<Codec>, remote: seq<Codec>): Extended {
    var l := FindRtx(local, e.localPt);
    var r := FindRtx(remote, e.remotePt);
    if l.Some? && r.Some? then e.(localRtx := l.value.pt, remoteRtx := r.value.pt) else e
  }

  function AddAllRtx(es: seq<Extended>, local: seq<Codec>, remote: seq<Codec>): (r: seq<Extended>)
    ensures |r| == |es| && forall i :: 0 <= i < |es| ==> r[i] == AddRtx(es[i], local, remote)
  {
    if es == [] then [] else [AddRtx(es[0], local, remote)] + AddAllRtx(es[1..], local, remote)
  }

  /** Every codec has a payload type; what negotiation asks of a sane offer. */
  predicate HasPayloadTypes(codecs: seq<Codec>) {
    forall i :: 0 <= i < |codecs| ==> codecs[i].pt.Some? && 0 <= codecs[i].pt.value < 128
  }

  /** Every RTX codec has a payload type. */
  predicate RtxTyped(codecs: seq<Codec>) {
    forall i :: 0 <= i < |codecs| && IsRtx(codecs[i].mime) ==> codecs[i].pt.Some?
  }

  /** Both RTX payload types or neither, each the payload type of an RTX codec of its side. */
  predicate Paired(e: Extended, local: seq<Codec>, remote: seq<Codec>) {
    && (e.localRtx.Some? <==> e.remoteRtx.Some?)
    && (e.localRtx.Some? ==> exists c :: c in local && IsRtxOf(c, e.localPt) && c.pt == e.localRtx)
    && (e.remoteRtx.Some? ==> exists c :: c in remote && IsRtxOf(c, e.remotePt) && c.pt == e.remoteRtx)
  }

  /** One of the two RTX codecs found has a payload type and the other has none. */
  predicate HalfTyped(e: Extended, local: seq<Codec>, remote: seq<Codec>) {
    var l, r := FindRtx(local, e.localPt), FindRtx(remote, e.remotePt);
    l.Some? && r.Some? && l.value.pt.Some? != r.value.pt.Some?
  }

  /** Both or neither, unless the RTX codecs found are half typed. */
  lemma RtxPairedIff(e: Extended, local: seq<Codec>, remote: seq<Codec>)
    requires e.localRtx.None? && e.remoteRtx.None?
    ensures Paired(AddRtx(e, local, remote), local, remote) <==> !HalfTyped(e, local, remote)
  {
    var l, r := FindRtx(local, e.localPt), FindRtx(remote, e.remotePt);
    if l.Some? && r.Some? {
      var f := AddRtx(e, local, remote);
      hide FindRtx;
      assert l.value in local && IsRtxOf(l.value, f.localPt) && l.value.pt == f.localRtx;
      assert r.value in remote && IsRtxOf(r.value, f.remotePt) && r.value.pt == f.remoteRtx;
    }
  }

  /** A validated offer may be half typed: an RTX codec needs no payload type. */
  lemma HalfTypedOffer(e: Extended, l: Codec, r: Codec)
    requires e.localRtx.None? && e.remoteRtx.None? && IsRtxOf(l, e.localPt) && IsRtxOf(r, e.remotePt)
    requires l.pt.Some? && r.pt.None?
    ensures HalfTyped(e, [l], [r]) && !Paired(AddRtx(e, [l], [r]), [l], [r])
  {
    RtxPairedIff(e, [l], [r]);
  }

  /** With typed RTX codecs, present exactly when both sides have one for the codec. */
  lemma RtxPaired(e: Extended, local: seq<Codec>, remote: seq<Codec>)
    requires RtxTyped(local) && RtxTyped(remote) && e.localRtx.None? && e.remoteRtx.None?
    ensures Paired(AddRtx(e, local, remote), local, remote)
    ensures AddRtx(e, local, remote).localRtx.Some? <==>
            (exists c :: c in local && IsRtxOf(c, e.localPt)) && (exists c :: c in remote && IsRtxOf(c, e.remotePt))
  {
    hide Paired;
    RtxPairedIff(e, local, remote);
    var l, r := FindRtx(local, e.localPt), FindRtx(remote, e.remotePt);
    hide FindRtx;
  }

  method MatchRtx(es: seq<Extended>, local: seq<Codec>, remote: seq<Codec>) returns (r: seq<Extended>)
    ensures r == AddAllRtx(es, local, remote)
  {
    hide FindRtx, IsRtxOf;
    r := es;
    for i := 0 to |es|
      invariant |r| == |es|
      invariant forall k :: 0 <= k < i ==> r[k] == AddRtx(es[k], local, remote)
      invariant forall k :: i <= k < |es| ==> r[k] == es[k]
    {
      var l := FindRtx(local, r[i].localPt);
      if l.Some? {
        var q := FindRtx(remote, r[i].remotePt);
        if q.Some? { r := r[i := r[i].(localRtx := l.value.pt, remoteRtx := q.value.pt)]; }
      }
    }
    assert r == AddAllRtx(es, local, remote);
  }

  // ---- Header extensions -----------------------------------------------------------------------------

  /** `direction` is None when the remote direction is none of the four. */
  datatype ExtendedExt = ExtendedExt(kind: string, uri: string, sendId: int, recvId: int, encrypt: bool,
                                     direction: Option<string>)

  function Flip(direction: string): Option<string> {
    if direction == "sendrecv" then Some("sendrecv")
    else if direction == "recvonly" then Some("sendonly")
    else if direction == "sendonly" then Some("recvonly")
    else if direction == "inactive" then Some("inactive")
    else None
  }

  predicate SameExtension(l: Extension, r: Extension) { l.kind == r.kind && l.uri == r.uri }

  function FindExtension(local: seq<Extension>, r: Extension): (l: Option<Extension>)
    ensures l.Some? ==> l.value in local && SameExtension(l.value, r)
    ensures l.None? ==> forall x :: x in local ==> !SameExtension(x, r)
  {
    if local == [] then None
    else if SameExtension(local[0], r) then Some(local[0]) else FindExtension(local[1..], r)
  }

  function JoinExtension(l: Extension, r: Extension): ExtendedExt {
    ExtendedExt(r.kind, r.uri, l.id, r.id, l.encrypt, Flip(r.direction))
  }

  function MatchExtensions(local: seq<Extension>, remote: seq<Extension>): seq<ExtendedExt> {
    if remote == [] then []
    else
      var n := |remote| - 1;
      var r := remote[n];
      var l := FindExtension(local, r);
      var rest := MatchExtensions(local, remote[..n]);
      if l.None? then rest else rest + [JoinExtension(l.value, r)]
  }

  method MatchHeaderExtensions(local: seq<Extension>, remote: seq<Extension>) returns (out: seq<ExtendedExt>)
    ensures out == MatchExtensions(local, remote)
  {
    out := [];
    for i := 0 to |remote|
      invariant out == MatchExtensions(local, remote[..i])
    {
      assert remote[..i + 1][..i] == remote[..i];
      var r := remote[i];
      var l := FindExtension(local, r);
      if l.Some? {
        out := out + [JoinExtension(l.value, r)];
      }
    }
    assert remote[..|remote|] == remote;
  }

  // ---- Extended capabilities ---------------------------------------------------------------------------

  datatype ExtendedCaps = ExtendedCaps(codecs: seq<Extended>, exts: seq<ExtendedExt>)

  function Negotiate(h: H264, local: Caps, remote: Caps): Result<ExtendedCaps> {
    var p := MatchFirst(h, local.codecs, remote.codecs, |remote.codecs|);
    if p.Err? then Err
    else Ok(ExtendedCaps(AddAllRtx(p.value.out, p.value.local, remote.codecs),
                         MatchExtensions(local.exts, remote.exts)))
  }

  /** From JSON to extended capabilities: both sides are validated first. */
  function ExtendedOf(h: H264, local: Value, remote: Value): Result<ExtendedCaps> {
    var l := ValidateCapabilities(local);
    var r := ValidateCapabilities(remote);
    if l.Err? || r.Err? then Err
    else
      CapabilitiesNormal(local);
      CapabilitiesNormal(remote);
      Negotiate(h, ReadCaps(l.value), ReadCaps(r.value))
  }

  method GetExtended(h: H264, local: Value, remote: Value) returns (r: Result<ExtendedCaps>)
    ensures r == ExtendedOf(h, local, remote)
  {
    CapabilitiesNormal(local);
    CapabilitiesNormal(remote);
    var l := ValidateCapabilities(local);
    if l.Err? { return Err; }
    var q := ValidateCapabilities(remote);
    if q.Err? { return Err; }
    var mine, theirs := ReadCaps(l.value), ReadCaps(q.value);
    var p := MatchMedia(h, mine.codecs, theirs.codecs);
    if p.Err? { return Err; }
    var codecs := MatchRtx(p.value.out, p.value.local, theirs.codecs);
    var exts := MatchHeaderExtensions(mine.exts, theirs.exts);
    return Ok(ExtendedCaps(codecs, exts));
  }

  lemma {:induction false} NoRtxYet(h: H264, local: seq<Codec>, remote: seq<Codec>, n: nat, k: nat)
    requires n <= |remote| && MatchFirst(h, local, remote, n).Ok? && k < |MatchFirst(h, local, remote, n).value.out|
    ensures var e := MatchFirst(h, local, remote, n).value.out[k]; e.localRtx.None? && e.remoteRtx.None?
  {
    if n != 0 && k < |MatchFirst(h, local, remote, n - 1).value.out| { NoRtxYet(h, local, remote, n - 1, k); }
  }

  lemma RtxUnchanged(was: Codec, now: Codec)
    requires Rewritten(was, now) && IsRtx(was.mime)
    ensures now == was
  {
  }

  lemma PairedBefore(e: Extended, was: seq<Codec>, now: seq<Codec>, remote: seq<Codec>)
    requires AllRewritten(was, now) && Paired(e, now, remote)
    ensures Paired(e, was, remote)
  {
    if e.localRtx.Some? {
      var c :| c in now && IsRtxOf(c, e.localPt) && c.pt == e.localRtx;
      var i :| 0 <= i < |now| && now[i] == c;
      RtxUnchanged(was[i], now[i]);
      assert was[i] in was;
    }
  }

  lemma NegotiatedJoins(h: H264, local: Caps, remote: Caps)
    requires Negotiate(h, local, remote).Ok?
    ensures AllJoined(Negotiate(h, local, remote).value.codecs, local.codecs, remote.codecs,
                      Taken(h, local.codecs, remote.codecs, |remote.codecs|))
  {
    var n := |remote.codecs|;
    var p := MatchFirst(h, local.codecs, remote.codecs, n).value;
    InRemoteOrder(h, local.codecs, remote.codecs, n);
    var es := Negotiate(h, local, remote).value.codecs;
    hide MatchFirst, Taken, Increasing, FindRtx;
    forall k | 0 <= k < |es|
      ensures forall r :: Joined(p.out[k], local.codecs, r) ==> Joined(es[k], local.codecs, r)
    {
      assert es[k] == AddRtx(p.out[k], p.local, remote.codecs);
    }
  }

  /** What negotiation gives for each extended codec: a remote media codec, later in the
      remote list than the one before, joined with a local codec, and with both RTX payload
      types or neither, each that of an RTX codec offered for it. */
  lemma Negotiated(h: H264, local: Caps, remote: Caps)
    requires Negotiate(h, local, remote).Ok?
    requires RtxTyped(local.codecs) && RtxTyped(remote.codecs)
    ensures var es := Negotiate(h, local, remote).value.codecs;
            && AllJoined(es, local.codecs, remote.codecs, Taken(h, local.codecs, remote.codecs, |remote.codecs|))
            && forall k :: 0 <= k < |es| ==> Paired(es[k], local.codecs, remote.codecs)
  {
    NegotiatedJoins(h, local, remote);
    var n := |remote.codecs|;
    var p := MatchFirst(h, local.codecs, remote.codecs, n).value;
    InRemoteOrder(h, local.codecs, remote.codecs, n);
    var es := Negotiate(h, local, remote).value.codecs;
    hide MatchFirst, Taken, Paired, Increasing, FindRtx;
    forall k | 0 <= k < |es|
      ensures Paired(es[k], local.codecs, remote.codecs)
    {
      NoRtxYet(h, local.codecs, remote.codecs, n, k);
      RtxPaired(p.out[k], p.local, remote.codecs);
      PairedBefore(es[k], local.codecs, p.local, remote.codecs);
    }
  }

  // ---- Where extended header extensions come from -----------------------------------------------

  predicate ExtensionFrom(x: ExtendedExt, local: seq<Extension>, remote: seq<Extension>) {
    exists l, r :: l in local && r in remote && SameExtension(l, r) && x == JoinExtension(l, r)
  }

  /** Every extended header extension joins one of each side. */
  lemma {:induction false} ExtensionsJoined(local: seq<Extension>, remote: seq<Extension>, x: ExtendedExt)
    requires x in MatchExtensions(local, remote)
    ensures ExtensionFrom(x, local, remote)
  {
    hide JoinExtension;
    var n := |remote| - 1;
    assert remote == remote[..n] + [remote[n]];
    if x in MatchExtensions(local, remote[..n]) {
      ExtensionsJoined(local, remote[..n], x);
    } else {
      var l := FindExtension(local, remote[n]).value;
      assert l in local && remote[n] in remote && SameExtension(l, remote[n]) && x == JoinExtension(l, remote[n]);
    }
  }

  /** And every remote one with a local partner is there, joined with its first partner. */
  lemma {:induction false} ExtensionsComplete(local: seq<Extension>, remote: seq<Extension>, l: Extension, r: Extension)
    requires l in local && r in remote && SameExtension(l, r)
    ensures FindExtension(local, r).Some?
    ensures JoinExtension(FindExtension(local, r).value, r) in MatchExtensions(local, remote)
  {
    hide JoinExtension;
    var n := |remote| - 1;
    assert remote == remote[..n] + [remote[n]];
    if r != remote[n] { ExtensionsComplete(local, remote[..n], l, r); }
  }

  predicate Directed(xs: seq<ExtendedExt>) { forall k :: 0 <= k < |xs| ==> xs[k].direction.Some? }

  /** Every remote extension that has a local partner has one of the four directions. */
  predicate KnownDirections(local: seq<Extension>, remote: seq<Extension>) {
    forall l, r :: l in local && r in remote && SameExtension(l, r) ==> Flip(r.direction).Some?
  }

  /** What the two sides must offer for every extended extension to have a direction. */
  lemma DirectedIff(local: seq<Extension>, remote: seq<Extension>)
    ensures Directed(MatchExtensions(local, remote)) <==> KnownDirections(local, remote)
  {
    hide Flip;
    var xs := MatchExtensions(local, remote);
    hide MatchExtensions, FindExtension;
    if Directed(xs) {
      forall l, r | l in local && r in remote && SameExtension(l, r) ensures Flip(r.direction).Some? {
        ExtensionsComplete(local, remote, l, r);
      }
    }
    if KnownDirections(local, remote) {
      forall k | 0 <= k < |xs| ensures xs[k].direction.Some? {
        ExtensionsJoined(local, remote, xs[k]);
      }
    }
  }
}
