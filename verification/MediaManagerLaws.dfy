/** The media manager seen field by field: for each part of its state, which messages change
    it and how, whatever the handlers look like. */
module MediaManagerLaws {
  import opened MediaManagerSpec
  import opened Wrappers

  // ---- What a message is, in the state it finds ------------------------------------------

  /** The message asks for a call state other than the present one. */
  predicate Asks(s: Mm, m: Msg, target: Call) { m == CallState(target) && s.call != target }

  predicate AsksTalk(s: Mm, m: Msg) { Asks(s, m, InCall) || Asks(s, m, InVideoCall) }

  predicate AsksOut(s: Mm, m: Msg) { Asks(s, m, OutAudio) || Asks(s, m, OutVideo) }

  predicate AsksIn(s: Mm, m: Msg) { Asks(s, m, InAudio) || Asks(s, m, InVideo) }

  /** Resumed into a call that is still in the system's hands. */
  predicate ComesBack(s: Mm, m: Msg) {
    Asks(s, m, Resume) && s.call.Hold? && s.hold.Talking() && s.sys.SysInCall?
  }

  /** The system is asked to enter a call. */
  predicate Begins(s: Mm, m: Msg) {
    || m.EnterCall?
    || (m.AudioReset? && !s.aio)
    || (AsksOut(s, m) && (s.call.Normal? || s.call.Resume?))
    || (AsksTalk(s, m) && (s.call.Hold? || (!s.call.Talking() && !s.sys.SysInCall? && !s.sys.Entering?)))
    || (Asks(s, m, Resume) && s.call.Hold? && s.hold.Talking() && !s.sys.SysInCall?)
  }

  /** The system is asked to leave the call. */
  predicate Ends(s: Mm, m: Msg) {
    m.ExitCall? || Asks(s, m, Normal) || (m.SysEntered? && s.sys.Entering? && s.call.Normal?)
  }

  /** The system is told that the phone rings. */
  predicate Rings(s: Mm, m: Msg) {
    (AsksIn(s, m) && (s.call.Normal? || s.call.Resume?)) || Asks(s, m, InVideo)
  }

  /** The audio of a call is to start. */
  predicate Starts(s: Mm, e: Env, m: Msg) {
    || (m.SysEntered? && s.call.Talking() && (s.sys.Entering? || (s.sys.SysInCall? && !s.aio))
        && (e.activated || s.audioStarted))
    || (m.SysEntered? && s.call.Resume? && s.sys.Entering? && !s.aio)
    || (AsksTalk(s, m) && !s.call.Talking() && !s.call.Hold? && s.sys.SysInCall? && (e.activated || s.audioStarted))
  }

  // ---- Field by field --------------------------------------------------------------------

  function NewCall(s: Mm, m: Msg): Call {
    if Asks(s, m, Normal) || AsksTalk(s, m) || Asks(s, m, Hold) then m.state
    else if (AsksOut(s, m) || AsksIn(s, m)) && s.call.Normal? then m.state
    else if ComesBack(s, m) || (m.SysEntered? && s.sys.Entering? && s.call.Resume?) then s.hold
    else if Asks(s, m, Resume) && s.call.Hold? then Resume
    else s.call
  }

  function NewHold(s: Mm, m: Msg): Call {
    if Asks(s, m, Hold) then s.call
    else if (AsksOut(s, m) || AsksIn(s, m)) && s.call.Resume? then m.state
    else s.hold
  }

  function NewSys(s: Mm, m: Msg): Sys {
    if Begins(s, m) then if s.sys.SysUnknown? || s.sys.SysInCall? then s.sys else Entering
    else if Ends(s, m) then if s.sys.SysInCall? || s.sys.SysIncoming? || s.sys.Entering? then Exiting else s.sys
    else if m.SysEntered? && s.sys.Entering? then SysInCall
    else if m.SysLeft? && !s.sys.Entering? then SysNormal
    else if m.SysIncomingMsg? then SysIncoming
    else s.sys
  }

  /** The device is held from a successful allocation to a release or the end of the call. */
  function NewAio(s: Mm, e: Env, m: Msg): bool {
    if m.AudioRelease? || Asks(s, m, Normal) then false else s.aio || (m.AudioAlloc? && e.allocOk)
  }

  function NewPending(s: Mm, e: Env, m: Msg): bool {
    if m.AudioRelease? || Asks(s, m, Normal) || (m.AudioAlloc? && !s.aio) then false
    else s.allocPending || Starts(s, e, m)
  }

  function NewPrefer(s: Mm, m: Msg): bool {
    if Asks(s, m, Normal) || (m.SysLeft? && !s.sys.Entering? && s.call.Normal?) then false
    else if Asks(s, m, OutVideo) || Asks(s, m, InVideoCall) then true
    else if m.SysEntered? && s.call.OutVideo? && s.sys.Entering? && !s.router.bt && !s.router.wired then true
    else if m.SysEntered? && s.call.InVideoCall? && (s.sys.Entering? || (s.sys.SysInCall? && !s.aio)) then true
    else if m.EnableSpeaker? then m.on
    else if m.HeadsetConnected? || m.BtConnected? then !m.on && (s.router.prefer || s.call.InVideoCall?)
    else s.router.prefer
  }

  /** The one message, besides DeviceChanged, that handling a message posts. */
  function Posted(s: Mm, e: Env, m: Msg): Option<Msg> {
    if Begins(s, m) then if s.sys.SysUnknown? then None else Some(SysEntered)
    else if Ends(s, m) then
      if s.sys.SysInCall? || s.sys.SysIncoming? || s.sys.Entering? then Some(SysLeft) else None
    else if Rings(s, m) then if s.sys.SysNormal? then Some(SysIncomingMsg) else None
    else if Starts(s, e, m) && !s.allocPending then Some(AudioAlloc)
    else None
  }

  /** What the clients are told. */
  function Told(s: Mm, e: Env, m: Msg): Option<Note> {
    if m.AudioAlloc? then Some(if s.aio || e.allocOk then Note(s.call, true) else Note(Error, false))
    else if m.AudioReset? then if s.aio && !e.resetOk then Some(Note(Error, true)) else None
    else if Asks(s, m, Hold) then Some(Note(Hold, s.aio))
    else if !s.aio then None
    else if m == CallState(s.call) && s.call.Talking() then Some(Note(s.call, true))
    else if AsksTalk(s, m) && s.call.Talking() then Some(Note(m.state, true))
    else if ComesBack(s, m) || (m.SysEntered? && s.sys.Entering? && s.call.Resume?) then Some(Note(Resume, true))
    else if m.SysEntered? && s.sys.SysInCall? && s.call.Talking() then Some(Note(s.call, true))
    else None
  }

  // ---- The law -----------------------------------------------------------------------------

  datatype Face = Face(call: Call, hold: Call, sys: Sys, started: bool, running: bool, prefer: bool,
                       aio: bool, pending: bool)

  function FaceOf(s: Mm): Face {
    Face(s.call, s.hold, s.sys, s.audioStarted, s.running, s.router.prefer, s.aio, s.allocPending)
  }

  function NewFace(s: Mm, e: Env, m: Msg): Face {
    Face(NewCall(s, m), NewHold(s, m), NewSys(s, m), s.audioStarted && !Asks(s, m, Normal), s.running && !m.Exit?,
         NewPrefer(s, m), NewAio(s, e, m), NewPending(s, e, m))
  }

  function Listed<T>(o: Option<T>): seq<T> { if o.Some? then [o.value] else [] }

  /** The queue grows by DeviceChanged or not, and then by the message posted. */
  predicate Grown(q: seq<Msg>, q': seq<Msg>, posted: Option<Msg>) {
    q' == q + Listed(posted) || q' == q + [DeviceChanged] + Listed(posted)
  }

  predicate Law(s: Mm, e: Env, m: Msg, t: Mm) {
    && FaceOf(t) == NewFace(s, e, m)
    && Grown(s.queue, t.queue, Posted(s, e, m))
    && t.trace == s.trace + Listed(Told(s, e, m))
  }

  // ---- What the operations under the handlers change -------------------------------------------

  lemma RoutesKeepPrefer(r: Router, call: Call, e: Env, on: bool)
    ensures UpdateRoute(r, call, e, Changed).r.prefer == r.prefer
    ensures PreferSpeaker(r, e, on).r.prefer == on && SetVideoRoute(r, e).r.prefer
  {
  }

  lemma EventPrefer(r: Router, call: Call, e: Env, event: Event)
    ensures UpdateRoute(r, call, e, event).r.prefer ==
            match event
            case HeadsetPlugged => false
            case BtOn => false
            case Changed => r.prefer
            case _ => r.prefer || call.InVideoCall?
  {
  }

  lemma Nothing(q: seq<Msg>, tr: seq<Note>)
    ensures Grown(q, q, None) && Grown(q, q + [DeviceChanged], None) && tr + Listed(None) == tr
  {
    assert q + [] == q && q + [DeviceChanged] + [] == q + [DeviceChanged] && tr + [] == tr;
  }

  lemma PutEffect(s: Mm, m: Moved)
    ensures var t := Put(s, m);
            FaceOf(t) == FaceOf(s).(prefer := m.r.prefer) && Grown(s.queue, t.queue, None) && t.trace == s.trace
  {
    Nothing(s.queue, []);
    hide Grown;
  }

  lemma StartCallEffect(s: Mm, e: Env)
    ensures var t := StartCall(s, e); var known := !s.sys.SysUnknown?;
            && FaceOf(t) == FaceOf(s).(sys := if known && !s.sys.SysInCall? then Entering else s.sys)
            && Grown(s.queue, t.queue, if known then Some(SysEntered) else None) && t.trace == s.trace
  {
    hide UpdateRoute, Put;
    RoutesKeepPrefer(s.router, s.call, e, false);
    Nothing(s.queue, []);
    if !s.sys.SysUnknown? {
      var t := s.(playReady := true);
      var u := if s.sys.SysInCall? then t else t.(sys := Entering);
      PutEffect(u, UpdateRoute(u.router, u.call, e, Changed));
      PostedAfter(u.queue, Reroute(u, e, Changed).queue, SysEntered);
      hide Grown;
    }
  }

  lemma PostedAfter(q: seq<Msg>, q': seq<Msg>, m: Msg)
    requires Grown(q, q', None)
    ensures Grown(q, q' + [m], Some(m))
  {
    Nothing(q, []);
  }

  lemma IncallActionEffect(s: Mm, e: Env)
    ensures var t, go := IncallAction(s, e), e.activated || s.audioStarted;
            && FaceOf(t) == FaceOf(s).(pending := s.allocPending || go,
                                       prefer := s.router.prefer || s.call.InVideoCall?)
            && Grown(s.queue, t.queue, if go && !s.allocPending then Some(AudioAlloc) else None)
            && t.trace == s.trace
  {
    hide SetVideoRoute, Put, Grown;
    var m := SetVideoRoute(s.router, e);
    RoutesKeepPrefer(s.router, s.call, e, false);
    PutEffect(s, m);
    Nothing(s.queue, []);
    PostedAfter(s.queue, (if s.call.InVideoCall? then Put(s, m) else s).queue, AudioAlloc);
  }

  lemma EnterIncomingEffect(s: Mm, e: Env)
    ensures var t := EnterIncoming(s, e);
            && FaceOf(t) == FaceOf(s) && t.trace == s.trace
            && Grown(s.queue, t.queue, if s.sys.SysNormal? then Some(SysIncomingMsg) else None)
  {
    hide Put, Grown;
    PutEffect(s, SpeakerOn(s.router, e, false));
    Nothing(s.queue, []);
    PostedAfter(s.queue, (if s.router.route.Earpiece? then Put(s, SpeakerOn(s.router, e, false)) else s).queue,
                SysIncomingMsg);
  }

  lemma LeaveCallEffect(s: Mm)
    ensures var t, inside := LeaveCall(s), s.sys.SysInCall? || s.sys.SysIncoming? || s.sys.Entering?;
            && FaceOf(t) == FaceOf(s).(sys := if inside then Exiting else s.sys) && t.trace == s.trace
            && Grown(s.queue, t.queue, if inside then Some(SysLeft) else None)
  {
    Nothing(s.queue, []);
  }

  // ---- Handler by handler ----------------------------------------------------------------------

  /** What the tables say of a message. */
  predicate Says(s: Mm, e: Env, m: Msg, face: Face, posted: Option<Msg>, told: Option<Note>) {
    NewFace(s, e, m) == face && Posted(s, e, m) == posted && Told(s, e, m) == told
  }

  lemma Lawful(s: Mm, e: Env, m: Msg, t: Mm, posted: Option<Msg>, told: Option<Note>)
    requires Says(s, e, m, FaceOf(t), posted, told)
    requires Grown(s.queue, t.queue, posted) && t.trace == s.trace + Listed(told)
    ensures Law(s, e, m, t)
  {
    hide NewFace, Posted, Told, Grown, FaceOf;
  }

  function Begun(s: Mm): Sys { if s.sys.SysUnknown? || s.sys.SysInCall? then s.sys else Entering }

  function BegunPost(s: Mm): Option<Msg> { if s.sys.SysUnknown? then None else Some(SysEntered) }

  lemma SameLaw(s: Mm, e: Env)
    ensures Law(s, e, CallState(s.call), OnSameState(s))
  {
    Nothing(s.queue, s.trace);
    hide Grown;
    var told := if s.call.Talking() && s.aio then Some(Note(s.call, true)) else None;
    assert Says(s, e, CallState(s.call), FaceOf(s), None, told);
    hide Says, Law;
    Lawful(s, e, CallState(s.call), OnSameState(s), None, told);
  }

  lemma NormalSays(s: Mm, e: Env)
    requires !s.call.Normal?
    ensures var inside := s.sys.SysInCall? || s.sys.SysIncoming? || s.sys.Entering?;
            Says(s, e, CallState(Normal),
                 Face(Normal, s.hold, if inside then Exiting else s.sys, false, s.running, false, false, false),
                 if inside then Some(SysLeft) else None, None)
  {
  }

  lemma NormalLaw(s: Mm, e: Env)
    requires !s.call.Normal?
    ensures Law(s, e, CallState(Normal), OnNormal(s))
  {
    hide LeaveCall, Grown, Says, Law;
    NormalSays(s, e);
    var t := Release(s.(call := Normal)).(audioStarted := false);
    assert FaceOf(t) == FaceOf(s).(call := Normal, started := false, aio := false, pending := false);
    assert t.queue == s.queue && t.trace == s.trace && t.sys == s.sys;
    hide Release;
    LeaveCallEffect(t);
    PreferEffect(LeaveCall(t), false);
    Nothing(s.queue, s.trace);
    var inside := s.sys.SysInCall? || s.sys.SysIncoming? || s.sys.Entering?;
    Lawful(s, e, CallState(Normal), OnNormal(s), if inside then Some(SysLeft) else None, None);
  }

  lemma PreferEffect(s: Mm, on: bool)
    ensures var t := Prefer(s, on);
            FaceOf(t) == FaceOf(s).(prefer := on) && t.queue == s.queue && t.trace == s.trace && t.sys == s.sys
  {
  }

  lemma OutSays(s: Mm, e: Env, target: Call)
    requires (target.OutAudio? || target.OutVideo?) && s.call != target
    ensures var m, f := CallState(target), FaceOf(s).(prefer := s.router.prefer || target.OutVideo?);
            && (s.call.Normal? ==> Says(s, e, m, f.(call := target, sys := Begun(s)), BegunPost(s), None))
            && (s.call.Resume? ==> Says(s, e, m, f.(hold := target, sys := Begun(s)), BegunPost(s), None))
  {
  }

  lemma OutElseSays(s: Mm, e: Env, target: Call)
    requires (target.OutAudio? || target.OutVideo?) && s.call != target && !s.call.Normal? && !s.call.Resume?
    ensures Says(s, e, CallState(target), FaceOf(s).(prefer := s.router.prefer || target.OutVideo?), None, None)
  {
  }

  lemma OutgoingLaw(s: Mm, e: Env, target: Call)
    requires (target.OutAudio? || target.OutVideo?) && s.call != target
    ensures Law(s, e, CallState(target), OnOutgoing(s, e, target))
  {
    hide StartCall, PreferSpeaker, Put, Grown, Says, Law, Prefer;
    PreferEffect(s, true);
    var t := if target.OutVideo? then Prefer(s, true) else s;
    if s.call.Normal? {
      OutSays(s, e, target);
      OutgoingBegins(s, t, t.(call := target), e, target);
    } else if s.call.Resume? {
      OutSays(s, e, target);
      OutgoingBegins(s, t, t.(hold := target), e, target);
    } else {
      OutgoingElse(s, e, target);
    }
  }

  lemma OutgoingElse(s: Mm, e: Env, target: Call)
    requires (target.OutAudio? || target.OutVideo?) && s.call != target && !s.call.Normal? && !s.call.Resume?
    ensures Law(s, e, CallState(target), OnOutgoing(s, e, target))
  {
    hide StartCall, PreferSpeaker, Put, Grown, Says, Law, Prefer;
    Nothing(s.queue, s.trace);
    OutElseSays(s, e, target);
    PreferEffect(s, true);
    var t := if target.OutVideo? then Prefer(s, true) else s;
    PutEffect(t, PreferSpeaker(t.router, e, true));
    RoutesKeepPrefer(t.router, t.call, e, true);
    Lawful(s, e, CallState(target), OnOutgoing(s, e, target), None, None);
  }

  lemma OutgoingBegins(s: Mm, t: Mm, u: Mm, e: Env, target: Call)
    requires t.queue == s.queue && t.trace == s.trace && t.sys == s.sys
    requires u == t.(call := target) || u == t.(hold := target)
    requires Says(s, e, CallState(target), FaceOf(u).(sys := Begun(s)), BegunPost(s), None)
    ensures Law(s, e, CallState(target), StartCall(u, e))
  {
    hide StartCall, Grown, Says, Law;
    Nothing(s.queue, s.trace);
    StartCallEffect(u, e);
    hide FaceOf;
    Lawful(s, e, CallState(target), StartCall(u, e), BegunPost(s), None);
  }

  function RungPost(s: Mm): Option<Msg> { if s.sys.SysNormal? then Some(SysIncomingMsg) else None }

  lemma InSays(s: Mm, e: Env, target: Call)
    requires (target.InAudio? || target.InVideo?) && (s.call.Normal? || s.call.Resume?)
    ensures var m, f := CallState(target), FaceOf(s);
            Says(s, e, m, if s.call.Normal? then f.(call := target) else f.(hold := target), RungPost(s), None)
  {
  }

  lemma InElseSays(s: Mm, e: Env, target: Call)
    requires (target.InAudio? || target.InVideo?) && s.call != target && !s.call.Normal? && !s.call.Resume?
    ensures Says(s, e, CallState(target), FaceOf(s), if target.InVideo? then RungPost(s) else None, None)
  {
  }

  lemma IncomingLaw(s: Mm, e: Env, target: Call)
    requires (target.InAudio? || target.InVideo?) && s.call != target
    ensures Law(s, e, CallState(target), OnIncoming(s, e, target))
  {
    hide EnterIncoming, Grown, Says, Law;
    Nothing(s.queue, s.trace);
    var m := CallState(target);
    if s.call.Normal? || s.call.Resume? { InSays(s, e, target); } else { InElseSays(s, e, target); }
    if s.call.Normal? {
      EnterIncomingEffect(s.(call := target), e);
      Lawful(s, e, m, OnIncoming(s, e, target), RungPost(s), None);
    } else if s.call.Resume? {
      EnterIncomingEffect(s.(hold := target), e);
      Lawful(s, e, m, OnIncoming(s, e, target), RungPost(s), None);
    } else {
      EnterIncomingEffect(s, e);
      Lawful(s, e, m, OnIncoming(s, e, target), if target.InVideo? then RungPost(s) else None, None);
    }
  }

  /** From one talking state to the other. */
  lemma SwitchLaw(s: Mm, e: Env, target: Call)
    requires target.Talking() && s.call != target && s.call.Talking()
    ensures Law(s, e, CallState(target), OnTalk(s, e, target))
  {
    hide SetVideoRoute, Put, Grown, HandleIncall, Says, Law;
    SwitchSays(s, e, target);
    var t := s.(call := target);
    PutEffect(t, SetVideoRoute(t.router, e));
    RoutesKeepPrefer(t.router, t.call, e, true);
    Nothing(s.queue, s.trace);
    var u := if target.InVideoCall? then Put(t, SetVideoRoute(t.router, e)) else t;
    assert FaceOf(u) == FaceOf(s).(call := target, prefer := s.router.prefer || target.InVideoCall?);
    assert OnTalk(s, e, target) == OnSameState(u);
    SameEffect(u);
    hide OnTalk, OnSameState;
    Lawful(s, e, CallState(target), OnTalk(s, e, target), None, if s.aio then Some(Note(target, true)) else None);
  }

  lemma SwitchSays(s: Mm, e: Env, target: Call)
    requires target.Talking() && s.call != target && s.call.Talking()
    ensures Says(s, e, CallState(target),
                 FaceOf(s).(call := target, prefer := s.router.prefer || target.InVideoCall?), None,
                 if s.aio then Some(Note(target, true)) else None)
  {
  }

  lemma SameEffect(u: Mm)
    requires u.call.Talking()
    ensures var t := OnSameState(u);
            && FaceOf(t) == FaceOf(u) && t.queue == u.queue
            && t.trace == u.trace + Listed(if u.aio then Some(Note(u.call, true)) else None)
  {
    Nothing(u.queue, u.trace);
  }

  lemma JoinSays(s: Mm, e: Env, target: Call)
    requires target.Talking() && !s.call.Talking()
    requires s.call.Hold? || (!s.sys.SysInCall? && !s.sys.Entering?)
    ensures Says(s, e, CallState(target),
                 FaceOf(s).(call := target, prefer := s.router.prefer || target.InVideoCall?, sys := Begun(s)),
                 BegunPost(s), None)
  {
  }

  lemma JoinedSays(s: Mm, e: Env, target: Call)
    requires target.Talking() && !s.call.Talking() && !s.call.Hold? && (s.sys.SysInCall? || s.sys.Entering?)
    ensures var m, go := CallState(target), e.activated || s.audioStarted;
            var f := FaceOf(s).(call := target, prefer := s.router.prefer || target.InVideoCall?);
            if s.sys.SysInCall?
            then Says(s, e, m, f.(pending := s.allocPending || go),
                      if go && !s.allocPending then Some(AudioAlloc) else None, None)
            else Says(s, e, m, f, None, None)
  {
  }

  /** Into a call. */
  lemma JoinLaw(s: Mm, e: Env, target: Call)
    requires target.Talking() && !s.call.Talking()
    ensures Law(s, e, CallState(target), OnTalk(s, e, target))
  {
    hide StartCall, IncallAction, OnSameState, Says, Law;
    var t := s.(call := target);
    var u := if target.InVideoCall? then Prefer(t, true) else t;
    assert FaceOf(u) == FaceOf(s).(call := target, prefer := s.router.prefer || target.InVideoCall?);
    assert u.queue == s.queue && u.trace == s.trace && u.sys == s.sys;
    assert u.allocPending == s.allocPending && u.audioStarted == s.audioStarted && u.call == target;
    if s.call.Hold? || (!s.sys.SysInCall? && !s.sys.Entering?) {
      JoinSays(s, e, target);
      JoinBegins(s, u, e, target);
    } else {
      JoinedSays(s, e, target);
      JoinStarts(s, u, e, target);
    }
  }

  lemma JoinBegins(s: Mm, u: Mm, e: Env, target: Call)
    requires u.queue == s.queue && u.trace == s.trace && u.sys == s.sys
    requires Says(s, e, CallState(target), FaceOf(u).(sys := Begun(s)), BegunPost(s), None)
    ensures Law(s, e, CallState(target), StartCall(u, e))
  {
    hide StartCall, Grown, Says, Law, FaceOf;
    Nothing(s.queue, s.trace);
    StartCallEffect(u, e);
    Lawful(s, e, CallState(target), StartCall(u, e), BegunPost(s), None);
  }

  lemma JoinStarts(s: Mm, u: Mm, e: Env, target: Call)
    requires u.queue == s.queue && u.trace == s.trace && u.sys == s.sys && u.call == target
    requires u.allocPending == s.allocPending && u.audioStarted == s.audioStarted
    requires FaceOf(u).prefer == (u.router.prefer || target.InVideoCall?)
    requires var m, go := CallState(target), e.activated || s.audioStarted;
             if s.sys.SysInCall?
             then Says(s, e, m, FaceOf(u).(pending := s.allocPending || go),
                       if go && !s.allocPending then Some(AudioAlloc) else None, None)
             else Says(s, e, m, FaceOf(u), None, None)
    ensures Law(s, e, CallState(target), if s.sys.SysInCall? then IncallAction(u, e) else u)
  {
    hide IncallAction, Grown, Says, Law;
    Nothing(s.queue, s.trace);
    var m, go := CallState(target), e.activated || s.audioStarted;
    if s.sys.SysInCall? {
      IncallActionEffect(u, e);
      Lawful(s, e, m, IncallAction(u, e), if go && !s.allocPending then Some(AudioAlloc) else None, None);
    } else {
      Lawful(s, e, m, u, None, None);
    }
  }

  lemma HoldLaw(s: Mm, e: Env)
    requires !s.call.Hold?
    ensures Law(s, e, CallState(Hold), OnHold(s))
  {
    Nothing(s.queue, s.trace);
    hide Grown;
    assert Says(s, e, CallState(Hold), FaceOf(s).(call := Hold, hold := s.call), None, Some(Note(Hold, s.aio)));
    hide Says, Law;
    Lawful(s, e, CallState(Hold), OnHold(s), None, Some(Note(Hold, s.aio)));
  }

  lemma ResumeSays(s: Mm, e: Env)
    requires !s.call.Resume?
    ensures var m, f := CallState(Resume), FaceOf(s);
            if !s.call.Hold? then Says(s, e, m, f, None, None)
            else if !s.hold.Talking() then Says(s, e, m, f.(call := Resume), None, None)
            else if s.sys.SysInCall?
            then Says(s, e, m, f.(call := s.hold), None, if s.aio then Some(Note(Resume, true)) else None)
            else Says(s, e, m, f.(call := Resume, sys := Begun(s)), BegunPost(s), None)
  {
  }

  lemma ResumeLaw(s: Mm, e: Env)
    requires !s.call.Resume?
    ensures Law(s, e, CallState(Resume), OnResume(s, e))
  {
    hide StartCall, Grown, Says, Law, Fire;
    Nothing(s.queue, s.trace);
    ResumeSays(s, e);
    var m, t := CallState(Resume), s.(call := Resume);
    if !s.call.Hold? || !s.hold.Talking() {
      Lawful(s, e, m, OnResume(s, e), None, None);
    } else if s.sys.SysInCall? {
      assert OnResume(s, e) == (if s.aio then Fire(t) else t).(call := s.hold);
      hide OnResume;
      ResumedEffect(t, s.hold);
      Lawful(s, e, m, OnResume(s, e), None, if s.aio then Some(Note(Resume, true)) else None);
    } else {
      StartCallEffect(t, e);
      Lawful(s, e, m, OnResume(s, e), BegunPost(s), None);
    }
  }

  lemma ResumedEffect(t: Mm, c: Call)
    ensures var u := (if t.aio then Fire(t) else t).(call := c);
            && FaceOf(u) == FaceOf(t).(call := c) && u.queue == t.queue
            && u.trace == t.trace + Listed(if t.aio then Some(Note(t.call, true)) else None)
  {
    Nothing(t.queue, t.trace);
  }

  lemma OtherLaw(s: Mm, e: Env, target: Call)
    requires target.Roaming? || target.Error? || target.Unknown?
    requires s.call != target
    ensures Law(s, e, CallState(target), s)
  {
    Nothing(s.queue, s.trace);
    hide Grown;
    assert Says(s, e, CallState(target), FaceOf(s), None, None);
    hide Says, Law;
    Lawful(s, e, CallState(target), s, None, None);
  }

  lemma CallStateLaw(s: Mm, e: Env, target: Call)
    ensures Law(s, e, CallState(target), OnCallState(s, e, target))
  {
    hide Law, OnSameState, OnNormal, OnOutgoing, OnIncoming, OnTalk, OnHold, OnResume;
    if target == s.call {
      SameLaw(s, e);
    } else {
      match target
      case Normal => NormalLaw(s, e);
      case OutAudio => OutgoingLaw(s, e, target);
      case OutVideo => OutgoingLaw(s, e, target);
      case InAudio => IncomingLaw(s, e, target);
      case InVideo => IncomingLaw(s, e, target);
      case InCall => if s.call.Talking() { SwitchLaw(s, e, target); } else { JoinLaw(s, e, target); }
      case InVideoCall => if s.call.Talking() { SwitchLaw(s, e, target); } else { JoinLaw(s, e, target); }
      case Hold => HoldLaw(s, e);
      case Resume => ResumeLaw(s, e);
      case _ => OtherLaw(s, e, target);
    }
  }

  function Quietly(s: Mm, e: Env): Option<Msg> {
    if (e.activated || s.audioStarted) && !s.allocPending then Some(AudioAlloc) else None
  }

  /** The face of a call whose audio starts. */
  function Started(s: Mm, e: Env): Face {
    FaceOf(s).(pending := s.allocPending || e.activated || s.audioStarted,
               prefer := s.router.prefer || s.call.InVideoCall?)
  }

  lemma TwiceSays(s: Mm, e: Env)
    requires s.sys.SysInCall? && s.call.Talking()
    ensures if s.aio then Says(s, e, SysEntered, FaceOf(s), None, Some(Note(s.call, true)))
            else Says(s, e, SysEntered, Started(s, e), Quietly(s, e), None)
  {
  }

  lemma CallSays(s: Mm, e: Env)
    requires s.sys.Entering?
    ensures s.call.Talking() ==> Says(s, e, SysEntered, Started(s, e).(sys := SysInCall), Quietly(s, e), None)
    ensures s.call.Normal? ==> Says(s, e, SysEntered, FaceOf(s).(sys := Exiting), Some(SysLeft), None)
    ensures s.call.OutVideo? ==>
              Says(s, e, SysEntered,
                   FaceOf(s).(sys := SysInCall, prefer := s.router.prefer || (!s.router.bt && !s.router.wired)),
                   None, None)
  {
  }

  lemma ElseSays(s: Mm, e: Env)
    requires !(s.sys.SysInCall? && s.call.Talking())
    requires !(s.sys.Entering? && (s.call.Talking() || s.call.Normal? || s.call.OutVideo?))
    ensures var f := FaceOf(s);
            if !s.sys.Entering? then Says(s, e, SysEntered, f, None, None)
            else if !s.call.Resume? then Says(s, e, SysEntered, f.(sys := SysInCall), None, None)
            else if s.aio
            then Says(s, e, SysEntered, f.(sys := SysInCall, call := s.hold), None, Some(Note(Resume, true)))
            else Says(s, e, SysEntered, f.(sys := SysInCall, call := s.hold, pending := true),
                      if s.allocPending then None else Some(AudioAlloc), None)
  {
  }

  lemma SysEnteredLaw(s: Mm, e: Env)
    ensures Law(s, e, SysEntered, OnSysEntered(s, e))
  {
    hide Law;
    if s.sys.SysInCall? && s.call.Talking() {
      EnteredTwice(s, e);
    } else if s.sys.Entering? && (s.call.Talking() || s.call.Normal? || s.call.OutVideo?) {
      EnteredCall(s, e);
    } else {
      EnteredElse(s, e);
    }
  }

  lemma EnteredTwice(s: Mm, e: Env)
    requires s.sys.SysInCall? && s.call.Talking()
    ensures Law(s, e, SysEntered, OnSysEntered(s, e))
  {
    hide IncallAction, PreferSpeaker, LeaveCall, Put, Grown, Says, Law;
    Nothing(s.queue, s.trace);
    TwiceSays(s, e);
    if s.aio {
      Lawful(s, e, SysEntered, OnSysEntered(s, e), None, Some(Note(s.call, true)));
    } else {
      IncallActionEffect(s, e);
      Lawful(s, e, SysEntered, OnSysEntered(s, e), Quietly(s, e), None);
    }
  }

  lemma EnteredCall(s: Mm, e: Env)
    requires s.sys.Entering? && (s.call.Talking() || s.call.Normal? || s.call.OutVideo?)
    ensures Law(s, e, SysEntered, OnSysEntered(s, e))
  {
    hide IncallAction, PreferSpeaker, LeaveCall, Put, Grown, Says, Law;
    Nothing(s.queue, s.trace);
    CallSays(s, e);
    var t := s.(sys := SysInCall);
    if s.call.Talking() {
      IncallActionEffect(t, e);
      Lawful(s, e, SysEntered, OnSysEntered(s, e), Quietly(s, e), None);
    } else if s.call.Normal? {
      LeaveCallEffect(t);
      Lawful(s, e, SysEntered, OnSysEntered(s, e), Some(SysLeft), None);
    } else {
      PutEffect(t, PreferSpeaker(t.router, e, true));
      RoutesKeepPrefer(t.router, t.call, e, true);
      Lawful(s, e, SysEntered, OnSysEntered(s, e), None, None);
    }
  }

  lemma EnteredElse(s: Mm, e: Env)
    requires !(s.sys.SysInCall? && s.call.Talking())
    requires !(s.sys.Entering? && (s.call.Talking() || s.call.Normal? || s.call.OutVideo?))
    ensures Law(s, e, SysEntered, OnSysEntered(s, e))
  {
    hide IncallAction, PreferSpeaker, LeaveCall, Put, Grown, Says, Law, PostAlloc, Fire;
    Nothing(s.queue, s.trace);
    ElseSays(s, e);
    var t := s.(sys := SysInCall);
    if s.sys.Entering? && s.call.Resume? {
      assert OnSysEntered(s, e) == (if s.aio then Fire(t) else PostAlloc(t)).(call := s.hold);
      hide OnSysEntered;
      BackEffect(t, s.hold);
      if s.aio {
        Lawful(s, e, SysEntered, OnSysEntered(s, e), None, Some(Note(Resume, true)));
      } else {
        Lawful(s, e, SysEntered, OnSysEntered(s, e), if s.allocPending then None else Some(AudioAlloc), None);
      }
    } else {
      assert OnSysEntered(s, e) == if s.sys.Entering? then t else s;
      hide OnSysEntered;
      Lawful(s, e, SysEntered, OnSysEntered(s, e), None, None);
    }
  }

  lemma BackEffect(t: Mm, c: Call)
    ensures var u := (if t.aio then Fire(t) else PostAlloc(t)).(call := c);
            && FaceOf(u) == FaceOf(t).(call := c, pending := t.allocPending || !t.aio)
            && Grown(t.queue, u.queue, if t.aio || t.allocPending then None else Some(AudioAlloc))
            && u.trace == t.trace + Listed(if t.aio then Some(Note(t.call, true)) else None)
  {
    Nothing(t.queue, t.trace);
    PostedAfter(t.queue, t.queue, AudioAlloc);
    hide Grown;
  }

  lemma LeftSays(s: Mm, e: Env)
    ensures Says(s, e, SysLeft,
                 if s.sys.Entering? then FaceOf(s)
                 else FaceOf(s).(sys := SysNormal, prefer := s.router.prefer && !s.call.Normal?), None, None)
  {
  }

  lemma SysLeftLaw(s: Mm, e: Env)
    ensures Law(s, e, SysLeft, OnSysLeft(s, e))
  {
    hide UpdateRoute, Put, Grown, Says, Law, Prefer;
    LeftSays(s, e);
    Nothing(s.queue, s.trace);
    var t := s.(sys := SysNormal);
    PreferEffect(t, false);
    var u := Prefer(t, false);
    RoutesKeepPrefer(u.router, u.call, e, false);
    PutEffect(u, UpdateRoute(u.router, u.call, e, Changed));
    Lawful(s, e, SysLeft, OnSysLeft(s, e), None, None);
  }

  lemma AllocSays(s: Mm, e: Env)
    ensures Says(s, e, AudioAlloc,
                 if s.aio then FaceOf(s) else FaceOf(s).(aio := e.allocOk, pending := false), None,
                 Some(if s.aio || e.allocOk then Note(s.call, true) else Note(Error, false)))
  {
  }

  lemma AudioAllocLaw(s: Mm, e: Env)
    ensures Law(s, e, AudioAlloc, OnAudioAlloc(s, e))
  {
    hide Grown, Says, Law;
    AllocSays(s, e);
    Nothing(s.queue, s.trace);
    Lawful(s, e, AudioAlloc, OnAudioAlloc(s, e), None,
           Some(if s.aio || e.allocOk then Note(s.call, true) else Note(Error, false)));
  }

  lemma AudioResetLaw(s: Mm, e: Env)
    ensures Law(s, e, AudioReset, OnAudioReset(s, e))
  {
    hide StartCall, Grown;
    var f := if s.aio then FaceOf(s) else FaceOf(s).(sys := Begun(s));
    var posted := if s.aio then None else BegunPost(s);
    var told := if s.aio && !e.resetOk then Some(Note(Error, true)) else None;
    assert Says(s, e, AudioReset, f, posted, told);
    hide Says, Law;
    Nothing(s.queue, s.trace);
    StartCallEffect(s, e);
    Lawful(s, e, AudioReset, OnAudioReset(s, e), posted, told);
  }

  lemma EnterLaw(s: Mm, e: Env)
    ensures Law(s, e, EnterCall, StartCall(s, e))
  {
    hide StartCall, Grown;
    assert Says(s, e, EnterCall, FaceOf(s).(sys := Begun(s)), BegunPost(s), None);
    hide Says, Law;
    Nothing(s.queue, s.trace);
    StartCallEffect(s, e);
    Lawful(s, e, EnterCall, StartCall(s, e), BegunPost(s), None);
  }

  lemma ExitLaw(s: Mm, e: Env)
    ensures Law(s, e, ExitCall, LeaveCall(s))
  {
    hide LeaveCall, Grown;
    var inside := s.sys.SysInCall? || s.sys.SysIncoming? || s.sys.Entering?;
    var posted := if inside then Some(SysLeft) else None;
    assert Says(s, e, ExitCall, FaceOf(s).(sys := if inside then Exiting else s.sys), posted, None);
    hide Says, Law;
    Nothing(s.queue, s.trace);
    LeaveCallEffect(s);
    Lawful(s, e, ExitCall, LeaveCall(s), posted, None);
  }

  lemma PlainLaw(s: Mm, e: Env, m: Msg, t: Mm)
    requires match m
             case Exit => t == s.(running := false)
             case AudioRelease => t == Release(s)
             case SysIncomingMsg => t == s.(sys := SysIncoming)
             case Media => t == s
             case _ => false
    ensures Law(s, e, m, t)
  {
    hide Grown, Law, Says;
    if m.AudioRelease? { ReleaseSays(s, e); } else { PlainSays(s, e, m); }
    Nothing(s.queue, s.trace);
    Lawful(s, e, m, t, None, None);
  }

  lemma PlainSays(s: Mm, e: Env, m: Msg)
    requires m.Exit? || m.SysIncomingMsg? || m.Media?
    ensures Says(s, e, m,
                 FaceOf(s).(running := s.running && !m.Exit?, sys := if m.SysIncomingMsg? then SysIncoming else s.sys),
                 None, None)
  {
  }

  lemma ReleaseSays(s: Mm, e: Env)
    ensures Says(s, e, AudioRelease, FaceOf(s).(aio := false, pending := false), None, None)
  {
  }

  predicate IsRoute(m: Msg) { m.EnableSpeaker? || m.HeadsetConnected? || m.BtConnected? || m.DeviceChanged? }

  function MovedBy(s: Mm, e: Env, m: Msg): Moved
    requires IsRoute(m)
  {
    match m
    case EnableSpeaker(on) => PreferSpeaker(s.router, e, on)
    case HeadsetConnected(on) => UpdateRoute(s.router, s.call, e, if on then HeadsetPlugged else HeadsetUnplugged)
    case BtConnected(on) => UpdateRoute(s.router, s.call, e, if on then BtOn else BtOff)
    case DeviceChanged => UpdateRoute(s.router, s.call, e, Changed)
  }

  lemma MovedPrefer(s: Mm, e: Env, m: Msg)
    requires IsRoute(m)
    ensures MovedBy(s, e, m).r.prefer == NewPrefer(s, m)
  {
    hide UpdateRoute, PreferSpeaker;
    match m
    case EnableSpeaker(on) => RoutesKeepPrefer(s.router, s.call, e, on);
    case HeadsetConnected(on) => EventPrefer(s.router, s.call, e, if on then HeadsetPlugged else HeadsetUnplugged);
    case BtConnected(on) => EventPrefer(s.router, s.call, e, if on then BtOn else BtOff);
    case DeviceChanged => EventPrefer(s.router, s.call, e, Changed);
  }

  lemma RouteLaw(s: Mm, e: Env, m: Msg)
    requires IsRoute(m)
    ensures Law(s, e, m, Put(s, MovedBy(s, e, m)))
  {
    hide MovedBy, Put, Grown;
    var r := MovedBy(s, e, m);
    MovedPrefer(s, e, m);
    assert Says(s, e, m, FaceOf(s).(prefer := r.r.prefer), None, None);
    hide Says, Law;
    PutEffect(s, r);
    Nothing(s.queue, s.trace);
    Lawful(s, e, m, Put(s, r), None, None);
  }

  lemma HandlesRoute(s: Mm, e: Env, m: Msg)
    requires IsRoute(m)
    ensures Handle(s, e, m) == Put(s, MovedBy(s, e, m))
  {
    hide OnCallState, UpdateRoute, PreferSpeaker, StartCall, LeaveCall, OnAudioAlloc, OnAudioReset, OnSysEntered,
      OnSysLeft, Put;
  }

  /** Whatever the state, the message and the answers of the platform: the call, the held call,
      the system state, the device and the flags become what the tables say, the clients are
      told what they say, and nothing is posted but what they say and DeviceChanged. */
  lemma HandleLaw(s: Mm, e: Env, m: Msg)
    ensures Law(s, e, m, Handle(s, e, m))
  {
    hide Law;
    if IsRoute(m) {
      hide Handle;
      HandlesRoute(s, e, m);
      RouteLaw(s, e, m);
    } else {
      hide OnCallState, UpdateRoute, PreferSpeaker, StartCall, LeaveCall, OnAudioAlloc, OnAudioReset, OnSysEntered,
        OnSysLeft, Put, Release;
      match m
      case CallState(target) => CallStateLaw(s, e, target);
      case EnterCall => EnterLaw(s, e);
      case ExitCall => ExitLaw(s, e);
      case AudioAlloc => AudioAllocLaw(s, e);
      case AudioReset => AudioResetLaw(s, e);
      case SysEntered => SysEnteredLaw(s, e);
      case SysLeft => SysLeftLaw(s, e);
      case _ => PlainLaw(s, e, m, Handle(s, e, m));
    }
  }

  // ---- The end of a call ------------------------------------------------------------------------

  /** Ending a call gives the device back, forgets a pending allocation and the preference for
      the speaker, tells nobody, and takes the system out of the call. */
  lemma EndsCall(s: Mm, e: Env)
    requires !s.call.Normal?
    ensures var t, inside := Handle(s, e, CallState(Normal)), s.sys.SysInCall? || s.sys.SysIncoming? || s.sys.Entering?;
            && t.call.Normal? && !t.aio && !t.allocPending && !t.audioStarted && !t.router.prefer
            && !t.sys.SysInCall? && !t.sys.SysIncoming? && !t.sys.Entering?
            && Grown(s.queue, t.queue, if inside then Some(SysLeft) else None) && t.trace == s.trace
  {
    hide Handle, Grown, NewFace;
    HandleLaw(s, e, CallState(Normal));
    Nothing(s.queue, s.trace);
    NormalSays(s, e);
  }

  /** The device over one step of any thread: only the three messages touch it. */
  lemma DeviceStep(s: Mm, a: Step)
    requires Enabled(s, a)
    ensures Next(s, a).aio ==
            if !a.Deliver? then s.aio
            else if s.queue[0].AudioRelease? || (s.queue[0] == CallState(Normal) && !s.call.Normal?) then false
            else s.aio || (s.queue[0].AudioAlloc? && a.env.allocOk)
  {
    hide Handle, Put;
    match a
    case Deliver(e) =>
      var t := s.(queue := s.queue[1..]);
      HandleLaw(t, e, s.queue[0]);
      AioSays(t, e, s.queue[0]);
    case BtFires(ok, after) => PutFrame(s, Moved(s.router.(btTimer := false, route := after), ok));
    case _ =>
  }

  lemma AioSays(s: Mm, e: Env, m: Msg)
    requires Law(s, e, m, Handle(s, e, m))
    ensures Handle(s, e, m).aio == NewAio(s, e, m)
  {
    hide Handle, Grown, Posted, Told;
  }

  /** No step of the run delivers an AudioAlloc. */
  predicate Unallocated(s: Mm, run: seq<Step>)
    requires IsRun(s, run)
    decreases |run|
  {
    run == [] || (!(run[0].Deliver? && s.queue[0].AudioAlloc?) && Unallocated(Next(s, run[0]), run[1..]))
  }

  /** Once free, the device stays free in every run until an AudioAlloc is delivered; so it
      does after the end of a call, whatever else happens. */
  lemma {:induction false} FreeUntilAlloc(s: Mm, run: seq<Step>)
    requires IsRun(s, run) && !s.aio && Unallocated(s, run)
    ensures !After(s, run).aio
    decreases |run|
  {
    if run != [] {
      DeviceStep(s, run[0]);
      hide Next;
      FreeUntilAlloc(Next(s, run[0]), run[1..]);
    }
  }

  // ---- Which route is asked for --------------------------------------------------------------------

  /** The speaker if it is preferred, else the headset, else Bluetooth, else the earpiece. */
  lemma WantedPriority(r: Router)
    ensures Wanted(r).Speaker? <==> r.prefer
    ensures Wanted(r).Headset? <==> !r.prefer && r.wired
    ensures Wanted(r).Bt? <==> !r.prefer && !r.wired && r.bt
    ensures Wanted(r).Earpiece? <==> !r.prefer && !r.wired && !r.bt
  {
  }

  /** The route an accessory event asks for. A headset that is plugged in gets the sound, and
      so does a Bluetooth device in a call; what is taken away leaves it to the other one
      unless the speaker is on and wanted, and then to the usual order. */
  function AskedBy(s: Mm, m: Msg): Route
    requires m.HeadsetConnected? || m.BtConnected?
  {
    var video, speaker := s.router.prefer || s.call.InVideoCall?, s.router.route.Speaker?;
    if m.on then if m.HeadsetConnected? || (s.router.wired && !s.call.Talking()) then Headset else Bt
    else if m.HeadsetConnected? then
      if s.router.bt && (!speaker || !video) then Bt else if video then Speaker else Earpiece
    else if s.router.wired && (!speaker || !video) then Headset
    else if video then Speaker else Earpiece
  }

  /** How the platform goes about reaching a route. */
  predicate Reaches(r: Router, e: Env, asked: Route, t: Router, posted: bool) {
    if r.route == asked then
      t.route == (if asked.Speaker? then e.afterSpeaker else asked) && t.btTimer == r.btTimer && !posted
    else
      match asked
      case Headset => t.route == e.afterHeadset && t.btTimer == r.btTimer && posted
      case Speaker => t.route == e.afterSpeaker && t.btTimer == r.btTimer && posted
      case Bt => t.route == r.route && t.btTimer && !posted
      case Earpiece =>
        && t.btTimer == r.btTimer && posted == (e.earpieceOk && e.afterEarpiece != r.route)
        && t.route == if posted then e.afterEarpiece else e.afterSpeaker
      case NoRoute => true
  }

  /** What plugging and unplugging do to the route: the flags follow the accessory, the route
      asked for is the one above, and it is reached as the platform reaches it. */
  lemma AccessoryLaw(s: Mm, e: Env, m: Msg)
    requires m.HeadsetConnected? || m.BtConnected?
    ensures var t := Handle(s, e, m);
            && t.router.wired == (if m.HeadsetConnected? then m.on else s.router.wired)
            && t.router.bt == (if m.BtConnected? then m.on else s.router.bt)
            && Reaches(s.router, e, AskedBy(s, m), t.router, t.queue != s.queue)
  {
    hide Handle, Put;
    HandlesRoute(s, e, m);
    var r := MovedBy(s, e, m);
    MovedReaches(s, e, m);
    hide MovedBy, Reaches, AskedBy;
    PutFrame(s, r);
    PutPosts(s, r);
  }

  /** What the device asks for after it changed: the earpiece if the speaker is on against the
      preference, the speaker if it is the other way round, the usual order if it has no
      route, else what it has. */
  lemma ChangedLaw(s: Mm, e: Env)
    ensures var t, r := Handle(s, e, DeviceChanged), s.router;
            var asked := if r.route.Speaker? && !r.prefer then Earpiece
                         else if r.route.Earpiece? && r.prefer then Speaker
                         else if r.route.NoRoute? then Wanted(r) else r.route;
            && t.router.wired == r.wired && t.router.bt == r.bt && t.router.prefer == r.prefer
            && Reaches(r, e, asked, t.router, t.queue != s.queue)
  {
    hide Handle, Put;
    HandlesRoute(s, e, DeviceChanged);
    var m := MovedBy(s, e, DeviceChanged);
    ChangedMoves(s, e);
    hide MovedBy, Reaches;
    PutFrame(s, m);
    PutPosts(s, m);
  }

  lemma ChangedMoves(s: Mm, e: Env)
    ensures var m, r := MovedBy(s, e, DeviceChanged), s.router;
            var asked := if r.route.Speaker? && !r.prefer then Earpiece
                         else if r.route.Earpiece? && r.prefer then Speaker
                         else if r.route.NoRoute? then Wanted(r) else r.route;
            && m.r.wired == r.wired && m.r.bt == r.bt && m.r.prefer == r.prefer
            && Reaches(r, e, asked, m.r, m.posted)
  {
  }

  lemma PutPosts(s: Mm, m: Moved)
    ensures Put(s, m).queue != s.queue <==> m.posted
  {
    if m.posted { assert |Put(s, m).queue| == |s.queue| + 1; }
  }

  lemma MovedReaches(s: Mm, e: Env, m: Msg)
    requires m.HeadsetConnected? || m.BtConnected?
    ensures var r := MovedBy(s, e, m);
            && r.r.wired == (if m.HeadsetConnected? then m.on else s.router.wired)
            && r.r.bt == (if m.BtConnected? then m.on else s.router.bt)
            && Reaches(s.router, e, AskedBy(s, m), r.r, r.posted)
  {
  }

  /** The speaker switch asks for the usual order with the new preference, and does nothing
      to a route that is already the right one. */
  lemma SpeakerSwitch(s: Mm, e: Env, on: bool)
    ensures var t, asked := Handle(s, e, EnableSpeaker(on)), Wanted(s.router.(prefer := on));
            && t.router.prefer == on
            && if s.router.route == asked then t == s.(router := s.router.(prefer := on))
               else Reaches(s.router, e, asked, t.router, t.queue != s.queue)
  {
    hide Handle, Put;
    HandlesRoute(s, e, EnableSpeaker(on));
    var r := MovedBy(s, e, EnableSpeaker(on));
    RoutesKeepPrefer(s.router, s.call, e, on);
    assert r.r.prefer == on;
    SwitchReaches(s.router, e, on);
    PutFrame(s, r);
    PutPosts(s, r);
    assert r == PreferSpeaker(s.router, e, on);
    hide MovedBy, Reaches, PreferSpeaker;
  }

  lemma SwitchReaches(r: Router, e: Env, on: bool)
    ensures var m, asked := PreferSpeaker(r, e, on), Wanted(r.(prefer := on));
            if r.route == asked then m == Moved(r.(prefer := on), false) else Reaches(r, e, asked, m.r, m.posted)
  {
  }

  // Where other messages move the route they do what one of the above does.

  /** Entering a call does to the route what a DeviceChanged does. */
  lemma EnteringRoutes(s: Mm, e: Env)
    requires !s.sys.SysUnknown?
    ensures Handle(s, e, EnterCall).router == Handle(s, e, DeviceChanged).router
  {
    hide UpdateRoute, Put, OnCallState, PreferSpeaker, LeaveCall, OnAudioAlloc, OnAudioReset, OnSysEntered, OnSysLeft;
    var t := s.(playReady := true);
    var u := if s.sys.SysInCall? then t else t.(sys := Entering);
    PutFrame(s, UpdateRoute(s.router, s.call, e, Changed));
    PutFrame(u, UpdateRoute(s.router, s.call, e, Changed));
  }

  /** So does leaving it for good, once the speaker is no longer preferred. */
  lemma LeavingRoutes(s: Mm, e: Env)
    requires !s.sys.Entering? && s.call.Normal?
    ensures Handle(s, e, SysLeft).router == Handle(Prefer(s, false), e, DeviceChanged).router
  {
    hide UpdateRoute, Put, OnCallState, PreferSpeaker, LeaveCall, OnAudioAlloc, OnAudioReset, OnSysEntered, StartCall;
    var t := Prefer(s.(sys := SysNormal), false);
    PutFrame(t, UpdateRoute(t.router, t.call, e, Changed));
    PutFrame(Prefer(s, false), UpdateRoute(t.router, t.call, e, Changed));
  }

  /** Turning a call into a video call does what the speaker switch does, unless an accessory
      has the sound. */
  lemma VideoRoutes(s: Mm, e: Env)
    requires s.call.InCall?
    ensures Handle(s, e, CallState(InVideoCall)).router ==
            if s.router.route.Headset? || s.router.route.Bt? then s.router.(prefer := true)
            else Handle(s, e, EnableSpeaker(true)).router
  {
    hide Handle;
    HandlesRoute(s, e, EnableSpeaker(true));
    HandlesVideo(s, e);
    var t, m := s.(call := InVideoCall), SetVideoRoute(s.router, e);
    VideoMoves(s.router, e);
    hide SetVideoRoute, PreferSpeaker, Put;
    PutFrame(t, m);
    PutFrame(s, PreferSpeaker(s.router, e, true));
  }

  lemma HandlesVideo(s: Mm, e: Env)
    requires s.call.InCall?
    ensures var t := s.(call := InVideoCall);
            Handle(s, e, CallState(InVideoCall)) == OnSameState(Put(t, SetVideoRoute(t.router, e)))
  {
    hide UpdateRoute, Put, SetVideoRoute, OnSameState, HandleIncall, OnNormal, OnOutgoing, OnIncoming, OnHold, OnResume,
      LeaveCall, OnAudioAlloc, OnAudioReset, OnSysEntered, OnSysLeft, StartCall, PreferSpeaker;
  }

  lemma VideoMoves(r: Router, e: Env)
    ensures SetVideoRoute(r, e) ==
            if r.route.Headset? || r.route.Bt? then Moved(r.(prefer := true), false) else PreferSpeaker(r, e, true)
  {
  }

  /** Ringing moves the sound from the earpiece to the speaker, and leaves other routes. */
  lemma RingingRoutes(s: Mm, e: Env, target: Call)
    requires s.call.Normal? && s.sys.SysNormal? && (target.InAudio? || target.InVideo?)
    ensures Handle(s, e, CallState(target)).router ==
            if s.router.route.Earpiece? then s.router.(route := e.afterSpeaker) else s.router
  {
    hide UpdateRoute, SetVideoRoute, OnSameState, OnTalk, OnNormal, OnOutgoing, OnHold, OnResume, LeaveCall,
      OnAudioAlloc, OnAudioReset, OnSysEntered, OnSysLeft, StartCall, PreferSpeaker;
  }
}
