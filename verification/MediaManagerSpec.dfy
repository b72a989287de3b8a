/** The media manager: a single-threaded handler over a message queue. The platform
    calls a handler makes post further messages to the same queue and change the audio
    route. What the handlers cannot know (the audio device, the Java router) is an `Env`
    that may differ at every message. */
module MediaManagerSpec {

  datatype Call = Normal | OutAudio | OutVideo | InAudio | InVideo | InCall | InVideoCall
                | Roaming | Hold | Resume | Error | Unknown
  {
    predicate Talking() { this.InCall? || this.InVideoCall? }
  }

  datatype Sys = SysUnknown | SysNormal | SysIncoming | Entering | SysInCall | Exiting

  /** The routes the Android router reports; NoRoute also stands for "no wish". */
  datatype Route = Earpiece | Speaker | Headset | Bt | NoRoute

  datatype Msg = Exit | CallState(state: Call) | EnableSpeaker(on: bool) | HeadsetConnected(on: bool)
               | BtConnected(on: bool) | DeviceChanged | EnterCall | ExitCall
               | AudioAlloc | AudioRelease | AudioReset
               | SysIncomingMsg | SysEntered | SysLeft | Media

  datatype Event = HeadsetPlugged | HeadsetUnplugged | BtOn | BtOff | Changed

  /** One notification to the registered clients, and whether the device was held. */
  datatype Note = Note(state: Call, held: bool)

  /** How the platform answers while one message is handled. */
  datatype Env = Env(activated: bool, allocOk: bool, resetOk: bool, earpieceOk: bool,
                     afterSpeaker: Route, afterEarpiece: Route, afterHeadset: Route)

  /** The route flags, the route the router reports, and the pending Bluetooth timer. */
  datatype Router = Router(prefer: bool, bt: bool, wired: bool, cur: Route, route: Route, btTimer: bool)
  {
    predicate Unsettled() { (route.Speaker? && !prefer) || (route.Earpiece? && prefer) }
  }

  datatype Mm = Mm(call: Call, hold: Call, sys: Sys,
                   audioStarted: bool, shouldReset: bool, allocPending: bool, playReady: bool,
                   router: Router, aio: bool, running: bool, queue: seq<Msg>, trace: seq<Note>)

  function Init(route: Route): Mm {
    Mm(Normal, Normal, SysNormal, false, false, false, false,
       Router(false, false, false, NoRoute, route, false), false, true, [DeviceChanged], [])
  }

  function Post(s: Mm, m: Msg): Mm { s.(queue := s.queue + [m]) }

  function PostAlloc(s: Mm): Mm {
    if s.allocPending then s else Post(s.(allocPending := true), AudioAlloc)
  }

  function Fire(s: Mm): Mm { s.(trace := s.trace + [Note(s.call, s.aio)]) }

  function FireError(s: Mm): Mm { s.(trace := s.trace + [Note(Error, s.aio)]) }

  // ---- The audio route -----------------------------------------------------------------

  /** A new router state, and whether the platform posted DeviceChanged. */
  datatype Moved = Moved(r: Router, posted: bool)

  function SpeakerOn(r: Router, e: Env, notify: bool): Moved {
    Moved(r.(route := e.afterSpeaker), notify)
  }

  function EarpieceOn(r: Router, e: Env): Moved {
    var t := r.(route := e.afterEarpiece);
    if e.earpieceOk && t.route != r.route then Moved(t, true) else SpeakerOn(t, e, false)
  }

  function Satisfy(r: Router, e: Env, wanted: Route): Moved {
    match wanted
    case Headset => Moved(r.(route := e.afterHeadset), true)
    case Earpiece => EarpieceOn(r, e)
    case Speaker => SpeakerOn(r, e, true)
    case Bt => Moved(r.(btTimer := true), false)
    case NoRoute => Moved(r, false)
  }

  function Wanted(r: Router): Route {
    if r.prefer then Speaker else if r.wired then Headset else if r.bt then Bt else Earpiece
  }

  /** The speaker switch of the user interface. */
  function PreferSpeaker(r: Router, e: Env, on: bool): Moved {
    var t := r.(prefer := on);
    if Wanted(t) != r.route then Satisfy(t, e, Wanted(t)) else Moved(t, false)
  }

  /** What an event makes of the flags, and the route it asks for. */
  function Flags(r: Router, call: Call, event: Event): (Router, Route) {
    match event
    case HeadsetPlugged => (r.(wired := true, prefer := false), Headset)
    case HeadsetUnplugged =>
      (r.(wired := false, prefer := r.prefer || call.InVideoCall?),
       if r.bt && !r.route.Speaker? then Bt else NoRoute)
    case BtOn => (r.(bt := true, prefer := false), if call.Talking() then Bt else NoRoute)
    case BtOff =>
      (r.(bt := false, prefer := r.prefer || call.InVideoCall?),
       if r.wired && !r.route.Speaker? then Headset else NoRoute)
    case Changed =>
      (r, if r.route.Speaker? && !r.prefer then Earpiece
          else if r.route.Earpiece? && r.prefer then Speaker
          else r.route)
  }

  /** Switch to the wanted route, or confirm the current one. */
  function Reach(r: Router, e: Env, cur: Route, wanted: Route): Moved {
    if cur != wanted then Satisfy(r, e, wanted)
    else if cur.Speaker? then SpeakerOn(r, e, false)
    else Moved(r, false)
  }

  function UpdateRoute(r: Router, call: Call, e: Env, event: Event): Moved {
    var (u, asked) := Flags(r, call, event);
    var v := u.(cur := r.route);
    Reach(v, e, r.route, if asked.NoRoute? then Wanted(v) else asked)
  }

  function SetVideoRoute(r: Router, e: Env): Moved {
    var t := r.(prefer := true);
    if r.route.Headset? || r.route.Bt? then Moved(t, false) else PreferSpeaker(t, e, true)
  }

  function Put(s: Mm, m: Moved): Mm {
    if m.posted then Post(s.(router := m.r), DeviceChanged) else s.(router := m.r)
  }

  function Prefer(s: Mm, on: bool): Mm { s.(router := s.router.(prefer := on)) }

  function Reroute(s: Mm, e: Env, event: Event): Mm { Put(s, UpdateRoute(s.router, s.call, e, event)) }

  // ---- Entering and leaving a call -------------------------------------------------------

  function EnterIncoming(s: Mm, e: Env): Mm {
    if !s.sys.SysNormal? then s
    else Post(if s.router.route.Earpiece? then Put(s, SpeakerOn(s.router, e, false)) else s, SysIncomingMsg)
  }

  function StartCall(s: Mm, e: Env): Mm {
    var t := s.(playReady := true);
    if s.sys.SysUnknown? then t
    else Post(Reroute(if s.sys.SysInCall? then t else t.(sys := Entering), e, Changed), SysEntered)
  }

  function LeaveCall(s: Mm): Mm {
    if s.sys.SysInCall? || s.sys.SysIncoming? || s.sys.Entering?
    then Post(s.(sys := Exiting, router := s.router.(btTimer := false)), SysLeft)
    else s
  }

  function IncallAction(s: Mm, e: Env): Mm {
    var t := if s.call.InVideoCall? then Put(s, SetVideoRoute(s.router, e)) else s;
    if e.activated || s.audioStarted then PostAlloc(t.(playReady := false)) else t
  }

  function HandleIncall(s: Mm, e: Env, held: bool): Mm {
    var t := if s.call.InVideoCall? then Prefer(s, true) else s;
    if held then StartCall(t, e)
    else if s.sys.SysInCall? then IncallAction(t, e)
    else if s.sys.Entering? then t
    else StartCall(t, e)
  }

  // ---- Message handlers ------------------------------------------------------------------

  function OnSysEntered(s: Mm, e: Env): Mm {
    if s.sys.SysInCall? && s.call.Talking() then if s.aio then Fire(s) else IncallAction(s, e)
    else if !s.sys.Entering? then s
    else
      var t := s.(sys := SysInCall);
      match s.call
      case OutVideo => if !s.router.bt && !s.router.wired then Put(t, PreferSpeaker(t.router, e, true)) else t
      case InCall => IncallAction(t, e)
      case InVideoCall => IncallAction(t, e)
      case Resume => (if s.aio then Fire(t) else PostAlloc(t)).(call := s.hold)
      case Normal => LeaveCall(t)
      case _ => t
  }

  function OnSysLeft(s: Mm, e: Env): Mm {
    if s.sys.Entering? then s
    else
      var t := s.(sys := SysNormal);
      if s.call.Normal? then Reroute(Prefer(t, false), e, Changed) else t
  }

  function OnAudioAlloc(s: Mm, e: Env): Mm {
    if s.aio then Fire(s)
    else if !e.allocOk then FireError(s).(allocPending := false)
    else Fire(s.(aio := true)).(allocPending := false)
  }

  function Release(s: Mm): Mm { s.(aio := false, allocPending := false) }

  function OnAudioReset(s: Mm, e: Env): Mm {
    if !s.aio then StartCall(s, e) else if !e.resetOk then FireError(s) else s
  }

  /** The same state again: the clients are told again if they can talk. */
  function OnSameState(s: Mm): Mm { if s.call.Talking() && s.aio then Fire(s) else s }

  function OnNormal(s: Mm): Mm {
    var t := Release(s.(call := Normal)).(audioStarted := false);
    Prefer(LeaveCall(t), false)
  }

  function OnOutgoing(s: Mm, e: Env, target: Call): Mm {
    var t := if target.OutVideo? then Prefer(s, true) else s;
    match s.call
    case Normal => StartCall(t.(call := target), e)
    case Resume => StartCall(t.(hold := target), e)
    case Hold =>
      if target.OutVideo? && s.sys.SysInCall? && !s.router.bt && !s.router.wired
      then Put(t, PreferSpeaker(t.router, e, true)) else t
    case _ => t
  }

  function OnIncoming(s: Mm, e: Env, target: Call): Mm {
    match s.call
    case Normal => EnterIncoming(s.(call := target), e)
    case Resume => EnterIncoming(s.(hold := target), e)
    case _ => if target.InVideo? then EnterIncoming(s, e) else s
  }

  function OnTalk(s: Mm, e: Env, target: Call): Mm {
    var t := s.(call := target);
    if s.call.Talking()
    then OnSameState(if target.InVideoCall? then Put(t, SetVideoRoute(t.router, e)) else t)
    else HandleIncall(t, e, s.call.Hold?)
  }

  function OnHold(s: Mm): Mm {
    Fire(s.(hold := s.call, shouldReset := true, call := Hold))
  }

  function OnResume(s: Mm, e: Env): Mm {
    if !s.call.Hold? then s
    else
      var t := s.(call := Resume);
      if !s.hold.Talking() then t
      else if !s.sys.SysInCall? then StartCall(t, e)
      else (if s.aio then Fire(t) else t).(call := s.hold)
  }

  function OnCallState(s: Mm, e: Env, target: Call): Mm {
    if target == s.call then OnSameState(s)
    else
      match target
      case Normal => OnNormal(s)
      case OutAudio => OnOutgoing(s, e, target)
      case OutVideo => OnOutgoing(s, e, target)
      case InAudio => OnIncoming(s, e, target)
      case InVideo => OnIncoming(s, e, target)
      case InCall => OnTalk(s, e, target)
      case InVideoCall => OnTalk(s, e, target)
      case Hold => OnHold(s)
      case Resume => OnResume(s, e)
      case _ => s
  }

  function Handle(s: Mm, e: Env, m: Msg): Mm {
    match m
    case Exit => s.(running := false)
    case CallState(target) => OnCallState(s, e, target)
    case EnableSpeaker(on) => Put(s, PreferSpeaker(s.router, e, on))
    case HeadsetConnected(on) => Reroute(s, e, if on then HeadsetPlugged else HeadsetUnplugged)
    case BtConnected(on) => Reroute(s, e, if on then BtOn else BtOff)
    case DeviceChanged => Reroute(s, e, Changed)
    case EnterCall => StartCall(s, e)
    case ExitCall => LeaveCall(s)
    case AudioAlloc => OnAudioAlloc(s, e)
    case AudioRelease => Release(s)
    case AudioReset => OnAudioReset(s, e)
    case SysIncomingMsg => s.(sys := SysIncoming)
    case SysEntered => OnSysEntered(s, e)
    case SysLeft => OnSysLeft(s, e)
    case Media => s
  }

  // ---- Runs ------------------------------------------------------------------------------

  /** Deliver handles the message at the head of the queue; every other step is another
      thread, the Bluetooth timer, or the hardware changing the route by itself. */
  datatype Step = Deliver(env: Env) | Outside(msg: Msg) | Drift(route: Route)
                | BtFires(ok: bool, after: Route) | AudioStart | Override(on: bool) | RequestReset

  predicate Enabled(s: Mm, a: Step) {
    match a
    case Deliver(_) => s.running && s.queue != []
    case BtFires(_, _) => s.running && s.router.btTimer
    case _ => true
  }

  function Next(s: Mm, a: Step): Mm
    requires Enabled(s, a)
  {
    match a
    case Deliver(e) => Handle(s.(queue := s.queue[1..]), e, s.queue[0])
    case Outside(m) => Post(s, m)
    case Drift(r) => s.(router := s.router.(route := r))
    case BtFires(ok, after) => Put(s, Moved(s.router.(btTimer := false, route := after), ok))
    case AudioStart => s.(audioStarted := true)
    case Override(on) => Prefer(s, on)
    case RequestReset => Post(s.(shouldReset := false), AudioReset)
  }

  predicate IsRun(s: Mm, run: seq<Step>)
    decreases |run|
  {
    run == [] || (Enabled(s, run[0]) && IsRun(Next(s, run[0]), run[1..]))
  }

  function After(s: Mm, run: seq<Step>): Mm
    requires IsRun(s, run)
    decreases |run|
  {
    if run == [] then s else After(Next(s, run[0]), run[1..])
  }

  lemma RunNothing(s: Mm)
    ensures IsRun(s, []) && After(s, []) == s
  {
  }

  lemma RunHead(s: Mm, run: seq<Step>)
    requires IsRun(s, run) && run != []
    ensures Enabled(s, run[0]) && IsRun(Next(s, run[0]), run[1..])
    ensures After(s, run) == After(Next(s, run[0]), run[1..])
  {
  }

  lemma {:induction false} RunThen(s: Mm, run: seq<Step>, a: Step)
    requires IsRun(s, run) && Enabled(After(s, run), a)
    ensures IsRun(s, run + [a]) && After(s, run + [a]) == Next(After(s, run), a)
    decreases |run|
  {
    hide Next, Enabled;
    if run == [] {
      assert [] + [a] == [a] && [a][1..] == [];
    } else {
      RunThen(Next(s, run[0]), run[1..], a);
      assert (run + [a])[0] == run[0] && (run + [a])[1..] == run[1..] + [a];
    }
  }

  // ---- Invariants of every run -----------------------------------------------------------

  predicate SysOk(s: Mm) {
    && !s.sys.SysUnknown?
    && (s.sys.Entering? ==> SysEntered in s.queue)
    && (s.sys.Exiting? ==> SysLeft in s.queue)
  }

  predicate AllocOk(s: Mm) { s.allocPending ==> AudioAlloc in s.queue || s.aio }

  predicate TraceOk(s: Mm) {
    forall i :: 0 <= i < |s.trace| && s.trace[i].state.Talking() ==> s.trace[i].held
  }

  predicate Inv(s: Mm) { SysOk(s) && AllocOk(s) && TraceOk(s) && !s.hold.Hold? }

  // Each of the operations the handlers are made of keeps the invariant.

  lemma PostKeeps(s: Mm, m: Msg)
    requires Inv(s)
    ensures Inv(Post(s, m))
  {
  }

  /** Moving the router changes the router, and may post DeviceChanged. */
  lemma PutFrame(s: Mm, m: Moved)
    ensures Put(s, m) == s.(router := m.r, queue := Put(s, m).queue)
    ensures Put(s, m).queue == s.queue || Put(s, m).queue == s.queue + [DeviceChanged]
  {
  }

  lemma PutKeeps(s: Mm, m: Moved)
    requires Inv(s)
    ensures Inv(Put(s, m))
  {
  }

  lemma PostAllocKeeps(s: Mm)
    requires Inv(s)
    ensures Inv(PostAlloc(s))
  {
  }

  lemma FireKeeps(s: Mm)
    requires Inv(s) && (s.call.Talking() ==> s.aio)
    ensures Inv(Fire(s))
  {
  }

  lemma FireErrorKeeps(s: Mm)
    requires Inv(s)
    ensures Inv(FireError(s))
  {
  }

  /** Entering a call posts the SysEntered its new state waits for. */
  lemma StartCallKeeps(s: Mm, e: Env)
    requires Inv(s)
    ensures Inv(StartCall(s, e))
  {
    hide UpdateRoute, Put;
    var t := s.(playReady := true);
    var u := if s.sys.SysInCall? then t else t.(sys := Entering);
    var v := Reroute(u, e, Changed);
    PutFrame(u, UpdateRoute(u.router, u.call, e, Changed));
    assert v.queue + [SysEntered] == Post(v, SysEntered).queue;
  }

  lemma LeaveCallKeeps(s: Mm)
    requires Inv(s)
    ensures Inv(LeaveCall(s))
  {
  }

  lemma EnterIncomingKeeps(s: Mm, e: Env)
    requires Inv(s)
    ensures Inv(EnterIncoming(s, e))
  {
    var t := if s.router.route.Earpiece? then Put(s, SpeakerOn(s.router, e, false)) else s;
    PutKeeps(s, SpeakerOn(s.router, e, false));
    hide Inv, Put, Post;
    PostKeeps(t, SysIncomingMsg);
  }

  lemma IncallActionKeeps(s: Mm, e: Env)
    requires Inv(s)
    ensures Inv(IncallAction(s, e))
  {
    hide SetVideoRoute;
    PutKeeps(s, SetVideoRoute(s.router, e));
    var t := if s.call.InVideoCall? then Put(s, SetVideoRoute(s.router, e)) else s;
    hide Put;
    PostAllocKeeps(t.(playReady := false));
  }

  lemma HandleIncallKeeps(s: Mm, e: Env, held: bool)
    requires Inv(s)
    ensures Inv(HandleIncall(s, e, held))
  {
    hide StartCall, IncallAction;
    var t := if s.call.InVideoCall? then Prefer(s, true) else s;
    assert Inv(t);
    hide Inv;
    StartCallKeeps(t, e);
    IncallActionKeeps(t, e);
  }

  /** SysEntered is handled with its own message gone from the queue. */
  lemma OnSysEnteredKeeps(s: Mm, e: Env)
    requires Inv(s.(sys := SysInCall)) && SysOk(s.(queue := [SysEntered] + s.queue))
    ensures Inv(OnSysEntered(s, e))
  {
    if !s.sys.Entering? { EnteredBefore(s); }
    hide IncallAction, PreferSpeaker, LeaveCall, Put, Inv, SysOk, PostAlloc, Fire;
    var t := s.(sys := SysInCall);
    if !s.sys.Entering? {
      if s.aio && s.call.Talking() { FireKeeps(s); }
      IncallActionKeeps(s, e);
    } else {
      match s.call
      case OutVideo => PutKeeps(t, PreferSpeaker(t.router, e, true));
      case InCall => IncallActionKeeps(t, e);
      case InVideoCall => IncallActionKeeps(t, e);
      case Resume =>
        FireKeeps(t);
        PostAllocKeeps(t);
        CallFree(if s.aio then Fire(t) else PostAlloc(t), s.hold);
      case Normal => LeaveCallKeeps(t);
      case _ =>
    }
  }

  lemma EnteredBefore(s: Mm)
    requires Inv(s.(sys := SysInCall)) && SysOk(s.(queue := [SysEntered] + s.queue)) && !s.sys.Entering?
    ensures Inv(s)
  {
  }

  lemma CallFree(s: Mm, c: Call)
    requires Inv(s)
    ensures Inv(s.(call := c))
  {
  }

  lemma OnSysLeftKeeps(s: Mm, e: Env)
    requires Inv(s.(sys := SysNormal)) && SysOk(s.(queue := [SysLeft] + s.queue))
    ensures Inv(OnSysLeft(s, e))
  {
    hide UpdateRoute;
    var t := Prefer(s.(sys := SysNormal), false);
    assert Inv(t);
    PutKeeps(t, UpdateRoute(t.router, t.call, e, Changed));
    hide Put;
  }

  /** AudioAlloc is handled with its own message gone: a pending flag means the device is held. */
  lemma OnAudioAllocKeeps(s: Mm, e: Env)
    requires Inv(s.(allocPending := false))
    ensures Inv(OnAudioAlloc(s, e))
  {
    var t := s.(allocPending := false);
    if s.aio {
      FireKeeps(t);
    } else if e.allocOk {
      FireKeeps(t.(aio := true));
    } else {
      FireErrorKeeps(t);
    }
  }

  lemma OnTalkKeeps(s: Mm, e: Env, target: Call)
    requires Inv(s) && target.Talking()
    ensures Inv(OnTalk(s, e, target))
  {
    hide HandleIncall, SetVideoRoute;
    var t := s.(call := target);
    assert Inv(t);
    HandleIncallKeeps(t, e, s.call.Hold?);
    PutKeeps(t, SetVideoRoute(t.router, e));
    var u := if target.InVideoCall? then Put(t, SetVideoRoute(t.router, e)) else t;
    if u.aio { FireKeeps(u); }
    hide Inv, Put;
  }

  lemma OnOutgoingKeeps(s: Mm, e: Env, target: Call)
    requires Inv(s) && (target.OutAudio? || target.OutVideo?)
    ensures Inv(OnOutgoing(s, e, target))
  {
    hide StartCall, PreferSpeaker;
    var t := if target.OutVideo? then Prefer(s, true) else s;
    assert Inv(t) && Inv(t.(call := target)) && Inv(t.(hold := target));
    hide Inv, Put;
    StartCallKeeps(t.(call := target), e);
    StartCallKeeps(t.(hold := target), e);
    PutKeeps(t, PreferSpeaker(t.router, e, true));
  }

  lemma OnIncomingKeeps(s: Mm, e: Env, target: Call)
    requires Inv(s) && (target.InAudio? || target.InVideo?)
    ensures Inv(OnIncoming(s, e, target))
  {
    hide EnterIncoming;
    assert Inv(s.(call := target)) && Inv(s.(hold := target));
    hide Inv;
    EnterIncomingKeeps(s, e);
    EnterIncomingKeeps(s.(call := target), e);
    EnterIncomingKeeps(s.(hold := target), e);
  }

  lemma OnNormalKeeps(s: Mm)
    requires Inv(s)
    ensures Inv(OnNormal(s))
  {
    LeaveCallKeeps(Release(s.(call := Normal)).(audioStarted := false));
  }

  lemma OnHoldKeeps(s: Mm)
    requires Inv(s) && !s.call.Hold?
    ensures Inv(OnHold(s))
  {
    FireKeeps(s.(hold := s.call, shouldReset := true, call := Hold));
  }

  lemma OnResumeKeeps(s: Mm, e: Env)
    requires Inv(s)
    ensures Inv(OnResume(s, e))
  {
    hide StartCall;
    var t := s.(call := Resume);
    assert Inv(t);
    StartCallKeeps(t, e);
    FireKeeps(t);
  }

  lemma OnCallStateKeeps(s: Mm, e: Env, target: Call)
    requires Inv(s)
    ensures Inv(OnCallState(s, e, target))
  {
    if target == s.call {
      if s.aio { FireKeeps(s); }
    } else {
      hide Inv, OnNormal, OnOutgoing, OnIncoming, OnTalk, OnHold, OnResume;
      match target
      case Normal => OnNormalKeeps(s);
      case OutAudio => OnOutgoingKeeps(s, e, target);
      case OutVideo => OnOutgoingKeeps(s, e, target);
      case InAudio => OnIncomingKeeps(s, e, target);
      case InVideo => OnIncomingKeeps(s, e, target);
      case InCall => OnTalkKeeps(s, e, target);
      case InVideoCall => OnTalkKeeps(s, e, target);
      case Hold => OnHoldKeeps(s);
      case Resume => OnResumeKeeps(s, e);
      case _ =>
    }
  }

  lemma OnAudioResetKeeps(s: Mm, e: Env)
    requires Inv(s)
    ensures Inv(OnAudioReset(s, e))
  {
    hide StartCall;
    StartCallKeeps(s, e);
    FireErrorKeeps(s);
  }

  /** What taking the head off the queue leaves of the invariant. */
  lemma HeadTaken(s: Mm)
    requires Inv(s) && s.queue != []
    ensures var t := s.(queue := s.queue[1..]);
            && (s.queue[0] != SysEntered && s.queue[0] != SysLeft && s.queue[0] != AudioAlloc ==> Inv(t))
            && (s.queue[0] == SysEntered ==>
                  Inv(t.(sys := SysInCall)) && SysOk(t.(queue := [SysEntered] + t.queue)))
            && (s.queue[0] == SysLeft ==>
                  Inv(t.(sys := SysNormal)) && SysOk(t.(queue := [SysLeft] + t.queue)))
            && (s.queue[0] == AudioAlloc ==> Inv(t.(allocPending := false)))
  {
    assert s.queue == [s.queue[0]] + s.queue[1..];
  }

  lemma HandleKeeps(s: Mm, e: Env, m: Msg)
    requires match m
             case SysEntered => Inv(s.(sys := SysInCall)) && SysOk(s.(queue := [SysEntered] + s.queue))
             case SysLeft => Inv(s.(sys := SysNormal)) && SysOk(s.(queue := [SysLeft] + s.queue))
             case AudioAlloc => Inv(s.(allocPending := false))
             case _ => Inv(s)
    ensures Inv(Handle(s, e, m))
  {
    hide SysOk, AllocOk, TraceOk, OnCallState, UpdateRoute, PreferSpeaker, StartCall, LeaveCall,
      OnAudioAlloc, OnAudioReset, OnSysEntered, OnSysLeft, Put;
    match m
    case CallState(target) => OnCallStateKeeps(s, e, target);
    case EnableSpeaker(on) => PutKeeps(s, PreferSpeaker(s.router, e, on));
    case HeadsetConnected(on) =>
      PutKeeps(s, UpdateRoute(s.router, s.call, e, if on then HeadsetPlugged else HeadsetUnplugged));
    case BtConnected(on) => PutKeeps(s, UpdateRoute(s.router, s.call, e, if on then BtOn else BtOff));
    case DeviceChanged => PutKeeps(s, UpdateRoute(s.router, s.call, e, Changed));
    case EnterCall => StartCallKeeps(s, e);
    case ExitCall => LeaveCallKeeps(s);
    case AudioAlloc => OnAudioAllocKeeps(s, e);
    case AudioReset => OnAudioResetKeeps(s, e);
    case SysEntered => OnSysEnteredKeeps(s, e);
    case SysLeft => OnSysLeftKeeps(s, e);
    case _ => PlainKeeps(s, m);
  }

  lemma PlainKeeps(s: Mm, m: Msg)
    requires Inv(s)
    ensures Inv(s.(running := false)) && Inv(Release(s)) && Inv(s.(sys := SysIncoming))
  {
  }

  lemma OutsideKeeps(s: Mm, a: Step)
    requires Inv(s)
    ensures a.Drift? ==> Inv(s.(router := s.router.(route := a.route)))
    ensures a.Override? ==> Inv(Prefer(s, a.on))
    ensures Inv(s.(audioStarted := true)) && Inv(s.(shouldReset := false))
  {
  }

  lemma StepKeeps(s: Mm, a: Step)
    requires Inv(s) && Enabled(s, a)
    ensures Inv(Next(s, a))
  {
    hide Handle, Put, Post, Inv, SysOk;
    OutsideKeeps(s, a);
    match a
    case Deliver(e) =>
      HeadTaken(s);
      HandleKeeps(s.(queue := s.queue[1..]), e, s.queue[0]);
    case Outside(m) => PostKeeps(s, m);
    case BtFires(ok, after) => PutKeeps(s, Moved(s.router.(btTimer := false, route := after), ok));
    case RequestReset => PostKeeps(s.(shouldReset := false), AudioReset);
    case _ =>
  }

  lemma {:induction false} RunKeeps(s: Mm, run: seq<Step>)
    requires Inv(s) && IsRun(s, run)
    ensures Inv(After(s, run))
    decreases |run|
  {
    hide Inv, Next, Enabled;
    if run != [] {
      StepKeeps(s, run[0]);
      RunKeeps(Next(s, run[0]), run[1..]);
    }
  }

  /** Every state of every run of the media manager. */
  lemma EveryRun(route: Route, run: seq<Step>)
    requires IsRun(Init(route), run)
    ensures var s := After(Init(route), run);
            && Inv(s)
            && (s.queue == [] ==> s.sys.SysNormal? || s.sys.SysIncoming? || s.sys.SysInCall?)
            && (s.queue == [] && s.allocPending ==> s.aio)
  {
    RunKeeps(Init(route), run);
  }

  // ---- Telling the clients that they can talk --------------------------------------------

  /** Starting the audio of a call announces it, through the AudioAlloc it leaves in the
      queue, if and only if no finished allocation has left its pending flag behind. */
  lemma AnnouncedIff(s: Mm, e: Env)
    requires Inv(s) && (e.activated || s.audioStarted)
    ensures AudioAlloc in IncallAction(s, e).queue <==> !s.allocPending || AudioAlloc in s.queue
    ensures s.allocPending && AudioAlloc !in s.queue ==> s.aio && IncallAction(s, e).trace == s.trace
  {
    hide SetVideoRoute, Put;
    PutFrame(s, SetVideoRoute(s.router, e));
  }

  lemma Prepend(s: Mm, a: Step, run: seq<Step>)
    requires Enabled(s, a) && IsRun(Next(s, a), run)
    ensures IsRun(s, [a] + run) && After(s, [a] + run) == After(Next(s, a), run)
  {
    assert ([a] + run)[1..] == run;
  }

  /** Taken out of a call by the system and brought back: ExitCall and EnterCall with the
      messages the platform answers them with. Entering may move the route first. */
  function Reentry(s: Mm, e: Env, f: Env, g: Env): seq<Step> {
    [Outside(ExitCall), Deliver(e), Deliver(e)] + [Outside(EnterCall), Deliver(e)]
    + (if Rerouted(s, e).posted then [Deliver(f)] else []) + [Deliver(g)]
  }

  function Rerouted(s: Mm, e: Env): Moved { UpdateRoute(s.router.(btTimer := false), s.call, e, Changed) }

  /** In the call again: nothing but an AudioAlloc announces it, and there is one if and only
      if no finished allocation has left its flag behind. */
  predicate Reentered(s: Mm, t: Mm) {
    && t.call == s.call && t.hold == s.hold && t.aio == s.aio && t.trace == s.trace && t.running
    && t.sys.SysInCall? && t.allocPending
    && (forall m :: m in t.queue ==> m.DeviceChanged? || m.AudioAlloc?)
    && (AudioAlloc in t.queue <==> !s.allocPending)
  }

  /** What the cycle does to any call with nothing queued, whatever the route and however the
      platform answers. */
  lemma ReentryEffect(s: Mm, e: Env, f: Env, g: Env)
    requires s.call.Talking() && s.sys.SysInCall? && s.queue == [] && s.running && (g.activated || s.audioStarted)
    ensures IsRun(s, Reentry(s, e, f, g)) && Reentered(s, After(s, Reentry(s, e, f, g)))
  {
    hide UpdateRoute, Handle, Put, Reentered, Next, Enabled, IsRun, After;
    var out := s.(sys := SysNormal, router := s.router.(btTimer := false));
    var u := out.(playReady := true, sys := Entering);
    var v := Post(Put(u, Rerouted(s, e)), SysEntered);
    Leaves(s, e);
    Enters(out, e, v);
    PutFrame(u, Rerouted(s, e));
    PostedIs(u, Rerouted(s, e));
    var leave, enter := [Outside(ExitCall), Deliver(e), Deliver(e)], [Outside(EnterCall)] + [Deliver(e)];
    var last := if Rerouted(s, e).posted then [Deliver(f)] + [Deliver(g)] else [Deliver(g)];
    if Rerouted(s, e).posted {
      ChangedThenEntered(s, v, f, g);
    } else {
      EnteredAgain(s, v, g);
      RunOne(v, Deliver(g));
    }
    RunJoin(out, enter, last);
    RunJoin(s, leave, enter + last);
    assert Reentry(s, e, f, g) == leave + (enter + last);
  }

  lemma RunOne(s: Mm, a: Step)
    requires Enabled(s, a)
    ensures IsRun(s, [a]) && After(s, [a]) == Next(s, a)
  {
    hide Next, Enabled;
    RunNothing(Next(s, a));
    Prepend(s, a, []);
    assert [a] + [] == [a];
  }

  lemma PostedIs(s: Mm, m: Moved)
    requires s.queue == []
    ensures Put(s, m).queue == if m.posted then [DeviceChanged] else []
  {
  }

  /** ExitCall and SysLeft. */
  lemma Leaves(s: Mm, e: Env)
    requires s.call.Talking() && s.sys.SysInCall? && s.queue == [] && s.running
    ensures var run := [Outside(ExitCall), Deliver(e), Deliver(e)];
            IsRun(s, run) && After(s, run) == s.(sys := SysNormal, router := s.router.(btTimer := false))
  {
    hide Handle, Next, IsRun, After, Enabled, LeaveCall;
    var u := LeaveCall(s);
    Posts(s, ExitCall, s.(queue := [ExitCall]));
    ExitDelivered(s, e, u);
    LeftDelivered(s, u, s.(sys := SysNormal, router := s.router.(btTimer := false)), e);
    Three(s, Outside(ExitCall), s.(queue := [ExitCall]), Deliver(e), u, Deliver(e),
          s.(sys := SysNormal, router := s.router.(btTimer := false)));
  }

  lemma ExitDelivered(s: Mm, e: Env, u: Mm)
    requires s.queue == [] && s.running && u == LeaveCall(s)
    ensures var t := s.(queue := [ExitCall]); Enabled(t, Deliver(e)) && Next(t, Deliver(e)) == u
  {
    hide Handle, LeaveCall;
    LeavesSystem(s, e);
    DeliversTo(s.(queue := [ExitCall]), s, ExitCall, e, u);
  }

  lemma LeftDelivered(s: Mm, u: Mm, v: Mm, e: Env)
    requires s.call.Talking() && s.sys.SysInCall? && s.queue == [] && s.running && u == LeaveCall(s)
    requires v == s.(sys := SysNormal, router := s.router.(btTimer := false))
    ensures Enabled(u, Deliver(e)) && Next(u, Deliver(e)) == v
  {
    hide Handle;
    var w := u.(queue := []);
    assert u.queue == [SysLeft] && w.sys.Exiting? && v == w.(sys := SysNormal);
    hide LeaveCall;
    LeftSystem(w, e, v);
    DeliversTo(u, w, SysLeft, e, v);
  }

  lemma Posts(s: Mm, m: Msg, t: Mm)
    requires s.queue == [] && t == s.(queue := [m])
    ensures Enabled(s, Outside(m)) && Next(s, Outside(m)) == t
  {
  }

  lemma DeliversTo(s: Mm, rest: Mm, m: Msg, e: Env, t: Mm)
    requires s.running && s == rest.(queue := [m] + rest.queue) && Handle(rest, e, m) == t
    ensures Enabled(s, Deliver(e)) && Next(s, Deliver(e)) == t
  {
    hide Handle;
    assert s.queue[1..] == rest.queue && s.(queue := rest.queue) == rest;
  }

  lemma Delivers(s: Mm, e: Env)
    requires s.running && s.queue != []
    ensures Enabled(s, Deliver(e)) && Next(s, Deliver(e)) == Handle(s.(queue := s.queue[1..]), e, s.queue[0])
  {
    hide Handle;
  }

  lemma LeavesSystem(s: Mm, e: Env)
    ensures Handle(s, e, ExitCall) == LeaveCall(s)
  {
    hide OnCallState, UpdateRoute, PreferSpeaker, StartCall, LeaveCall, OnAudioAlloc, OnAudioReset, OnSysEntered,
      OnSysLeft, Put;
  }

  lemma LeftSystem(u: Mm, e: Env, v: Mm)
    requires u.sys.Exiting? && !u.call.Normal? && v == u.(sys := SysNormal)
    ensures Handle(u, e, SysLeft) == v
  {
    hide OnCallState, UpdateRoute, PreferSpeaker, StartCall, LeaveCall, OnAudioAlloc, OnAudioReset, OnSysEntered, Put;
  }

  /** EnterCall. */
  lemma Enters(s: Mm, e: Env, v: Mm)
    requires s.sys.SysNormal? && s.queue == [] && s.running
    requires var m := UpdateRoute(s.router, s.call, e, Changed);
             v == Post(Put(s.(playReady := true, sys := Entering), m), SysEntered)
    ensures var run := [Outside(EnterCall)] + [Deliver(e)]; IsRun(s, run) && After(s, run) == v
  {
    hide Handle;
    var t := s.(queue := [EnterCall]);
    assert Next(s, Outside(EnterCall)) == t && t.(queue := t.queue[1..]) == s;
    Delivers(t, e);
    hide Next;
    EntersSystem(s, e, v);
    RunOne(t, Deliver(e));
    Prepend(s, Outside(EnterCall), [Deliver(e)]);
  }

  lemma EntersSystem(s: Mm, e: Env, v: Mm)
    requires s.sys.SysNormal?
    requires var m := UpdateRoute(s.router, s.call, e, Changed);
             v == Post(Put(s.(playReady := true, sys := Entering), m), SysEntered)
    ensures Handle(s, e, EnterCall) == v
  {
    hide OnCallState, UpdateRoute, PreferSpeaker, LeaveCall, OnAudioAlloc, OnAudioReset, OnSysEntered, OnSysLeft, Put;
  }

  /** The route may move before the system says that the call was entered. */
  lemma ChangedThenEntered(s: Mm, v: Mm, f: Env, g: Env)
    requires s.call.Talking() && v.sys.Entering? && v.running && v.queue == [DeviceChanged] + [SysEntered]
    requires v.call == s.call && v.hold == s.hold && v.aio == s.aio && v.trace == s.trace
    requires v.allocPending == s.allocPending && (g.activated || v.audioStarted)
    ensures var run := [Deliver(f)] + [Deliver(g)]; IsRun(v, run) && Reentered(s, After(v, run))
  {
    hide UpdateRoute, Put, Handle, Reentered, Next, Enabled;
    var t := v.(queue := [SysEntered]);
    var w := Put(t, UpdateRoute(t.router, t.call, f, Changed));
    PutFrame(t, UpdateRoute(t.router, t.call, f, Changed));
    assert v.queue[1..] == [SysEntered];
    Delivers(v, f);
    ChangesRoute(t, f);
    EnteredAgain(s, w, g);
    RunOne(w, Deliver(g));
    Prepend(v, Deliver(f), [Deliver(g)]);
  }

  lemma EnteredAgain(s: Mm, v: Mm, g: Env)
    requires s.call.Talking() && v.sys.Entering? && v.running
    requires v.queue == [SysEntered] || v.queue == [SysEntered] + [DeviceChanged]
    requires v.call == s.call && v.hold == s.hold && v.aio == s.aio && v.trace == s.trace
    requires v.allocPending == s.allocPending && (g.activated || v.audioStarted)
    ensures Enabled(v, Deliver(g)) && Reentered(s, Next(v, Deliver(g)))
  {
    hide Handle, IncallAction, Reentered, Next, Enabled;
    var t := v.(queue := v.queue[1..]);
    assert t.queue == [] || t.queue == [DeviceChanged];
    Delivers(v, g);
    EnteredSystem(t, g);
    StartsAudio(s, t.(sys := SysInCall), g);
  }

  lemma ChangesRoute(s: Mm, e: Env)
    ensures Handle(s, e, DeviceChanged) == Put(s, UpdateRoute(s.router, s.call, e, Changed))
  {
    hide OnCallState, UpdateRoute, PreferSpeaker, StartCall, LeaveCall, OnAudioAlloc, OnAudioReset, OnSysEntered,
      OnSysLeft, Put;
  }

  lemma EnteredSystem(s: Mm, e: Env)
    requires s.sys.Entering? && s.call.Talking()
    ensures Handle(s, e, SysEntered) == IncallAction(s.(sys := SysInCall), e)
  {
    hide OnCallState, UpdateRoute, PreferSpeaker, StartCall, LeaveCall, OnAudioAlloc, OnAudioReset, OnSysLeft, Put,
      IncallAction;
  }

  lemma StartsAudio(s: Mm, t: Mm, e: Env)
    requires t.queue == [] || t.queue == [DeviceChanged]
    requires t.call == s.call && t.hold == s.hold && t.aio == s.aio && t.trace == s.trace && t.running
    requires t.sys.SysInCall? && t.allocPending == s.allocPending && (e.activated || t.audioStarted)
    ensures Reentered(s, IncallAction(t, e))
  {
    hide SetVideoRoute, Put, PostAlloc, Reentered;
    var m := SetVideoRoute(t.router, e);
    PutFrame(t, m);
    Announces(s, if t.call.InVideoCall? then Put(t, m) else t);
  }

  lemma Announces(s: Mm, t: Mm)
    requires forall m :: m in t.queue ==> m == DeviceChanged
    requires t.call == s.call && t.hold == s.hold && t.aio == s.aio && t.trace == s.trace && t.running
    requires t.sys.SysInCall? && t.allocPending == s.allocPending
    ensures Reentered(s, PostAlloc(t.(playReady := false)))
  {
  }

  /** In a call, the device held, nothing queued, the route where it should be. */
  predicate Calm(s: Mm) {
    && s.call.InCall? && s.sys.SysInCall? && s.aio && s.queue == [] && s.running
    && s.router == Router(false, false, false, Earpiece, Earpiece, false)
  }

  /** There the route stays as it is, so an AudioAlloc is all that can be queued. */
  lemma CalmReentry(s: Mm, e: Env)
    requires Calm(s) && e.activated
    ensures IsRun(s, Reentry(s, e, e, e))
    ensures After(s, Reentry(s, e, e, e)) ==
            s.(playReady := false, allocPending := true, queue := if s.allocPending then [] else [AudioAlloc])
  {
    var go := Deliver(e);
    var s3 := s.(sys := SysNormal);
    var s5 := s.(playReady := true, sys := Entering, queue := [SysEntered]);
    var s6 := s.(playReady := false, allocPending := true, queue := if s.allocPending then [] else [AudioAlloc]);
    assert s.(sys := SysNormal, router := s.router.(btTimer := false)) == s3;
    hide Handle, Rerouted, Next, Enabled, IsRun, After;
    CalmStays(s, e);
    Leaves(s, e);
    Posts(s3, EnterCall, s3.(queue := [EnterCall]));
    EnterStep(s3.(queue := [EnterCall]), s5, e);
    IncallStep(s5, s6, e);
    Three(s3, Outside(EnterCall), s3.(queue := [EnterCall]), go, s5, go, s6);
    RunJoin(s, [Outside(ExitCall), go, go], [Outside(EnterCall), go, go]);
    assert [Outside(ExitCall), go, go] + [Outside(EnterCall), go, go] == Reentry(s, e, e, e);
  }

  lemma CalmStays(s: Mm, e: Env)
    requires Calm(s)
    ensures !Rerouted(s, e).posted
  {
  }

  lemma Three(s: Mm, a: Step, t: Mm, b: Step, u: Mm, c: Step, v: Mm)
    requires Enabled(s, a) && Next(s, a) == t && Enabled(t, b) && Next(t, b) == u && Enabled(u, c) && Next(u, c) == v
    ensures IsRun(s, [a, b, c]) && After(s, [a, b, c]) == v
  {
    hide Next, Enabled;
    assert [a, b, c][1..] == [b, c] && [b, c][1..] == [c] && [c][1..] == [];
    RunNothing(v);
    assert IsRun(u, [c]) && After(u, [c]) == v;
    assert IsRun(t, [b, c]) && After(t, [b, c]) == v;
  }

  lemma EnterStep(s: Mm, t: Mm, e: Env)
    requires s.queue == [EnterCall] && s.sys.SysNormal? && s.running
    requires s.router == Router(false, false, false, Earpiece, Earpiece, false)
    requires t == s.(playReady := true, sys := Entering, queue := [SysEntered])
    ensures Enabled(s, Deliver(e)) && Next(s, Deliver(e)) == t
  {
  }

  lemma IncallStep(s: Mm, t: Mm, e: Env)
    requires s.queue == [SysEntered] && s.sys.Entering? && s.call.InCall? && s.running && e.activated
    requires t == s.(playReady := false, sys := SysInCall, allocPending := true,
                     queue := if s.allocPending then [] else [AudioAlloc])
    ensures Enabled(s, Deliver(e)) && Next(s, Deliver(e)) == t
  {
  }

  lemma {:induction false} RunJoin(s: Mm, run: seq<Step>, more: seq<Step>)
    requires IsRun(s, run) && IsRun(After(s, run), more)
    ensures IsRun(s, run + more) && After(s, run + more) == After(After(s, run), more)
    decreases |run|
  {
    hide Next, Enabled;
    if run == [] {
      assert [] + more == more;
    } else {
      RunJoin(Next(s, run[0]), run[1..], more);
      assert run + more == [run[0]] + (run[1..] + more);
      Prepend(s, run[0], run[1..] + more);
    }
  }

  /** The first call: the device is allocated and the clients are told. */
  lemma FirstCall(e: Env) returns (run: seq<Step>)
    requires e.activated && e.allocOk
    ensures IsRun(Init(Earpiece), run)
    ensures var s := After(Init(Earpiece), run); Calm(s) && !s.allocPending
  {
    var go, talk := Deliver(e), Outside(CallState(InCall));
    var s0 := Init(Earpiece);
    var s1 := s0.(queue := [], router := s0.router.(cur := Earpiece));
    var s2 := s1.(queue := [CallState(InCall)]);
    var s3 := s1.(call := InCall, playReady := true, sys := Entering, queue := [SysEntered]);
    var s4 := s3.(playReady := false, sys := SysInCall, allocPending := true, queue := [AudioAlloc]);
    var s5 := Fire(s4.(aio := true, queue := [])).(allocPending := false);
    assert Next(s0, go) == s1 && Next(s1, talk) == s2;
    TalkStep(s2, s3, e);
    IncallStep(s3, s4, e);
    assert Next(s4, go) == s5;
    hide Handle;
    Three(s2, go, s3, go, s4, go, s5);
    run := [go, go, go];
    Prepend(s1, talk, run);
    run := [talk] + run;
    Prepend(s0, go, run);
    run := [go] + run;
  }

  lemma TalkStep(s: Mm, t: Mm, e: Env)
    requires s.queue == [CallState(InCall)] && s.call.Normal? && s.sys.SysNormal? && s.running
    requires s.router == Router(false, false, false, Earpiece, Earpiece, false)
    requires t == s.(call := InCall, playReady := true, sys := Entering, queue := [SysEntered])
    ensures Next(s, Deliver(e)) == t
  {
  }

  /** A real run in which the call is entered a third time and nobody is told: the second
      entry allocates the device again while it is held and so leaves the flag behind, and
      the third ends in the same calm state with the same notifications as before. */
  lemma SilentReentry(e: Env) returns (run: seq<Step>)
    requires e.activated && e.allocOk
    ensures IsRun(Init(Earpiece), run)
    ensures var s := After(Init(Earpiece), run); var cycle := Reentry(s, e, e, e);
            && Calm(s) && IsRun(s, cycle)
            && Calm(After(s, cycle)) && After(s, cycle).trace == s.trace
  {
    hide Handle, Next, IsRun, After, Reentry;
    var s0 := Init(Earpiece);
    run := FirstCall(e);
    var s := After(s0, run);
    CalmReentry(s, e);
    RunJoin(s0, run, Reentry(s, e, e, e));
    run := run + Reentry(s, e, e, e);
    var u := After(s0, run);
    AllocAgain(u, e);
    RunThen(s0, run, Deliver(e));
    run := run + [Deliver(e)];
    CalmReentry(After(s0, run), e);
  }

  lemma AllocAgain(s: Mm, e: Env)
    requires Calm(s.(queue := [])) && s.queue == [AudioAlloc]
    ensures Enabled(s, Deliver(e)) && Next(s, Deliver(e)) == Fire(s.(queue := []))
  {
  }

  // ---- Hold and resume -------------------------------------------------------------------

  /** The messages handlers and the platform post by themselves. */
  predicate FollowUp(m: Msg) { m.SysEntered? || m.SysLeft? || m.DeviceChanged? || m.AudioAlloc? }

  predicate AllFollowUps(q: seq<Msg>) { forall i :: 0 <= i < |q| ==> FollowUp(q[i]) }

  /** Steps that bring no new request from outside. */
  predicate Quiet(run: seq<Step>) {
    forall i :: 0 <= i < |run| ==> !run[i].Outside? && !run[i].RequestReset?
  }

  /** The call is back in `c`, or on its way with the message that brings it back queued. */
  predicate Resuming(s: Mm, c: Call) {
    && AllFollowUps(s.queue)
    && (s.call == c || (s.call.Resume? && s.hold == c && s.sys.Entering? && SysEntered in s.queue))
  }

  /** A resume made before the system state is known stays a resume. */
  predicate Stuck(s: Mm) {
    AllFollowUps(s.queue) && s.call.Resume? && (s.sys.SysUnknown? || s.sys.SysNormal?)
  }

  /** On hold, to come back to `c`. */
  predicate Held(s: Mm, c: Call, known: bool) {
    AllFollowUps(s.queue) && s.call.Hold? && s.hold == c && (known ==> !s.sys.SysUnknown?)
  }

  lemma PutFollows(s: Mm, m: Moved)
    requires AllFollowUps(s.queue)
    ensures AllFollowUps(Put(s, m).queue)
  {
  }

  lemma IncallActionFollows(s: Mm, e: Env)
    requires AllFollowUps(s.queue)
    ensures AllFollowUps(IncallAction(s, e).queue) && IncallAction(s, e).call == s.call
  {
    hide SetVideoRoute, Put, AllFollowUps;
    var m := SetVideoRoute(s.router, e);
    PutFrame(s, m);
    PutFollows(s, m);
    var t := (if s.call.InVideoCall? then Put(s, m) else s).(playReady := false);
    PostFollows(t.(allocPending := true), AudioAlloc);
  }

  lemma StartCallFollows(s: Mm, e: Env)
    requires AllFollowUps(s.queue)
    ensures var t := StartCall(s, e);
            AllFollowUps(t.queue) && t.call == s.call && t.hold == s.hold &&
            (!s.sys.SysUnknown? && !s.sys.SysInCall? ==> t.sys.Entering? && SysEntered in t.queue) &&
            (s.sys.SysUnknown? ==> t.sys.SysUnknown?)
  {
    hide UpdateRoute;
    if !s.sys.SysUnknown? {
      var t := s.(playReady := true);
      var u := if s.sys.SysInCall? then t else t.(sys := Entering);
      PutFollows(u, UpdateRoute(u.router, u.call, e, Changed));
    }
  }

  lemma PostFollows(s: Mm, m: Msg)
    requires AllFollowUps(s.queue) && FollowUp(m)
    ensures AllFollowUps(Post(s, m).queue)
  {
  }

  lemma TailFollows(q: seq<Msg>)
    requires AllFollowUps(q) && q != []
    ensures FollowUp(q[0]) && AllFollowUps(q[1..])
    ensures SysEntered in q && q[0] != SysEntered ==> SysEntered in q[1..]
  {
    assert q == [q[0]] + q[1..];
  }

  lemma EnteredResumes(s: Mm, e: Env, c: Call)
    requires c.Talking() && AllFollowUps(s.queue)
    requires s.call == c || (s.call.Resume? && s.hold == c && s.sys.Entering?)
    ensures Resuming(OnSysEntered(s, e), c)
  {
    hide IncallAction, AllFollowUps;
    var t := s.(sys := SysInCall);
    IncallActionFollows(s, e);
    IncallActionFollows(t, e);
    PostFollows(t.(allocPending := true), AudioAlloc);
  }

  lemma ResumingHandles(s: Mm, e: Env, m: Msg, c: Call)
    requires c.Talking() && FollowUp(m) && AllFollowUps(s.queue)
    requires s.call == c || (s.call.Resume? && s.hold == c && s.sys.Entering?)
    requires s.call == c || m.SysEntered? || SysEntered in s.queue
    ensures Resuming(Handle(s, e, m), c)
  {
    hide OnSysEntered, UpdateRoute, AllFollowUps, Put;
    match m
    case SysEntered => EnteredResumes(s, e, c);
    case SysLeft =>
    case DeviceChanged =>
      PutFollows(s, UpdateRoute(s.router, s.call, e, Changed));
      PutFrame(s, UpdateRoute(s.router, s.call, e, Changed));
    case AudioAlloc =>
  }

  lemma WaitingEnters(s: Mm, e: Env)
    requires s.call.Hold? || (s.call.Resume? && !s.sys.Entering?)
    ensures OnSysEntered(s, e) == if s.sys.Entering? then s.(sys := SysInCall) else s
  {
    hide IncallAction, LeaveCall, PreferSpeaker, Put;
  }

  lemma WaitingLeaves(s: Mm, e: Env)
    requires !s.call.Normal?
    ensures OnSysLeft(s, e) == if s.sys.Entering? then s else s.(sys := SysNormal)
  {
    hide UpdateRoute, Put;
  }

  lemma AllocFrame(s: Mm, e: Env)
    ensures var t := OnAudioAlloc(s, e);
            t.queue == s.queue && t.call == s.call && t.hold == s.hold && t.sys == s.sys
  {
    if s.aio {
      FireFrame(s);
    } else {
      FireFrame(s.(aio := true));
      FireErrorFrame(s);
      hide Fire, FireError;
    }
  }

  lemma FireFrame(s: Mm)
    ensures Fire(s).queue == s.queue && Fire(s).call == s.call && Fire(s).hold == s.hold && Fire(s).sys == s.sys
  {
  }

  lemma FireErrorFrame(s: Mm)
    ensures var t := FireError(s); t.queue == s.queue && t.call == s.call && t.hold == s.hold && t.sys == s.sys
  {
  }

  lemma StuckHandles(s: Mm, e: Env, m: Msg)
    requires FollowUp(m) && Stuck(s)
    ensures Stuck(Handle(s, e, m))
  {
    hide UpdateRoute, Put, AllFollowUps, OnCallState, PreferSpeaker, StartCall, LeaveCall, OnAudioReset, OnAudioAlloc,
      OnSysEntered, OnSysLeft;
    match m
    case SysEntered => WaitingEnters(s, e);
    case SysLeft => WaitingLeaves(s, e);
    case DeviceChanged =>
      PutFollows(s, UpdateRoute(s.router, s.call, e, Changed));
      PutFrame(s, UpdateRoute(s.router, s.call, e, Changed));
    case AudioAlloc => AllocFrame(s, e);
  }

  lemma HeldHandles(s: Mm, e: Env, m: Msg, c: Call, known: bool)
    requires FollowUp(m) && Held(s, c, known)
    ensures Held(Handle(s, e, m), c, known)
  {
    hide UpdateRoute, Put, AllFollowUps, OnCallState, PreferSpeaker, StartCall, LeaveCall, OnAudioReset, OnAudioAlloc,
      OnSysEntered, OnSysLeft;
    match m
    case SysEntered => WaitingEnters(s, e);
    case SysLeft => WaitingLeaves(s, e);
    case DeviceChanged =>
      PutFollows(s, UpdateRoute(s.router, s.call, e, Changed));
      PutFrame(s, UpdateRoute(s.router, s.call, e, Changed));
    case AudioAlloc => AllocFrame(s, e);
  }

  /** What every quiet step keeps. */
  predicate OnTheWay(s: Mm, t: Mm, c: Call) {
    && (Resuming(s, c) ==> Resuming(t, c)) && (Stuck(s) ==> Stuck(t))
    && forall known :: Held(s, c, known) ==> Held(t, c, known)
  }

  lemma ResumingDelivers(s: Mm, e: Env, c: Call)
    requires c.Talking() && s.running && s.queue != []
    ensures OnTheWay(s, Next(s, Deliver(e)), c)
  {
    hide Handle, AllFollowUps, FollowUp;
    if AllFollowUps(s.queue) {
      TailFollows(s.queue);
      var t := s.(queue := s.queue[1..]);
      if Resuming(s, c) { ResumingHandles(t, e, s.queue[0], c); }
      if Stuck(s) { StuckHandles(t, e, s.queue[0]); }
      forall known | Held(s, c, known) ensures Held(Next(s, Deliver(e)), c, known) {
        HeldHandles(t, e, s.queue[0], c, known);
      }
    }
  }

  lemma ResumingMoves(s: Mm, m: Moved, c: Call)
    ensures OnTheWay(s, Put(s, m), c)
  {
    hide AllFollowUps, Put;
    PutFrame(s, m);
    if AllFollowUps(s.queue) { PutFollows(s, m); }
  }

  lemma ResumingSame(s: Mm, t: Mm, c: Call)
    requires t.queue == s.queue && t.call == s.call && t.hold == s.hold && t.sys == s.sys
    ensures OnTheWay(s, t, c)
  {
  }

  lemma ResumingStep(s: Mm, a: Step, c: Call)
    requires c.Talking() && Enabled(s, a) && !a.Outside? && !a.RequestReset?
    ensures OnTheWay(s, Next(s, a), c)
  {
    hide Handle, OnTheWay, Put;
    match a
    case Deliver(e) => ResumingDelivers(s, e, c);
    case BtFires(ok, after) => ResumingMoves(s, Moved(s.router.(btTimer := false, route := after), ok), c);
    case Drift(_) => ResumingSame(s, Next(s, a), c);
    case AudioStart => ResumingSame(s, Next(s, a), c);
    case Override(_) => ResumingSame(s, Next(s, a), c);
    case _ =>
  }

  lemma {:induction false} ResumingRun(s: Mm, run: seq<Step>, c: Call)
    requires c.Talking() && IsRun(s, run) && Quiet(run)
    ensures OnTheWay(s, After(s, run), c)
    decreases |run|
  {
    hide Resuming, Stuck, Held, Next, Enabled;
    if run != [] {
      ResumingStep(s, run[0], c);
      ResumingRun(Next(s, run[0]), run[1..], c);
    }
  }

  /** The call on hold after the pause, and then resumed. */
  function Resumed(s: Mm, e: Env, pause: seq<Step>, f: Env): Mm
    requires IsRun(OnCallState(s, e, Hold), pause)
  {
    OnCallState(After(OnCallState(s, e, Hold), pause), f, Resume)
  }

  /** Hold, any pause, then resume, with only follow-up messages around: once the queue is
      drained, in any interleaving with the timer and the hardware, the call is back in the
      state it was held in if and only if the system state was known when it was resumed;
      one that is known when the call is held stays known. */
  lemma HoldThenResume(s: Mm, e: Env, pause: seq<Step>, f: Env, run: seq<Step>)
    requires s.call.Talking() && AllFollowUps(s.queue) && Quiet(pause) && Quiet(run)
    requires IsRun(OnCallState(s, e, Hold), pause) && IsRun(Resumed(s, e, pause, f), run)
    requires After(Resumed(s, e, pause, f), run).queue == []
    ensures After(Resumed(s, e, pause, f), run).call == s.call
            <==> !After(OnCallState(s, e, Hold), pause).sys.SysUnknown?
    ensures !s.sys.SysUnknown? ==> !After(OnCallState(s, e, Hold), pause).sys.SysUnknown?
  {
    var held := OnCallState(s, e, Hold);
    assert Held(held, s.call, false) && (!s.sys.SysUnknown? ==> Held(held, s.call, true));
    ResumingRun(held, pause, s.call);
    var p := After(held, pause);
    assert Held(p, s.call, false) && (!s.sys.SysUnknown? ==> Held(p, s.call, true));
    hide IsRun, After, Quiet;
    ResumesOrSticks(p, f, s.call);
    ResumingRun(OnCallState(p, f, Resume), run, s.call);
  }

  lemma ResumesOrSticks(s: Mm, f: Env, c: Call)
    requires c.Talking() && Held(s, c, false)
    ensures !s.sys.SysUnknown? ==> Resuming(OnCallState(s, f, Resume), c)
    ensures s.sys.SysUnknown? ==> Stuck(OnCallState(s, f, Resume))
  {
    hide StartCall, AllFollowUps;
    StartCallFollows(s.(call := Resume), f);
  }

  // ---- Settling the route ----------------------------------------------------------------

  predicate OnlyChanges(q: seq<Msg>) { forall i :: 0 <= i < |q| ==> q[i] == DeviceChanged }

  /** A running manager whose queue holds nothing but DeviceChanged, on a real route. */
  predicate Routing(s: Mm) { s.running && OnlyChanges(s.queue) && !s.router.route.NoRoute? }

  predicate RealRoutes(e: Env) {
    !e.afterSpeaker.NoRoute? && !e.afterEarpiece.NoRoute? && !e.afterHeadset.NoRoute?
  }

  function Rank(s: Mm): nat { 2 * |s.queue| + if s.router.Unsettled() then 1 else 0 }

  /** One DeviceChanged message: what it does to the router and to the queue. */
  lemma ChangeStep(s: Mm, e: Env)
    requires Routing(s) && RealRoutes(e) && s.queue != []
    ensures var m := UpdateRoute(s.router, s.call, e, Changed); var t := Next(s, Deliver(e));
            Routing(t) && t.router == m.r && |t.queue| == |s.queue| - (if m.posted then 0 else 1)
            && t.router.prefer == s.router.prefer
  {
    hide UpdateRoute;
    assert s.queue[0] == DeviceChanged;
    assert UpdateRoute(s.router, s.call, e, Changed).r.prefer == s.router.prefer
           && !UpdateRoute(s.router, s.call, e, Changed).r.route.NoRoute? by { ChangeFlags(s.router, s.call, e); }
  }

  lemma ChangeFlags(r: Router, call: Call, e: Env)
    requires !r.route.NoRoute? && RealRoutes(e)
    ensures var m := UpdateRoute(r, call, e, Changed);
            && m.r.prefer == r.prefer && !m.r.route.NoRoute?
            && (m.posted ==> r.Unsettled())
            && (m.posted && m.r.Unsettled() ==> r.prefer && e.afterSpeaker.Earpiece?)
            && (!r.Unsettled() && m.r.Unsettled() ==> r.route.Speaker? && r.prefer && e.afterSpeaker.Earpiece?)
  {
  }

  /** With a speaker that can be switched on, handling DeviceChanged messages ends,
      whatever else the router does at each of them, after at most one more message
      than were queued. */
  ghost function Settle(s: Mm, env: nat -> Env, k: nat): (r: (Mm, nat))
    requires Routing(s) && forall j :: RealRoutes(env(j)) && !env(j).afterSpeaker.Earpiece?
    ensures Routing(r.0) && r.0.queue == [] && r.0.router.prefer == s.router.prefer
    ensures k + |s.queue| <= r.1 <= k + |s.queue| + 1
    ensures !s.router.Unsettled() ==> !r.0.router.Unsettled() && r.1 == k + |s.queue|
    decreases Rank(s)
  {
    if s.queue == [] then (s, k)
    else
      ChangeStep(s, env(k));
      ChangeFlags(s.router, s.call, env(k));
      Settle(Next(s, Deliver(env(k))), env, k + 1)
  }

  /** If the earpiece can be switched on too, the route ends where the preference wants it. */
  lemma SettleSatisfies(s: Mm, env: nat -> Env, k: nat)
    requires Routing(s) && forall j :: RealRoutes(env(j)) && !env(j).afterSpeaker.Earpiece?
    requires s.queue != [] && env(k).earpieceOk && !env(k).afterEarpiece.Speaker?
    ensures !Settle(s, env, k).0.router.Unsettled()
  {
    hide Settle;
    ChangeStep(s, env(k));
    assert Settle(s, env, k) == Settle(Next(s, Deliver(env(k))), env, k + 1) by { SettleUnfold(s, env, k); }
  }

  lemma SettleUnfold(s: Mm, env: nat -> Env, k: nat)
    requires Routing(s) && forall j :: RealRoutes(env(j)) && !env(j).afterSpeaker.Earpiece?
    requires s.queue != []
    ensures Routing(Next(s, Deliver(env(k))))
    ensures Settle(s, env, k) == Settle(Next(s, Deliver(env(k))), env, k + 1)
  {
    ChangeStep(s, env(k));
  }

  /** The state after at most `n` messages, the router answering the same way each time. */
  function Deliveries(s: Mm, e: Env, n: nat): Mm
    decreases n
  {
    if n == 0 || s.queue == [] || !s.running then s else Deliveries(Next(s, Deliver(e)), e, n - 1)
  }

  /** The messages go round for ever: the speaker is preferred, switching it on leaves the
      earpiece on, and a message finds the earpiece on. */
  predicate GoesRound(s: Mm, e: Env) {
    && s.router.prefer && e.afterSpeaker.Earpiece?
    && ((s.router.route.Earpiece? && |s.queue| >= 1) || (s.router.route.Speaker? && |s.queue| >= 2))
  }

  lemma {:induction false} GoesRoundForEver(s: Mm, e: Env, n: nat)
    requires Routing(s) && RealRoutes(e) && GoesRound(s, e)
    ensures Deliveries(s, e, n).queue != []
    decreases n
  {
    if n != 0 {
      ChangeStep(s, e);
      GoesRoundForEver(Next(s, Deliver(e)), e, n - 1);
    }
  }

  lemma {:induction false} SettlesWithin(s: Mm, e: Env, n: nat)
    requires Routing(s) && RealRoutes(e) && !GoesRound(s, e) && n >= Rank(s)
    ensures Deliveries(s, e, n).queue == []
    decreases Rank(s)
  {
    if s.queue != [] {
      ChangeStep(s, e);
      ChangeFlags(s.router, s.call, e);
      SettlesWithin(Next(s, Deliver(e)), e, n - 1);
    }
  }

  /** A real state in which they go round: the speaker is asked for before the manager's
      first message, and the router answers every request with the earpiece. */
  lemma GoesRoundFromStart(e: Env)
    requires RealRoutes(e) && e.afterSpeaker.Earpiece?
    ensures var s := Next(Init(Earpiece), Override(true));
            Routing(s) && GoesRound(s, e) && forall n: nat :: Deliveries(s, e, n).queue != []
  {
    var s := Next(Init(Earpiece), Override(true));
    forall n: nat ensures Deliveries(s, e, n).queue != [] { GoesRoundForEver(s, e, n); }
  }

  /** Exactly when the queue of DeviceChanged messages ever empties. */
  lemma SettlesIff(s: Mm, e: Env)
    requires Routing(s) && RealRoutes(e)
    ensures (exists n: nat :: Deliveries(s, e, n).queue == []) <==> !GoesRound(s, e)
  {
    if GoesRound(s, e) {
      forall n: nat ensures Deliveries(s, e, n).queue != [] { GoesRoundForEver(s, e, n); }
    } else {
      SettlesWithin(s, e, Rank(s));
    }
  }
}
