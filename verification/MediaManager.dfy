/** The media manager as the program runs it: one object whose handlers update its fields,
    each handler proved to make the transition the state machine prescribes. */
module MediaManager {
  import opened MediaManagerSpec

  lemma PutOver(s: Mm, r: Router, m: Moved)
    ensures Put(s.(router := r), m) == Put(s, m)
  {
  }

  lemma PutNothing(s: Mm, r: Router)
    ensures Put(s, Moved(r, false)) == s.(router := r)
  {
  }

  lemma QueueEmpty(s: Mm)
    requires Inv(s) && s.queue == []
    ensures !s.sys.Entering? && !s.sys.Exiting?
  {
  }

  class Manager {
    var callState: Call
    var holdState: Call
    var sysState: Sys
    var audioStarted: bool
    var shouldReset: bool
    var allocPending: bool
    var playReady: bool
    var router: Router
    var aio: bool
    var running: bool
    var mq: seq<Msg>
    ghost var fired: seq<Note>

    ghost function View(): Mm
      reads this
    {
      Mm(callState, holdState, sysState, audioStarted, shouldReset, allocPending, playReady,
         router, aio, running, mq, fired)
    }

    constructor (initial: Route)
      ensures View() == Init(initial) && Inv(View())
    {
      callState, holdState, sysState := Normal, Normal, SysNormal;
      audioStarted, shouldReset, allocPending, playReady := false, false, false, false;
      router := Router(false, false, false, NoRoute, initial, false);
      aio, running := false, true;
      mq, fired := [DeviceChanged], [];
    }

    method Push(m: Msg)
      modifies `mq
      ensures mq == old(mq) + [m]
    {
      mq := mq + [m];
    }

    method PostAudioAlloc()
      modifies this
      ensures View() == PostAlloc(old(View()))
    {
      if allocPending { return; }
      allocPending := true;
      Push(AudioAlloc);
    }

    method FireCallback(state: Call)
      modifies `fired
      ensures fired == old(fired) + [Note(if state == Normal then callState else state, aio)]
    {
      fired := fired + [Note(if state == Normal then callState else state, aio)];
    }

    // ---- Platform --------------------------------------------------------------------------

    method PlatformSpeaker(e: Env, notify: bool)
      modifies `router, `mq
      ensures View() == Put(old(View()), SpeakerOn(old(router), e, notify))
    {
      router := router.(route := e.afterSpeaker);
      if notify { Push(DeviceChanged); }
    }

    method PlatformHeadset(e: Env)
      modifies `router, `mq
      ensures View() == Put(old(View()), Satisfy(old(router), e, Headset))
    {
      router := router.(route := e.afterHeadset);
      Push(DeviceChanged);
    }

    method PlatformEarpiece(e: Env)
      modifies `router, `mq
      ensures View() == Put(old(View()), EarpieceOn(old(router), e))
    {
      var before := router.route;
      router := router.(route := e.afterEarpiece);
      if e.earpieceOk && router.route != before {
        Push(DeviceChanged);
      } else {
        PlatformSpeaker(e, false);
      }
    }

    method SatisfyRoute(e: Env, wanted: Route)
      modifies `router, `mq
      ensures View() == Put(old(View()), Satisfy(old(router), e, wanted))
    {
      match wanted
      case Headset => PlatformHeadset(e);
      case Earpiece => PlatformEarpiece(e);
      case Speaker => PlatformSpeaker(e, true);
      case Bt => router := router.(btTimer := true);
      case NoRoute =>
    }

    method WantedRoute() returns (wanted: Route)
      ensures wanted == Wanted(router)
    {
      wanted := Earpiece;
      if router.prefer {
        wanted := Speaker;
      } else if router.wired {
        wanted := Headset;
      } else if router.bt {
        wanted := Bt;
      }
    }

    method EnableSpeaker(e: Env, enable: bool)
      modifies `router, `mq
      ensures View() == Put(old(View()), PreferSpeaker(old(router), e, enable))
    {
      var cur := router.route;
      router := router.(prefer := enable);
      var wanted := WantedRoute();
      if wanted != cur { SatisfyRoute(e, wanted); }
    }

    method ApplyEvent(event: Event) returns (wanted: Route)
      modifies `router
      ensures (router, wanted) == Flags(old(router), callState, event)
    {
      wanted := NoRoute;
      match event
      case HeadsetPlugged =>
        router, wanted := router.(wired := true, prefer := false), Headset;
      case HeadsetUnplugged =>
        router := router.(wired := false);
        if router.bt && router.route != Speaker { wanted := Bt; }
        if callState == InVideoCall { router := router.(prefer := true); }
      case BtOn =>
        router := router.(bt := true);
        if callState == InCall || callState == InVideoCall { wanted := Bt; }
        router := router.(prefer := false);
      case BtOff =>
        router := router.(bt := false);
        if router.wired && router.route != Speaker { wanted := Headset; }
        if callState == InVideoCall { router := router.(prefer := true); }
      case Changed =>
        if router.route == Speaker && !router.prefer {
          wanted := Earpiece;
        } else if router.route == Earpiece && router.prefer {
          wanted := Speaker;
        } else {
          wanted := router.route;
        }
    }

    method ReachRoute(e: Env, cur: Route, wanted: Route)
      modifies `router, `mq
      ensures View() == Put(old(View()), Reach(old(router), e, cur, wanted))
    {
      hide Satisfy;
      if cur != wanted {
        SatisfyRoute(e, wanted);
      } else if cur == Speaker {
        PlatformSpeaker(e, false);
      }
    }

    method ChooseRoute(event: Event) returns (wanted: Route)
      modifies `router
      ensures View() == old(View()).(router := router)
      ensures var (u, asked) := Flags(old(router), callState, event);
              && router == u.(cur := old(router).route)
              && wanted == if asked.NoRoute? then Wanted(router) else asked
    {
      hide Flags, Wanted;
      var cur := router.route;
      wanted := ApplyEvent(event);
      router := router.(cur := cur);
      if wanted == NoRoute { wanted := WantedRoute(); }
    }

    method UpdateRouteOn(e: Env, event: Event)
      modifies `router, `mq
      ensures View() == Put(old(View()), UpdateRoute(old(router), callState, e, event))
    {
      hide Flags, Reach, Wanted, Put, Manager.View;
      ghost var s := View();
      var cur := router.route;
      var wanted := ChooseRoute(event);
      PutOver(s, router, Reach(router, e, cur, wanted));
      ReachRoute(e, cur, wanted);
    }

    method ForceSpeaker()
      modifies `router
      ensures router == old(router).(prefer := true) && View() == old(View()).(router := router)
    {
      router := router.(prefer := true);
    }

    method SetVideo(e: Env)
      modifies `router, `mq
      ensures View() == Put(old(View()), SetVideoRoute(old(router), e))
    {
      hide PreferSpeaker, Put, Manager.View;
      ghost var s := View();
      ForceSpeaker();
      PutOver(s, router, PreferSpeaker(router, e, true));
      PutNothing(s, router);
      match router.route
      case Headset =>
      case Bt =>
      case _ => EnableSpeaker(e, true);
    }

    // ---- Entering and leaving a call ---------------------------------------------------------

    method EnterIncomingCall(e: Env)
      modifies this
      ensures View() == EnterIncoming(old(View()), e)
    {
      if sysState == SysNormal {
        if router.route == Earpiece { PlatformSpeaker(e, false); }
        Push(SysIncomingMsg);
      }
    }

    method BeginCall(e: Env)
      modifies this
      ensures View() == StartCall(old(View()), e)
    {
      hide Reroute;
      playReady := true;
      if sysState == SysUnknown { return; }
      EnterSystem(e);
    }

    method EnterSystem(e: Env)
      requires sysState != SysUnknown
      modifies this
      ensures var s := old(View());
              View() == Post(Reroute(if s.sys.SysInCall? then s else s.(sys := Entering), e, Changed), SysEntered)
    {
      hide Reroute, Post, Manager.View;
      MarkEntering();
      RerouteOn(e, Changed);
      Send(SysEntered);
    }

    method MarkEntering()
      modifies this
      ensures var s := old(View()); View() == if s.sys.SysInCall? then s else s.(sys := Entering)
    {
      if sysState != SysInCall { sysState := Entering; }
    }

    method RerouteOn(e: Env, event: Event)
      modifies this
      ensures View() == Reroute(old(View()), e, event)
    {
      hide UpdateRoute, Put;
      UpdateRouteOn(e, event);
    }

    method Send(m: Msg)
      modifies this
      ensures View() == Post(old(View()), m)
    {
      Push(m);
    }

    method EndCall()
      modifies this
      ensures View() == LeaveCall(old(View()))
    {
      match sysState {
        case SysInCall => sysState := Exiting;
        case SysIncoming => sysState := Exiting;
        case Entering => sysState := Exiting;
        case _ => return;
      }
      router := router.(btTimer := false);
      Push(SysLeft);
    }

    method StartAudio(e: Env)
      modifies this
      ensures View() == IncallAction(old(View()), e)
    {
      hide SetVideoRoute, Put, PostAlloc;
      ghost var s := View();
      PutFrame(s, SetVideoRoute(router, e));
      if callState == InVideoCall { SetVideo(e); }
      ghost var t := View();
      assert t == if s.call.InVideoCall? then Put(s, SetVideoRoute(s.router, e)) else s;
      if e.activated || audioStarted {
        if playReady { playReady := false; }
        assert View() == t.(playReady := false);
        PostAudioAlloc();
      }
    }

    method EnterTalk(e: Env, held: bool)
      modifies this
      ensures View() == HandleIncall(old(View()), e, held)
    {
      hide StartCall, IncallAction;
      if callState == InVideoCall { router := router.(prefer := true); }
      if held {
        BeginCall(e);
        return;
      }
      match sysState
      case SysInCall => StartAudio(e);
      case Entering =>
      case _ => BeginCall(e);
    }

    // ---- Message handlers --------------------------------------------------------------------

    method BackFromHold()
      modifies this
      ensures var s := old(View()); View() == (if s.aio then Fire(s) else PostAlloc(s)).(call := s.hold)
    {
      if aio { FireCallback(Normal); } else { PostAudioAlloc(); }
      callState := holdState;
    }

    method HandleSysEntered(e: Env)
      modifies this
      ensures View() == OnSysEntered(old(View()), e)
    {
      hide IncallAction, PreferSpeaker, Put, LeaveCall, PostAlloc;
      if sysState == SysInCall && (callState == InCall || callState == InVideoCall) {
        if aio { FireCallback(Normal); } else { StartAudio(e); }
        return;
      }
      if sysState == SysInCall && callState != Resume { return; }
      if sysState != Entering { return; }
      sysState := SysInCall;
      match callState
      case OutVideo => if !router.bt && !router.wired { EnableSpeaker(e, true); }
      case InCall => StartAudio(e);
      case InVideoCall => StartAudio(e);
      case Resume => BackFromHold();
      case Normal => EndCall();
      case _ =>
    }

    method HandleSysLeft(e: Env)
      modifies this
      ensures View() == OnSysLeft(old(View()), e)
    {
      hide UpdateRoute, Put;
      if sysState != Entering {
        sysState := SysNormal;
        if callState == Normal {
          router := router.(prefer := false);
          UpdateRouteOn(e, Changed);
        }
      }
    }

    method HandleAudioAlloc(e: Env)
      modifies this
      ensures View() == OnAudioAlloc(old(View()), e)
    {
      if aio {
        FireCallback(Normal);
        return;
      }
      aio := e.allocOk;
      FireCallback(if e.allocOk then Normal else Error);
      allocPending := false;
    }

    method HandleAudioRelease()
      modifies this
      ensures View() == Release(old(View()))
    {
      if aio { aio := false; }
      allocPending := false;
    }

    method HandleAudioReset(e: Env)
      modifies this
      ensures View() == OnAudioReset(old(View()), e)
    {
      if aio {
        if !e.resetOk { FireCallback(Error); }
      } else {
        BeginCall(e);
      }
    }

    method ToNormal()
      modifies this
      ensures View() == OnNormal(old(View()))
    {
      callState := Normal;
      HandleAudioRelease();
      audioStarted := false;
      if sysState != SysNormal { EndCall(); }
      router := router.(prefer := false);
    }

    method ToOutgoing(e: Env, target: Call)
      requires target == OutAudio || target == OutVideo
      modifies this
      ensures View() == OnOutgoing(old(View()), e, target)
    {
      hide StartCall, PreferSpeaker, Put;
      if target == OutVideo { router := router.(prefer := true); }
      ghost var t := View();
      assert t == if target.OutVideo? then Prefer(old(View()), true) else old(View());
      match callState
      case Normal =>
        callState := target;
        BeginCall(e);
      case Resume =>
        holdState := target;
        BeginCall(e);
      case Hold =>
        if target == OutVideo && sysState == SysInCall && !router.bt && !router.wired {
          EnableSpeaker(e, true);
        }
      case _ =>
    }

    method ToIncoming(e: Env, target: Call)
      requires target == InAudio || target == InVideo
      modifies this
      ensures View() == OnIncoming(old(View()), e, target)
    {
      var enter := target == InVideo;
      if callState == Normal {
        callState, enter := target, true;
      } else if callState == Resume {
        holdState, enter := target, true;
      }
      if enter { EnterIncomingCall(e); }
    }

    /** From one talking state to the other. */
    method SwitchTalk(e: Env, before: Call)
      requires callState.Talking() && before.Talking() && before != callState
      modifies this
      ensures var s := old(View());
              View() == OnSameState(if s.call.InVideoCall? then Put(s, SetVideoRoute(s.router, e)) else s)
    {
      hide SetVideoRoute, Put;
      PutFrame(View(), SetVideoRoute(router, e));
      if before == InCall && callState == InVideoCall { SetVideo(e); }
      if aio { FireCallback(Normal); }
    }

    method ToTalk(e: Env, target: Call)
      requires target == InCall || target == InVideoCall
      requires target != callState
      modifies this
      ensures View() == OnTalk(old(View()), e, target)
    {
      hide HandleIncall, SetVideoRoute, Put, OnSameState;
      var before := callState;
      callState := target;
      if before == InCall || before == InVideoCall {
        SwitchTalk(e, before);
      } else {
        EnterTalk(e, before == Hold);
      }
    }

    method ToHold()
      modifies this
      ensures View() == OnHold(old(View()))
    {
      holdState, shouldReset, callState := callState, true, Hold;
      FireCallback(Normal);
    }

    method BackInCall()
      modifies this
      ensures var s := old(View()); View() == (if s.aio then Fire(s) else s).(call := s.hold)
    {
      if aio { FireCallback(Normal); }
      callState := holdState;
    }

    method ToResume(e: Env)
      modifies this
      ensures View() == OnResume(old(View()), e)
    {
      hide StartCall, Fire;
      if callState == Hold {
        callState := Resume;
        if holdState == InCall || holdState == InVideoCall {
          if sysState == SysInCall {
            BackInCall();
          } else {
            BeginCall(e);
          }
        }
      }
    }

    method HandleCallState(e: Env, target: Call)
      modifies this
      ensures View() == OnCallState(old(View()), e, target)
    {
      hide OnNormal, OnOutgoing, OnIncoming, OnTalk, OnHold, OnResume;
      if target == callState {
        if (target == InVideoCall || target == InCall) && aio { FireCallback(Normal); }
        return;
      }
      match target
      case Normal => ToNormal();
      case OutAudio => ToOutgoing(e, target);
      case OutVideo => ToOutgoing(e, target);
      case InAudio => ToIncoming(e, target);
      case InVideo => ToIncoming(e, target);
      case InCall => ToTalk(e, target);
      case InVideoCall => ToTalk(e, target);
      case Hold => ToHold();
      case Resume => ToResume(e);
      case _ =>
    }

    method Dispatch(e: Env, m: Msg)
      modifies this
      ensures View() == Handle(old(View()), e, m)
    {
      hide OnCallState, PreferSpeaker, UpdateRoute, StartCall, LeaveCall, OnAudioAlloc, OnAudioReset, OnSysEntered,
        OnSysLeft, Put;
      match m
      case Exit => running := false;
      case CallState(target) => HandleCallState(e, target);
      case EnableSpeaker(on) => EnableSpeaker(e, on);
      case HeadsetConnected(on) => UpdateRouteOn(e, if on then HeadsetPlugged else HeadsetUnplugged);
      case BtConnected(on) => UpdateRouteOn(e, if on then BtOn else BtOff);
      case DeviceChanged => UpdateRouteOn(e, Changed);
      case EnterCall => BeginCall(e);
      case ExitCall => EndCall();
      case AudioAlloc => HandleAudioAlloc(e);
      case AudioRelease => HandleAudioRelease();
      case AudioReset => HandleAudioReset(e);
      case SysIncomingMsg => sysState := SysIncoming;
      case SysEntered => HandleSysEntered(e);
      case SysLeft => HandleSysLeft(e);
      case Media =>
    }

    /** One step: the manager's thread takes a message from the queue, or another thread, the
        Bluetooth timer or the hardware moves in between. */
    method Perform(a: Step)
      requires Enabled(View(), a)
      modifies this
      ensures View() == Next(old(View()), a)
    {
      hide Handle, Put;
      match a
      case Deliver(e) =>
        var m := mq[0];
        mq := mq[1..];
        Dispatch(e, m);
      case Outside(m) => Push(m);
      case Drift(r) => router := router.(route := r);
      case BtFires(ok, after) => EnableBt(ok, after);
      case AudioStart => audioStarted := true;
      case Override(on) => router := router.(prefer := on);
      case RequestReset =>
        shouldReset := false;
        Push(AudioReset);
    }

    /** The delayed switch to Bluetooth. */
    method EnableBt(ok: bool, after: Route)
      modifies `router, `mq
      ensures View() == Put(old(View()), Moved(old(router).(btTimer := false, route := after), ok))
    {
      router := router.(btTimer := false, route := after);
      if ok { Push(DeviceChanged); }
    }

    /** The manager under any schedule of deliveries and of steps of others in between: the
        object goes through the run of the state machine, and keeps every invariant. */
    method Serve(schedule: seq<Step>)
      requires Inv(View()) && IsRun(View(), schedule)
      modifies this
      ensures View() == After(old(View()), schedule) && Inv(View())
      ensures mq == [] ==> sysState != Entering && sysState != Exiting
    {
      hide Next, Enabled, Inv, IsRun, After;
      ghost var start := View();
      RunKeeps(start, schedule);
      var k := 0;
      assert schedule[0..] == schedule;
      while k < |schedule|
        invariant 0 <= k <= |schedule|
        invariant IsRun(View(), schedule[k..]) && After(View(), schedule[k..]) == After(start, schedule)
      {
        RunHead(View(), schedule[k..]);
        assert schedule[k..][1..] == schedule[k + 1..];
        Perform(schedule[k]);
        k := k + 1;
      }
      assert schedule[k..] == [];
      RunNothing(View());
      if mq == [] { QueueEmpty(View()); }
    }
  }
}
