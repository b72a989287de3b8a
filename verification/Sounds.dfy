/** The sounds of the media manager: which may start while others play. The sounds live in
    a dictionary that is walked in an order of its own; whether a sound is playing is a
    property of its player, which may also stop by itself. */
module Sounds {

  type Name = string
  type Player = nat

  datatype Sound = Sound(mixing: bool, incall: bool, intensity: int, priority: int, player: Player)

  datatype Mode = Silent | Mixing | Exclusive

  datatype Board = Board(sounds: map<Name, Sound>, playing: set<Player>, threshold: int, talking: bool)
  {
    predicate Plays(n: Name) { n in sounds && sounds[n].player in playing }

    /** Any number of mixing sounds play, or a single sound does. */
    ghost predicate OneOrMixing() {
      forall m, n :: Plays(m) && Plays(n) && m != n ==> sounds[m].mixing && sounds[n].mixing
    }
  }

  // ---- The play mode -------------------------------------------------------------------

  /** What the mode is, whatever the order of the dictionary. */
  ghost predicate IsMode(b: Board, mode: Mode) {
    match mode
    case Exclusive => exists n :: b.Plays(n) && !b.sounds[n].mixing
    case Mixing => (exists n :: b.Plays(n)) && forall n :: b.Plays(n) ==> b.sounds[n].mixing
    case Silent => forall n :: !b.Plays(n)
  }

  /** The order in which a walk of the dictionary meets the names. */
  predicate IsOrder(b: Board, order: seq<Name>) {
    (forall n :: n in order ==> n in b.sounds) && (forall n :: n in b.sounds ==> n in order)
  }

  /** The walk of the dictionary, which stops at the first exclusive sound that plays. */
  function Walk(b: Board, order: seq<Name>, mode: Mode): Mode
    requires forall n :: n in order ==> n in b.sounds
  {
    if order == [] then mode
    else if !b.Plays(order[0]) then Walk(b, order[1..], mode)
    else if b.sounds[order[0]].mixing then Walk(b, order[1..], Mixing)
    else Exclusive
  }

  lemma {:induction false} WalkFinds(b: Board, order: seq<Name>, mode: Mode)
    requires (forall n :: n in order ==> n in b.sounds) && !mode.Exclusive?
    ensures var r := Walk(b, order, mode);
            && (r.Exclusive? <==> exists n :: n in order && b.Plays(n) && !b.sounds[n].mixing)
            && (r.Silent? <==> mode.Silent? && forall n :: n in order ==> !b.Plays(n))
  {
    if order != [] {
      var head := order[0];
      assert order == [head] + order[1..];
      WalkFinds(b, order[1..], if b.Plays(head) then Mixing else mode);
    }
  }

  lemma WalkIsMode(b: Board, order: seq<Name>)
    requires IsOrder(b, order)
    ensures IsMode(b, Walk(b, order, Silent))
  {
    WalkFinds(b, order, Silent);
    if Walk(b, order, Silent).Exclusive? {
      var n :| n in order && b.Plays(n) && !b.sounds[n].mixing;
    } else if Walk(b, order, Silent).Mixing? {
      var n :| n in order && b.Plays(n);
    }
  }

  /** Every order of the dictionary gives the same mode. */
  lemma WalkAnyOrder(b: Board, p: seq<Name>, q: seq<Name>)
    requires IsOrder(b, p) && IsOrder(b, q)
    ensures Walk(b, p, Silent) == Walk(b, q, Silent)
  {
    WalkIsMode(b, p);
    WalkIsMode(b, q);
  }

  method CheckPlayMode(b: Board, order: seq<Name>) returns (mode: Mode)
    requires IsOrder(b, order)
    ensures mode == Walk(b, order, Silent) && IsMode(b, mode)
  {
    WalkIsMode(b, order);
    mode := Silent;
    var i := 0;
    while i < |order|
      invariant 0 <= i <= |order|
      invariant Walk(b, order, Silent) == Walk(b, order[i..], mode)
    {
      assert order[i..][1..] == order[i + 1..] && order[i..][0] == order[i];
      if b.Plays(order[i]) {
        if b.sounds[order[i]].mixing {
          mode := Mixing;
        } else {
          mode := Exclusive;
          return;
        }
      }
      i := i + 1;
    }
    assert order[i..] == [];
  }

  // ---- Playing ----------------------------------------------------------------------------

  /** The checks that come before the mode is looked at. */
  predicate Admitted(b: Board, s: Sound) {
    s.intensity <= b.threshold && (s.incall || !b.talking)
  }

  predicate Fits(mode: Mode, s: Sound) { mode.Silent? || (mode.Mixing? && s.mixing) }

  predicate CanPlay(b: Board, order: seq<Name>, s: Sound)
    requires IsOrder(b, order)
  {
    Admitted(b, s) && (s.priority > 0 || Fits(Walk(b, order, Silent), s))
  }

  function Play(b: Board, order: seq<Name>, n: Name): Board
    requires IsOrder(b, order)
  {
    if n in b.sounds && CanPlay(b, order, b.sounds[n])
    then b.(playing := b.playing + {b.sounds[n].player})
    else b
  }

  datatype Step = Register(name: Name, sound: Sound) | Unregister(name: Name)
                | PlaySound(name: Name, order: seq<Name>) | StopSound(name: Name) | StopAll
                | Ends(player: Player) | SetThreshold(to: int) | SetTalking(on: bool)

  predicate Enabled(b: Board, a: Step) { a.PlaySound? ==> IsOrder(b, a.order) }

  /** A name that is taken keeps its sound. */
  function Registered(b: Board, n: Name, s: Sound): Board {
    if n in b.sounds then b else b.(sounds := b.sounds[n := s])
  }

  function Next(b: Board, a: Step): Board
    requires Enabled(b, a)
  {
    match a
    case Register(n, s) => Registered(b, n, s)
    case Unregister(n) => b.(sounds := b.sounds - {n})
    case PlaySound(n, order) => Play(b, order, n)
    case StopSound(n) => if n in b.sounds then b.(playing := b.playing - {b.sounds[n].player}) else b
    case StopAll => b.(playing := b.playing - set n | n in b.sounds :: b.sounds[n].player)
    case Ends(p) => b.(playing := b.playing - {p})
    case SetThreshold(to) => b.(threshold := to)
    case SetTalking(on) => b.(talking := on)
  }

  // ---- When the rule is kept -----------------------------------------------------------

  /** Names that will play as soon as the player of `n` does. */
  predicate Beside(b: Board, n: Name, m: Name)
    requires n in b.sounds
  {
    m in b.sounds && m != n && (b.Plays(m) || b.sounds[m].player == b.sounds[n].player)
  }

  predicate BothMix(b: Board, m: Name, n: Name)
    requires m in b.sounds && n in b.sounds
  {
    b.sounds[m].mixing && b.sounds[n].mixing
  }

  predicate Starts(b: Board, order: seq<Name>, n: Name)
    requires IsOrder(b, order)
  {
    n in b.sounds && b.sounds[n].player !in b.playing && CanPlay(b, order, b.sounds[n])
  }

  /** A sound is let through exactly when it is not too intense, may be heard during a call or
      there is none, and has a priority or finds nothing playing or only sounds that mix
      with it. */
  lemma PlaysIff(b: Board, order: seq<Name>, n: Name)
    requires IsOrder(b, order)
    ensures Play(b, order, n) == b.(playing := Play(b, order, n).playing)
    ensures n !in b.sounds ==> Play(b, order, n) == b
    ensures n in b.sounds ==>
              var s := b.sounds[n];
              Play(b, order, n).playing ==
              if && s.intensity <= b.threshold && (s.incall || !b.talking)
                 && (s.priority > 0 || forall m :: b.Plays(m) ==> s.mixing && b.sounds[m].mixing)
              then b.playing + {s.player} else b.playing
  {
    WalkIsMode(b, order);
    hide Walk, IsOrder;
  }

  /** Playing keeps the rule if and only if no player starts, or nothing plays or shares the
      player beside the sound, or all of these mix with it. */
  lemma PlayKeepsIff(b: Board, order: seq<Name>, n: Name)
    requires IsOrder(b, order) && b.OneOrMixing()
    ensures Play(b, order, n).OneOrMixing()
            <==> (Starts(b, order, n) ==> forall m :: Beside(b, n, m) ==> BothMix(b, m, n))
  {
    hide CanPlay, IsOrder;
    var c := Play(b, order, n);
    if Starts(b, order, n) {
      assert c.Plays(n);
      assert forall m :: m != n ==> (c.Plays(m) <==> Beside(b, n, m));
    } else {
      assert c.playing == b.playing;
    }
  }

  /** Registering keeps the rule if and only if the new sound's player is silent, or
      everything that plays mixes, the new sound included. */
  lemma RegisterKeepsIff(b: Board, n: Name, s: Sound)
    requires b.OneOrMixing() && n !in b.sounds
    ensures Registered(b, n, s).OneOrMixing()
            <==> (s.player in b.playing ==> forall m :: b.Plays(m) ==> s.mixing && b.sounds[m].mixing)
  {
    var c := Registered(b, n, s);
    assert forall m :: m != n ==> c.Plays(m) == b.Plays(m);
    assert c.Plays(n) == (s.player in b.playing);
  }

  // ---- When the rule is safe -----------------------------------------------------------

  /** One player for both, or a priority that disregards what plays. */
  predicate Clash(s: Sound, t: Sound) { s.player == t.player || s.priority > 0 || t.priority > 0 }

  /** The rule holds, and any two sounds of which one could start against the other mix. */
  ghost predicate Safe(b: Board) {
    && b.OneOrMixing()
    && forall m, n :: m in b.sounds && n in b.sounds && m != n && Clash(b.sounds[m], b.sounds[n]) ==> BothMix(b, m, n)
  }

  /** The new sound mixes with every sound it clashes with, and with every sound that plays
      if its player does. */
  predicate Welcome(b: Board, n: Name, s: Sound) {
    n in b.sounds ||
    forall m :: m in b.sounds && (Clash(s, b.sounds[m]) || (s.player in b.playing && b.Plays(m))) ==>
      s.mixing && b.sounds[m].mixing
  }

  lemma RegisterSafeIff(b: Board, n: Name, s: Sound)
    requires Safe(b)
    ensures Safe(Registered(b, n, s)) <==> Welcome(b, n, s)
  {
    if n !in b.sounds {
      var c := Registered(b, n, s);
      RegisterKeepsIff(b, n, s);
      hide Board.OneOrMixing;
      assert c.sounds[n] == s && forall m :: m in b.sounds ==> m != n && c.sounds[m] == b.sounds[m];
      if Safe(c) {
        forall m | m in b.sounds && (Clash(s, b.sounds[m]) || (s.player in b.playing && b.Plays(m)))
          ensures s.mixing && b.sounds[m].mixing
        {
          if Clash(s, b.sounds[m]) { assert BothMix(c, n, m); }
        }
      } else if Welcome(b, n, s) {
        assert c.OneOrMixing();
        forall k, m | k in c.sounds && m in c.sounds && k != m && Clash(c.sounds[k], c.sounds[m])
          ensures BothMix(c, k, m)
        {
          if k != n && m != n { assert BothMix(b, k, m); }
        }
      }
    }
  }

  lemma PlayKeepsSafe(b: Board, order: seq<Name>, n: Name)
    requires IsOrder(b, order) && Safe(b)
    ensures Safe(Play(b, order, n))
  {
    PlayKeepsIff(b, order, n);
    WalkIsMode(b, order);
    hide Walk, IsOrder, Board.OneOrMixing;
    if Starts(b, order, n) {
      forall m | Beside(b, n, m) ensures BothMix(b, m, n) {
        if !Clash(b.sounds[m], b.sounds[n]) { assert b.Plays(m) && Fits(Walk(b, order, Silent), b.sounds[n]); }
      }
    }
    var c := Play(b, order, n);
    assert c.sounds == b.sounds;
    assert forall k, m :: k in b.sounds && m in b.sounds ==> (BothMix(c, k, m) <==> BothMix(b, k, m));
  }

  lemma StepKeepsIff(b: Board, a: Step)
    requires Safe(b) && Enabled(b, a)
    ensures Safe(Next(b, a)) <==> (a.Register? ==> Welcome(b, a.name, a.sound))
  {
    if a.Register? {
      RegisterSafeIff(b, a.name, a.sound);
    } else if a.PlaySound? {
      PlayKeepsSafe(b, a.order, a.name);
    } else {
      FewerIsSafe(b, Next(b, a));
    }
  }

  lemma FewerIsSafe(b: Board, c: Board)
    requires Safe(b) && c.playing <= b.playing
    requires forall n :: n in c.sounds ==> n in b.sounds && c.sounds[n] == b.sounds[n]
    ensures Safe(c)
  {
    assert forall n :: c.Plays(n) ==> b.Plays(n);
    forall m, n | m in c.sounds && n in c.sounds && m != n && Clash(c.sounds[m], c.sounds[n]) ensures BothMix(c, m, n) {
      assert BothMix(b, m, n);
    }
  }

  // ---- Every run ------------------------------------------------------------------------

  predicate IsRun(b: Board, run: seq<Step>)
    decreases |run|
  {
    run == [] || (Enabled(b, run[0]) && IsRun(Next(b, run[0]), run[1..]))
  }

  function After(b: Board, run: seq<Step>): Board
    requires IsRun(b, run)
    decreases |run|
  {
    if run == [] then b else After(Next(b, run[0]), run[1..])
  }

  lemma Ahead(b: Board, a: Step, rest: seq<Step>)
    requires Enabled(b, a) && IsRun(Next(b, a), rest)
    ensures IsRun(b, [a] + rest) && After(b, [a] + rest) == After(Next(b, a), rest)
  {
    hide Next, Enabled;
    assert ([a] + rest)[1..] == rest;
  }

  lemma PlayIsNext(b: Board, order: seq<Name>, n: Name)
    requires IsOrder(b, order)
    ensures Enabled(b, PlaySound(n, order)) && Next(b, PlaySound(n, order)) == Play(b, order, n)
    ensures IsOrder(Play(b, order, n), order)
  {
  }

  /** Safe in every state of the run. */
  ghost predicate AlwaysSafe(b: Board, run: seq<Step>)
    requires IsRun(b, run)
    decreases |run|
  {
    Safe(b) && (run == [] || AlwaysSafe(Next(b, run[0]), run[1..]))
  }

  /** Every registration of the run is of a sound that is welcome when it comes. */
  predicate AllWelcome(b: Board, run: seq<Step>)
    requires IsRun(b, run)
    decreases |run|
  {
    run == [] ||
    ((run[0].Register? ==> Welcome(b, run[0].name, run[0].sound)) && AllWelcome(Next(b, run[0]), run[1..]))
  }

  lemma {:induction false} RunSafeIff(b: Board, run: seq<Step>)
    requires IsRun(b, run) && Safe(b)
    ensures AlwaysSafe(b, run) <==> AllWelcome(b, run)
    ensures AllWelcome(b, run) ==> Safe(After(b, run))
    decreases |run|
  {
    hide Safe, Welcome, Next, Enabled;
    if run != [] {
      StepKeepsIff(b, run[0]);
      if Safe(Next(b, run[0])) { RunSafeIff(Next(b, run[0]), run[1..]); }
    }
  }

  function Empty(threshold: int): Board { Board(map[], {}, threshold, false) }

  /** Every run of every operation keeps the sounds safe in all its states if and only if
      every sound registered is welcome; then any number of mixing sounds play or a single
      sound does. */
  lemma EveryRun(threshold: int, run: seq<Step>)
    requires IsRun(Empty(threshold), run)
    ensures AlwaysSafe(Empty(threshold), run) <==> AllWelcome(Empty(threshold), run)
    ensures AllWelcome(Empty(threshold), run) ==> After(Empty(threshold), run).OneOrMixing()
  {
    assert Safe(Empty(threshold));
    RunSafeIff(Empty(threshold), run);
  }

  predicate NoRegister(run: seq<Step>) { forall i :: 0 <= i < |run| ==> !run[i].Register? }

  /** Safe is exact: the rule is kept by every run that registers nothing more if and only if
      the sounds are safe. */
  lemma SafeIff(b: Board)
    ensures Safe(b) <==> forall run :: NoRegister(run) && IsRun(b, run) ==> After(b, run).OneOrMixing()
  {
    hide Safe;
    if Safe(b) {
      forall run | NoRegister(run) && IsRun(b, run) ensures After(b, run).OneOrMixing() {
        QuietRunSafe(b, run);
      }
    } else {
      var run := UnsafeBreaks(b);
      assert NoRegister(run) && IsRun(b, run) && !After(b, run).OneOrMixing();
    }
  }

  lemma {:induction false} QuietRunSafe(b: Board, run: seq<Step>)
    requires NoRegister(run) && IsRun(b, run) && Safe(b)
    ensures Safe(After(b, run)) && After(b, run).OneOrMixing()
    decreases |run|
  {
    if run == [] {
    } else {
      hide Next, Enabled, Safe, Board.OneOrMixing;
      StepKeepsIff(b, run[0]);
      QuietRunSafe(Next(b, run[0]), run[1..]);
    }
  }

  lemma {:induction false} SomeOrder(names: set<Name>) returns (order: seq<Name>)
    ensures forall n :: n in order <==> n in names
    decreases |names|
  {
    order := [];
    if names != {} {
      var n :| n in names;
      var rest := SomeOrder(names - {n});
      order := rest + [n];
    }
  }

  /** From an unsafe board the rule can be broken. */
  lemma UnsafeBreaks(b: Board) returns (run: seq<Step>)
    requires !Safe(b)
    ensures NoRegister(run) && IsRun(b, run) && !After(b, run).OneOrMixing()
  {
    if !b.OneOrMixing() {
      run := [];
    } else {
      var m, n :| m in b.sounds && n in b.sounds && m != n && Clash(b.sounds[m], b.sounds[n]) && !BothMix(b, m, n);
      var order := SomeOrder(b.sounds.Keys);
      if b.sounds[m].priority > 0 {
        run := TwoAtOnce(b, order, n, m);
      } else {
        run := TwoAtOnce(b, order, m, n);
      }
    }
  }

  /** Silence everything, admit everything, play the one and then the other. */
  function BothPlay(threshold: int, order: seq<Name>, m: Name, n: Name): seq<Step> {
    [StopAll, SetThreshold(threshold), SetTalking(false), PlaySound(m, order), PlaySound(n, order)]
  }

  lemma TwoAtOnce(b: Board, order: seq<Name>, m: Name, n: Name) returns (run: seq<Step>)
    requires IsOrder(b, order) && m in b.sounds && n in b.sounds && m != n && !BothMix(b, m, n)
    requires b.sounds[n].priority > 0 || b.sounds[m].player == b.sounds[n].player
    ensures NoRegister(run) && IsRun(b, run) && !After(b, run).OneOrMixing()
  {
    var top := if b.sounds[m].intensity < b.sounds[n].intensity then b.sounds[n].intensity else b.sounds[m].intensity;
    run := BothPlay(top, order, m, n);
    var b3 := b.(playing := b.playing - (set k | k in b.sounds :: b.sounds[k].player),
                 threshold := top, talking := false);
    FirstPlays(b3, order, m);
    var b4 := Play(b3, order, m);
    var b5 := Play(b4, order, n);
    assert b5.Plays(m) && b5.Plays(n);
    assert !b5.OneOrMixing();
    hide Board.OneOrMixing, Play;
    BothPlayRuns(b, b3, top, order, m, n);
  }

  lemma FirstPlays(b: Board, order: seq<Name>, m: Name)
    requires IsOrder(b, order) && m in b.sounds && Admitted(b, b.sounds[m])
    requires forall k :: k in b.sounds ==> b.sounds[k].player !in b.playing
    ensures Play(b, order, m) == b.(playing := b.playing + {b.sounds[m].player})
  {
    WalkIsMode(b, order);
    hide Walk;
    assert forall k :: !b.Plays(k);
  }

  lemma BothPlayRuns(b: Board, b3: Board, top: int, order: seq<Name>, m: Name, n: Name)
    requires IsOrder(b, order)
    requires b3 == b.(playing := b.playing - (set k | k in b.sounds :: b.sounds[k].player),
                      threshold := top, talking := false)
    ensures IsRun(b, BothPlay(top, order, m, n))
    ensures After(b, BothPlay(top, order, m, n)) == Play(Play(b3, order, m), order, n)
  {
    hide Play, Safe;
    var p, q := PlaySound(m, order), PlaySound(n, order);
    var b1 := Next(b, StopAll);
    var b2 := Next(b1, SetThreshold(top));
    assert b3 == Next(b2, SetTalking(false));
    hide Next;
    PlayIsNext(b3, order, m);
    PlayIsNext(Play(b3, order, m), order, n);
    Ahead(Play(b3, order, m), q, []);
    Ahead(b3, p, [q]);
    Ahead(b2, SetTalking(false), [p] + [q]);
    Ahead(b1, SetThreshold(top), [SetTalking(false)] + ([p] + [q]));
    Ahead(b, StopAll, [SetThreshold(top)] + ([SetTalking(false)] + ([p] + [q])));
    assert BothPlay(top, order, m, n) == [StopAll] + ([SetThreshold(top)] + ([SetTalking(false)] + ([p] + [q])));
  }

  /** Two names for one exclusive sound: playing the one plays the other. */
  lemma SharingBreaks(s: Sound)
    requires !s.mixing && s.incall
    ensures var run := [Register("a", s), Register("b", s), PlaySound("a", ["a", "b"])];
            IsRun(Empty(s.intensity), run) && !After(Empty(s.intensity), run).OneOrMixing()
  {
    var run := [Register("a", s), Register("b", s), PlaySound("a", ["a", "b"])];
    assert "a" != "b" by { assert "a"[0] != "b"[0]; }
    var e := Empty(s.intensity);
    var b1 := Registered(e, "a", s);
    var b2 := Registered(b1, "b", s);
    FirstPlays(b2, ["a", "b"], "a");
    var b3 := Play(b2, ["a", "b"], "a");
    assert b3.Plays("a") && b3.Plays("b");
    hide Play, Board.OneOrMixing;
    Ahead(b2, run[2], []);
    Ahead(b1, run[1], [run[2]]);
    Ahead(e, run[0], [run[1]] + [run[2]]);
    assert run == [run[0]] + ([run[1]] + [run[2]]);
  }

  /** With a priority sound the rule breaks: two exclusive sounds at once. */
  lemma PriorityBreaks(s: Sound, t: Sound)
    requires !s.mixing && !t.mixing && s.player != t.player && s.priority <= 0 < t.priority
    requires s.incall && t.incall && s.intensity == t.intensity
    ensures var b := Board(map["a" := s, "b" := t], {}, s.intensity, false);
            && Play(b, ["a", "b"], "a").OneOrMixing()
            && !Play(Play(b, ["a", "b"], "a"), ["a", "b"], "b").OneOrMixing()
  {
    var b := Board(map["a" := s, "b" := t], {}, s.intensity, false);
    var order := ["a", "b"];
    assert "a" != "b" by { assert "a"[0] != "b"[0]; }
    FirstPlays(b, order, "a");
    var c := Play(b, order, "a");
    assert c.Plays("a") && !c.Plays("b");
    var d := Play(c, order, "b");
    assert d.Plays("a") && d.Plays("b");
  }

  /** The manager's dictionary and players, updated in place. `order` is the order in which
      the dictionary's walk meets its names. */
  class Jukebox {
    var sounds: map<Name, Sound>
    var playing: set<Player>
    var threshold: int
    var talking: bool

    function View(): Board
      reads this
    {
      Board(sounds, playing, threshold, talking)
    }

    constructor (threshold: int)
      ensures View() == Empty(threshold) && Safe(View())
    {
      sounds, playing, this.threshold, talking := map[], {}, threshold, false;
    }

    method RegisterMedia(n: Name, s: Sound)
      modifies `sounds
      ensures View() == Registered(old(View()), n, s)
      ensures old(Safe(View())) ==> (Safe(View()) <==> old(Welcome(View(), n, s)))
    {
      ghost var was := View();
      if n !in sounds { sounds := sounds[n := s]; }
      if Safe(was) { RegisterSafeIff(was, n, s); }
    }

    method UnregisterMedia(n: Name)
      modifies `sounds
      ensures View() == Next(old(View()), Unregister(n))
      ensures old(Safe(View())) ==> Safe(View())
    {
      ghost var was := View();
      if n in sounds { sounds := sounds - {n}; }
      assert was.sounds - {n} == sounds;
      if Safe(was) { StepKeepsIff(was, Unregister(n)); }
    }

    method PlaySound(n: Name, order: seq<Name>)
      requires IsOrder(View(), order)
      modifies `playing
      ensures View() == Next(old(View()), Step.PlaySound(n, order))
      ensures old(Safe(View())) ==> Safe(View())
    {
      ghost var was := View();
      if Safe(was) { StepKeepsIff(was, Step.PlaySound(n, order)); }
      if n !in sounds { return; }
      var s := sounds[n];
      if s.intensity > threshold { return; }
      if !s.incall && talking { return; }
      var start := s.priority > 0;
      if !start {
        var mode := CheckPlayMode(View(), order);
        match mode
        case Silent => start := true;
        case Exclusive => start := false;
        case Mixing => start := s.mixing;
      }
      if start { playing := playing + {s.player}; }
    }

    method StopAllMedia(order: seq<Name>)
      requires IsOrder(View(), order)
      modifies `playing
      ensures View() == Next(old(View()), StopAll)
    {
      var i := 0;
      while i < |order|
        invariant 0 <= i <= |order|
        invariant forall p :: p in playing <==>
                    p in old(playing) && forall k :: 0 <= k < i ==> sounds[order[k]].player != p
      {
        var p := sounds[order[i]].player;
        if p in playing { playing := playing - {p}; }
        i := i + 1;
      }
      assert playing == old(playing) - set n | n in sounds :: sounds[n].player;
    }
  }
}
