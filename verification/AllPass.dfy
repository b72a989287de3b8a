/** reverb.cpp: the all-pass delay ring and the three-stage cascade, over reals. */
module AllPass {
  import opened Rings
  import opened Samples

  const MAX_D := 8192

  // ---- The filter on unbounded streams -----------------------------------------

  /** `w` holds MAX_D zeros and then one delay-line value per input sample. */
  datatype Stage = Stage(c: real, d: nat)

  function Silence(): seq<real> {
    seq(MAX_D, _ => 0.0)
  }

  /** The delay the ring realises: `d` itself for 1..MAX_D, else its wrap. */
  function EffectiveDelay(d: nat): (e: nat)
    ensures 1 <= e <= MAX_D
  {
    if d % MAX_D == 0 then MAX_D else d % MAX_D
  }

  lemma DelayIsExact(d: nat)
    ensures EffectiveDelay(d) == d <==> 1 <= d <= MAX_D
  {
  }

  function Delayed(w: seq<real>, d: nat): real
    requires |w| >= MAX_D
  {
    w[|w| - EffectiveDelay(d)]
  }

  /** w[n] = x[n] + c * w[n - d] */
  function NextW(w: seq<real>, s: Stage, x: real): real
    requires |w| >= MAX_D
  {
    x + Delayed(w, s.d) * s.c
  }

  /** y[n] = -c * w[n] + w[n - d] */
  function NextY(w: seq<real>, s: Stage, x: real): real
    requires |w| >= MAX_D
  {
    -s.c * NextW(w, s, x) + Delayed(w, s.d)
  }

  function Line(xs: seq<real>, s: Stage): (w: seq<real>)
    ensures |w| == MAX_D + |xs|
  {
    if xs == [] then Silence()
    else
      var n := |xs| - 1;
      var w := Line(xs[..n], s);
      w + [NextW(w, s, xs[n])]
  }

  function Filter(xs: seq<real>, s: Stage): (ys: seq<real>)
    ensures |ys| == |xs|
  {
    if xs == [] then []
    else
      var n := |xs| - 1;
      Filter(xs[..n], s) + [NextY(Line(xs[..n], s), s, xs[n])]
  }

  lemma LineLast(xs: seq<real>, x: real, s: Stage)
    ensures Line(xs + [x], s) == Line(xs, s) + [NextW(Line(xs, s), s, x)]
  {
    assert (xs + [x])[..|xs|] == xs;
  }

  lemma FilterLast(xs: seq<real>, x: real, s: Stage)
    ensures Filter(xs + [x], s) == Filter(xs, s) + [NextY(Line(xs, s), s, x)]
  {
    assert (xs + [x])[..|xs|] == xs;
  }

  /** A signal before it started. */
  function Sound(xs: seq<real>, n: int): real { if 0 <= n < |xs| then xs[n] else 0.0 }

  lemma Unfolds(xs: seq<real>, s: Stage, m: nat)
    requires 1 <= s.d <= MAX_D && m + 1 == |xs|
    ensures var w := Line(xs[..m], s); var w0, wd := NextW(w, s, xs[m]), w[MAX_D + m - s.d];
            && Line(xs, s) == w + [w0] && w0 == xs[m] + wd * s.c
            && Filter(xs, s) == Filter(xs[..m], s) + [NextY(w, s, xs[m])] && NextY(w, s, xs[m]) == -s.c * w0 + wd
  {
    hide Line, Filter, NextW, NextY;
    Rolled(xs, s, m);
    NextIs(Line(xs[..m], s), s, xs[m]);
  }

  lemma Rolled(xs: seq<real>, s: Stage, m: nat)
    requires m + 1 == |xs|
    ensures Line(xs, s) == Line(xs[..m], s) + [NextW(Line(xs[..m], s), s, xs[m])]
    ensures Filter(xs, s) == Filter(xs[..m], s) + [NextY(Line(xs[..m], s), s, xs[m])]
  {
    hide NextW, NextY;
  }

  lemma NextIs(w: seq<real>, s: Stage, x: real)
    requires 1 <= s.d <= MAX_D <= |w|
    ensures NextW(w, s, x) == x + w[|w| - s.d] * s.c && NextY(w, s, x) == -s.c * NextW(w, s, x) + w[|w| - s.d]
  {
    DelayIsExact(s.d);
    hide EffectiveDelay;
  }

  lemma {:induction false} LineAt(xs: seq<real>, s: Stage, n: nat)
    requires 1 <= s.d <= MAX_D && n < |xs|
    ensures var w := Line(xs, s); w[MAX_D + n] == xs[n] + w[MAX_D + n - s.d] * s.c
    ensures Filter(xs, s)[n] == -s.c * Line(xs, s)[MAX_D + n] + Line(xs, s)[MAX_D + n - s.d]
  {
    hide Line, Filter, NextW, NextY;
    var m := |xs| - 1;
    Unfolds(xs, s, m);
    if n < m {
      LineAt(xs[..m], s, n);
      assert xs[..m][n] == xs[n];
    }
  }

  lemma {:induction false} LineStart(xs: seq<real>, s: Stage, k: nat)
    requires k < MAX_D
    ensures Line(xs, s)[k] == 0.0
  {
    if xs != [] { LineStart(xs[..|xs| - 1], s, k); }
  }

  /** The delay line between input and output does not show: each output sample is made of
      the input now and the input and output `d` samples ago. */
  lemma DifferenceEquation(xs: seq<real>, s: Stage, n: nat)
    requires 1 <= s.d <= MAX_D && n < |xs|
    ensures var ys := Filter(xs, s);
            ys[n] == -s.c * xs[n] + Sound(xs, n - s.d) + s.c * Sound(ys, n - s.d)
  {
    hide Line, Filter;
    var w, ys := Line(xs, s), Filter(xs, s);
    LineAt(xs, s, n);
    var b := w[MAX_D + n - s.d];
    if n < s.d {
      LineStart(xs, s, MAX_D + n - s.d);
      Eliminate(s.c, xs[n], 0.0, 0.0, w[MAX_D + n], b, 0.0, ys[n]);
    } else {
      LineAt(xs, s, n - s.d);
      var a := w[MAX_D + n - s.d - s.d];
      Eliminate(s.c, xs[n], xs[n - s.d], ys[n - s.d], w[MAX_D + n], b, a, ys[n]);
    }
  }

  lemma Eliminate(c: real, x: real, x': real, y': real, w: real, b: real, a: real, y: real)
    requires w == x + b * c && y == -c * w + b && b == x' + a * c && y' == -c * b + a
    ensures y == -c * x + x' + c * y'
  {
    assert c * w == c * x + c * (b * c);
    assert c * y' == -(c * (b * c)) + a * c;
  }

  // ---- Energy --------------------------------------------------------------------

  function Square(x: real): (y: real)
    ensures y >= 0.0
  {
    x * x
  }

  function Energy(xs: seq<real>): (e: real)
    ensures e >= 0.0
  {
    if xs == [] then 0.0 else Energy(xs[..|xs| - 1]) + Square(xs[|xs| - 1])
  }

  lemma {:induction false} EnergyFront(x: real, xs: seq<real>)
    ensures Energy([x] + xs) == Square(x) + Energy(xs)
  {
    var t := [x] + xs;
    if xs == [] {
      assert t[..0] == [];
    } else {
      EnergyFront(x, xs[..|xs| - 1]);
      assert t[..|t| - 1] == [x] + xs[..|xs| - 1];
    }
  }

  lemma {:induction false} EnergyOfZeros(n: nat)
    ensures Energy(seq(n, _ => 0.0)) == 0.0
  {
    if n > 0 {
      EnergyOfZeros(n - 1);
      assert seq(n, _ => 0.0)[..n - 1] == seq(n - 1, _ => 0.0);
    }
  }

  /** What the delay line still holds: its last `d` values. */
  function Tail(w: seq<real>, d: nat): seq<real>
    requires |w| >= MAX_D
  {
    w[|w| - EffectiveDelay(d)..]
  }

  lemma TailStep(w: seq<real>, d: nat, x: real)
    requires |w| >= MAX_D
    ensures Energy(Tail(w + [x], d)) == Energy(Tail(w, d)) - Square(Delayed(w, d)) + Square(x)
  {
    hide Energy, Square;
    var t := Tail(w, d);
    assert t == [t[0]] + t[1..];
    EnergyFront(t[0], t[1..]);
    assert Tail(w + [x], d) == t[1..] + [x];
    EnergyLast(t[1..], x);
  }

  /** Energy still to come out of the delay line: its last `d` values, weighted. */
  function Stored(w: seq<real>, s: Stage): real
    requires |w| >= MAX_D
  {
    (1.0 - s.c * s.c) * Energy(Tail(w, s.d))
  }

  lemma Balance(c: real, wd: real, x: real, before: real, after: real)
    requires var w0 := x + wd * c; after == before - wd * wd + w0 * w0
    ensures var y := -c * (x + wd * c) + wd;
            y * y + (1.0 - c * c) * after == (1.0 - c * c) * before + x * x
  {
    var w0, k := x + wd * c, 1.0 - c * c;
    var y := -c * w0 + wd;
    assert y * y + k * (w0 * w0 - wd * wd) == x * x;
    assert k * after == k * before + k * (w0 * w0 - wd * wd);
  }

  /** One sample: output and stored energy together grow by the input energy. */
  lemma StepLossless(w: seq<real>, s: Stage, x: real)
    requires |w| >= MAX_D
    ensures var y := NextY(w, s, x);
            Square(y) + Stored(w + [NextW(w, s, x)], s) == Stored(w, s) + Square(x)
  {
    hide Energy, Tail, Delayed;
    var w0 := NextW(w, s, x);
    TailStep(w, s.d, w0);
    Balance(s.c, Delayed(w, s.d), x, Energy(Tail(w, s.d)), Energy(Tail(w + [w0], s.d)));
  }

  /** The filter is lossless: what has come out plus what is still stored equals
      what has gone in, after every number of samples. */
  lemma {:induction false} Lossless(xs: seq<real>, s: Stage)
    ensures Energy(Filter(xs, s)) + Stored(Line(xs, s), s) == Energy(xs)
  {
    if xs == [] {
      SilenceStoresNothing(s);
    } else {
      var n := |xs| - 1;
      var front, x := xs[..n], xs[n];
      assert xs == front + [x];
      hide Stored, NextW, NextY, Energy, Line, Filter, Square;
      LineLast(front, x, s);
      FilterLast(front, x, s);
      Lossless(front, s);
      StepLossless(Line(front, s), s, x);
      EnergyLast(Filter(front, s), NextY(Line(front, s), s, x));
      EnergyLast(front, x);
    }
  }

  lemma SilenceStoresNothing(s: Stage)
    ensures Stored(Silence(), s) == 0.0
  {
    var e := EffectiveDelay(s.d);
    assert Tail(Silence(), s.d) == seq(e, _ => 0.0);
    EnergyOfZeros(e);
  }

  lemma EnergyLast(xs: seq<real>, x: real)
    ensures Energy(xs + [x]) == Energy(xs) + Square(x)
  {
    assert (xs + [x])[..|xs|] == xs;
  }

  /** With |c| <= 1 no stage can produce more energy than it received. */
  lemma Passive(xs: seq<real>, s: Stage)
    requires -1.0 <= s.c <= 1.0
    ensures Energy(Filter(xs, s)) <= Energy(xs)
  {
    Lossless(xs, s);
    StoredNonNegative(Line(xs, s), s);
  }

  lemma StoredNonNegative(w: seq<real>, s: Stage)
    requires |w| >= MAX_D && -1.0 <= s.c <= 1.0
    ensures Stored(w, s) >= 0.0
  {
    ProductNonNegative(1.0 - s.c, 1.0 + s.c);
    ProductNonNegative(1.0 - s.c * s.c, Energy(Tail(w, s.d)));
  }

  // ---- The cascade -----------------------------------------------------------------

  function Cascade(xs: seq<real>, stages: seq<Stage>): (ys: seq<real>)
    ensures |ys| == |xs|
  {
    if stages == [] then xs else Filter(Cascade(xs, stages[..|stages| - 1]), stages[|stages| - 1])
  }

  lemma {:induction false} CascadePassive(xs: seq<real>, stages: seq<Stage>)
    requires forall i :: 0 <= i < |stages| ==> -1.0 <= stages[i].c <= 1.0
    ensures Energy(Cascade(xs, stages)) <= Energy(xs)
  {
    if stages != [] {
      var n := |stages| - 1;
      CascadePassive(xs, stages[..n]);
      Passive(Cascade(xs, stages[..n]), stages[n]);
    }
  }

  /** A cascade works sample by sample: more input only adds output at the end. */
  lemma {:induction false} CascadeGrows(xs: seq<real>, x: real, stages: seq<Stage>)
    ensures Cascade(xs + [x], stages)[..|xs|] == Cascade(xs, stages)
  {
    if stages != [] {
      var n := |stages| - 1;
      CascadeGrows(xs, x, stages[..n]);
      var before, after := Cascade(xs, stages[..n]), Cascade(xs + [x], stages[..n]);
      assert after[..|after| - 1] == before;
    }
  }

  lemma {:induction false} NoInput(stages: seq<Stage>)
    ensures Cascade([], stages) == []
  {
  }

  // ---- The ring ---------------------------------------------------------------------

  lemma DelaySlot(n: int, d: nat)
    ensures Slot(MAX_D, n - d) == Slot(MAX_D, n - EffectiveDelay(d))
  {
  }

  lemma Computes(w: seq<real>, s: Stage, x: real, wd: real, w0: real, y: real)
    requires |w| >= MAX_D && wd == Delayed(w, s.d) && w0 == x + wd * s.c && y == -s.c * w0 + wd
    ensures w0 == NextW(w, s, x) && y == NextY(w, s, x)
  {
    hide Delayed;
  }

  class Ring {
    const s: Stage
    var state: array<real>
    var idx: int
    ghost var xs: seq<real>  // all input so far

    /** The ring holds the last MAX_D values of the line `w`. */
    ghost predicate Holds(w: seq<real>)
      reads this`idx, this`state, state
    {
      && state.Length == MAX_D <= |w|
      && idx == Slot(MAX_D, |w|)
      && forall k {:trigger w[k]} :: |w| - MAX_D <= k < |w| ==> state[Slot(MAX_D, k)] == w[k]
    }

    ghost predicate Valid()
      reads this, state
    {
      Holds(Line(xs, s))
    }

    constructor (c: real, d: nat)
      ensures Valid() && fresh(state) && s == Stage(c, d) && xs == []
    {
      s := Stage(c, d);
      state := new real[MAX_D](_ => 0.0);
      idx := 0;
      xs := [];
    }

    method Peek(ghost w: seq<real>) returns (wd: real)
      requires Holds(w)
      ensures wd == Delayed(w, s.d)
    {
      hide Slot, EffectiveDelay;
      SlotStep(MAX_D, |w|, 0 - s.d);
      DelaySlot(|w|, s.d);
      wd := state[Slot(MAX_D, idx - s.d)];
    }

    method Put(w0: real, ghost w: seq<real>)
      requires Holds(w)
      modifies this`idx, state
      ensures Holds(w + [w0])
    {
      hide Slot;
      forall k | |w| - MAX_D < k < |w|
        ensures Slot(MAX_D, k) != Slot(MAX_D, |w|)
      {
        SlotsDiffer(MAX_D, k, |w|);
      }
      state[idx] := w0;
      SlotStep(MAX_D, |w|, 1);
      idx := Slot(MAX_D, idx + 1);
    }

    /** allpass_d: one sample through the ring. */
    method Step(x: real) returns (y: real)
      requires Valid()
      modifies this`idx, this`xs, state
      ensures Valid() && xs == old(xs) + [x]
      ensures y == NextY(Line(old(xs), s), s, x)
    {
      hide Ring.Holds, Delayed, Line, NextW, NextY;
      ghost var w := Line(xs, s);
      var wd := Peek(w);
      var w0 := x + wd * s.c;
      Put(w0, w);
      y := -s.c * w0 + wd;
      LineLast(xs, x, s);
      Computes(w, s, x, wd, w0, y);
      xs := xs + [x];
    }
  }

  lemma CascadeLast(xs: seq<real>, st: seq<Stage>, s: Stage)
    ensures Cascade(xs, st + [s]) == Filter(Cascade(xs, st), s)
  {
    assert (st + [s])[..|st|] == st;
  }

  /** One more sample through one more stage. */
  lemma CascadeNext(xs: seq<real>, x: real, st: seq<Stage>, s: Stage)
    ensures var before, y := Cascade(xs, st), Cascade(xs + [x], st)[|xs|];
            && Cascade(xs + [x], st) == before + [y]
            && Cascade(xs + [x], st + [s])[|xs|] == NextY(Line(before, s), s, y)
  {
    hide NextY, Line, Filter, Cascade;
    var before, after := Cascade(xs, st), Cascade(xs + [x], st);
    CascadeGrows(xs, x, st);
    assert after == before + [after[|xs|]];
    FilterLast(before, after[|xs|], s);
    CascadeLast(xs + [x], st, s);
  }

  /** Coefficients and delays in milliseconds of create_reverb. */
  function Params(strength: int): (ps: seq<(real, real)>)
    ensures |ps| == 3
  {
    if strength < 1 then [(0.83, 84.3), (0.81, 96.8), (0.85, 73.2)]
    else if strength == 1 then [(0.93, 44.3), (0.91, 56.8), (0.95, 37.2)]
    else [(0.93, 84.3), (0.91, 96.8), (0.95, 73.2)]
  }

  function DelayFor(ms: real, fsHz: nat): int {
    Truncate(ms * (fsHz as real / 1000.0))
  }

  /** At every rate up to 84 kHz the shipped stages delay exactly as configured and
      never add energy. */
  lemma ShippedStages(strength: int, fsHz: nat, i: nat)
    requires 1000 <= fsHz <= 84000 && i < 3
    ensures var (c, ms) := Params(strength)[i];
            && -1.0 < c < 1.0 && 1 <= DelayFor(ms, fsHz) <= MAX_D
            && EffectiveDelay(DelayFor(ms, fsHz)) == DelayFor(ms, fsHz)
  {
    var (c, ms) := Params(strength)[i];
    DelayWithin(ms, fsHz as real / 1000.0);
    DelayIsExact(DelayFor(ms, fsHz));
  }

  lemma DelayWithin(ms: real, khz: real)
    requires 37.2 <= ms <= 96.8 && 1.0 <= khz <= 84.0
    ensures 1.0 <= ms * khz <= 8192.0 && 1 <= Truncate(ms * khz) <= MAX_D
  {
    ProductNonNegative(ms - 37.2, khz);
    ProductNonNegative(96.8 - ms, khz);
  }

  lemma ThreeStages(xs: seq<real>, x: real, s0: Stage, s1: Stage, s2: Stage)
    ensures var c1, c2 := Cascade(xs, [s0]), Cascade(xs, [s0, s1]);
            var y0 := NextY(Line(xs, s0), s0, x);
            var y1 := NextY(Line(c1, s1), s1, y0);
            && Cascade(xs + [x], [s0]) == c1 + [y0]
            && Cascade(xs + [x], [s0, s1]) == c2 + [y1]
            && Cascade(xs + [x], [s0, s1, s2])[|xs|] == NextY(Line(c2, s2), s2, y1)
  {
    assert Cascade(xs, []) == xs && Cascade(xs + [x], []) == xs + [x];
    hide Cascade, NextY, NextW, Line;
    assert [] + [s0] == [s0] && [s0] + [s1] == [s0, s1] && [s0, s1] + [s2] == [s0, s1, s2];
    CascadeNext(xs, x, [], s0);
    CascadeNext(xs, x, [s0], s1);
    CascadeNext(xs, x, [s0, s1], s2);
  }

  /** The three all-pass stages of reverb_process. */
  class Reverb {
    const ap0: Ring
    const ap1: Ring
    const ap2: Ring
    ghost var input: seq<real>  // all input so far

    ghost predicate Separate()
      reads this, ap0, ap1, ap2
    {
      && ap0 != ap1 && ap0 != ap2 && ap1 != ap2
      && ap0.state != ap1.state && ap0.state != ap2.state && ap1.state != ap2.state
    }

    /** Every stage has seen what the stages before it made of the input. */
    ghost predicate Valid()
      reads this, ap0, ap1, ap2, ap0.state, ap1.state, ap2.state
    {
      && Separate()
      && ap0.Valid() && ap0.xs == input
      && ap1.Valid() && ap1.xs == Cascade(input, [ap0.s])
      && ap2.Valid() && ap2.xs == Cascade(input, [ap0.s, ap1.s])
    }

    constructor (s0: Stage, s1: Stage, s2: Stage)
      ensures Valid() && input == [] && ap0.s == s0 && ap1.s == s1 && ap2.s == s2
      ensures fresh(ap0) && fresh(ap1) && fresh(ap2)
      ensures fresh(ap0.state) && fresh(ap1.state) && fresh(ap2.state)
    {
      ap0 := new Ring(s0.c, s0.d);
      ap1 := new Ring(s1.c, s1.d);
      ap2 := new Ring(s2.c, s2.d);
      input := [];
    }

    /** One sample through the cascade. */
    method Step(x: real) returns (y: real)
      requires Valid()
      modifies this, ap0, ap1, ap2, ap0.state, ap1.state, ap2.state
      ensures Valid() && input == old(input) + [x]
      ensures ap0.state == old(ap0.state) && ap1.state == old(ap1.state) && ap2.state == old(ap2.state)
      ensures y == Cascade(input, [ap0.s, ap1.s, ap2.s])[|old(input)|]
    {
      hide Cascade, NextY, NextW, Line, Ring.Valid;
      ThreeStages(input, x, ap0.s, ap1.s, ap2.s);
      y := ap0.Step(x);
      y := ap1.Step(y);
      y := ap2.Step(y);
      input := input + [x];
    }

    /** The all-pass part of reverb_process over a whole signal, from rest. */
    method Process(signal: seq<real>) returns (out: seq<real>)
      requires Valid() && input == []
      modifies this, ap0, ap1, ap2, ap0.state, ap1.state, ap2.state
      ensures out == Cascade(signal, [ap0.s, ap1.s, ap2.s])
      ensures -1.0 <= ap0.s.c <= 1.0 && -1.0 <= ap1.s.c <= 1.0 && -1.0 <= ap2.s.c <= 1.0 ==>
                Energy(out) <= Energy(signal)
    {
      hide Cascade, Energy, Ring.Valid;
      ghost var st := [ap0.s, ap1.s, ap2.s];
      out := [];
      NoInput(st);
      for n := 0 to |signal|
        invariant Valid() && input == signal[..n] && out == Cascade(input, st)
        invariant ap0.state == old(ap0.state) && ap1.state == old(ap1.state) && ap2.state == old(ap2.state)
      {
        CascadeGrows(input, signal[n], st);
        var y := Step(signal[n]);
        assert signal[..n] + [signal[n]] == signal[..n + 1];
        out := out + [y];
      }
      assert signal[..|signal|] == signal;
      if forall i :: 0 <= i < 3 ==> -1.0 <= st[i].c <= 1.0 {
        CascadePassive(signal, st);
      }
    }
  }
}
