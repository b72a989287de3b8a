/** pitch_cycler.cpp: a fractional read cursor moves over ten times upsampled
    audio at a speed that sweeps up and down; the result is time-scaled back. */
module PitchCycler {
  import opened Samples
  import opened TimeScaleSpec
  import opened TimeScale
  import opened PitchFrames
  import PitchRange

  const UP := 5
  const EXTRA_UP := 2
  const BUF_FRAMES := 1
  const EXTRA_BUF_MS := 1
  const COMP_MAX := 1.5
  const COMP_MIN := 0.7

  // ---- The speed sweep ---------------------------------------------------------

  datatype Sweep = Sweep(comp: real, used: real)

  function Delta(strength: int): (d: real)
    ensures 0.001 <= d <= 0.003
  {
    0.001 * ((if strength < 0 then 0 else if strength > 2 then 2 else strength) + 1) as real
  }

  /** One frame of the triangular sweep. */
  function NextSweep(v: Sweep, delta: real): Sweep {
    var comp := v.comp + v.used;
    var used := if comp > COMP_MAX then -delta else v.used;
    Sweep(comp, if comp < COMP_MIN then delta else used)
  }

  function SweepAfter(frames: nat, delta: real): Sweep {
    if frames == 0 then Sweep(1.5, delta) else NextSweep(SweepAfter(frames - 1, delta), delta)
  }

  predicate SweepOk(v: Sweep, delta: real) {
    && (v.used == delta || v.used == -delta)
    && COMP_MIN - delta <= v.comp <= COMP_MAX + delta
    && (v.comp > COMP_MAX ==> v.used == -delta)
    && (v.comp < COMP_MIN ==> v.used == delta)
  }

  /** In its first frame the sweep overshoots by one step; after that and for ever
      the speed stays within one step of [0.7, 1.5]. */
  lemma {:induction false} SweepStays(frames: nat, delta: real)
    requires 0.001 <= delta <= 0.003
    ensures SweepOk(SweepAfter(frames, delta), delta)
  {
    if frames > 0 {
      SweepStays(frames - 1, delta);
    }
  }

  // ---- The cursor ----------------------------------------------------------------

  /** The cursor positions visited from `t` at distance `step`, up to `lim`. */
  function Positions(t: real, step: real, lim: real): (ps: seq<real>)
    requires step >= 1.0
    ensures forall i :: 0 <= i < |ps| ==> t <= ps[i] < lim
    decreases lim - t
  {
    if t < lim then [t] + Positions(t + step, step, lim) else []
  }

  /** Where the cursor stands after passing `lim`. */
  function Landing(t: real, step: real, lim: real): real
    requires step >= 1.0
    decreases lim - t
  {
    if t < lim then Landing(t + step, step, lim) else t
  }

  /** The travel is the number of positions times the step; the cursor overshoots
      the limit by less than one step. */
  lemma {:induction false} LandingTravel(t: real, step: real, lim: real)
    requires step >= 1.0 && t < lim + step
    ensures Landing(t, step, lim) == t + |Positions(t, step, lim)| as real * step
    ensures lim <= Landing(t, step, lim) < lim + step
    decreases lim - t
  {
    if t < lim {
      LandingTravel(t + step, step, lim);
      var m := |Positions(t + step, step, lim)|;
      assert (m + 1) as real * step == m as real * step + step;
    }
  }

  /** The positions are equally spaced. */
  lemma {:induction false} PositionsAt(t: real, step: real, lim: real, i: nat)
    requires step >= 1.0 && i < |Positions(t, step, lim)|
    ensures Positions(t, step, lim)[i] == t + i as real * step
    decreases i
  {
    if i > 0 {
      PositionsAt(t + step, step, lim, i - 1);
      assert i as real * step == (i - 1) as real * step + step;
    }
  }

  lemma FloorShift(x: real, n: int)
    ensures (x + n as real).Floor == x.Floor + n
  {
  }

  /** The samples of `up` under the cursor positions `ps`. */
  predicate Sampled(out: seq<Sample>, up: seq<Sample>, ps: seq<real>) {
    && |out| == |ps|
    && forall i :: 0 <= i < |ps| ==> 0 <= ps[i].Floor < |up| && out[i] == up[ps[i].Floor]
  }

  lemma SampledLength(out: seq<Sample>, up: seq<Sample>, ps: seq<real>)
    requires Sampled(out, up, ps)
    ensures |out| == |ps|
  {
  }

  lemma SampledNone(up: seq<Sample>)
    ensures Sampled([], up, [])
  {
  }

  lemma SampledNext(out: seq<Sample>, up: seq<Sample>, ps: seq<real>, x: Sample, t: real)
    requires Sampled(out, up, ps) && 0 <= t.Floor < |up| && x == up[t.Floor]
    ensures Sampled(out + [x], up, ps + [t])
  {
  }

  lemma PositionsNext(t: real, step: real, lim: real, done: seq<real>)
    requires step >= 1.0 && t < lim
    ensures done + Positions(t, step, lim) == done + [t] + Positions(t + step, step, lim)
    ensures Landing(t, step, lim) == Landing(t + step, step, lim)
  {
  }

  lemma PositionsEnd(t: real, step: real, lim: real, done: seq<real>)
    requires step >= 1.0 && t >= lim
    ensures done + Positions(t, step, lim) == done && Landing(t, step, lim) == t
  {
  }

  lemma SampledMore(out: seq<Sample>, up: seq<Sample>, more: seq<Sample>, ps: seq<real>)
    requires Sampled(out, up, ps)
    ensures Sampled(out, up + more, ps)
  {
  }

  // ---- The cursor over a whole run ---------------------------------------------------

  /** Upsampled samples in `k` frames. */
  function Upto(k: nat, l: nat): nat {
    k * l
  }

  lemma UptoNext(k: nat, l: nat)
    ensures Upto(0, l) == 0 && Upto(k + 1, l) == Upto(k, l) + l
  {
  }

  /** How far the cursor moves per output sample in frame `k`: five times the speed. */
  function StepAt(k: nat, delta: real): (s: real)
    requires 0.001 <= delta <= 0.003
    ensures 3.485 <= s <= 7.515
  {
    SweepStays(k, delta);
    5.0 * SweepAfter(k, delta).comp
  }

  /** Where the cursor stands in the whole upsampled stream before frame `k`. */
  function Cursor(k: nat, delta: real, l: nat): real
    requires 0.001 <= delta <= 0.003
  {
    if k == 0 then 0.0 else Landing(Cursor(k - 1, delta, l), StepAt(k - 1, delta), Upto(k, l) as real)
  }

  /** The positions at which frame `k` reads the upsampled stream. */
  function ReadsAt(k: nat, delta: real, l: nat): seq<real>
    requires 0.001 <= delta <= 0.003
  {
    Positions(Cursor(k, delta, l), StepAt(k, delta), Upto(k + 1, l) as real)
  }

  class Cycler {
    const fsKhz: nat
    const delta: real
    var readIdx: real
    var comp: real
    var used: real
    var buf: array<Sample>
    ghost var up: seq<Sample>  // all upsampled audio so far
    ghost var frames: nat      // how many frames it came in
    ghost var travel: real     // how far the cursor has moved

    function L10Out(): nat {
      10 * fsKhz * UP * EXTRA_UP
    }

    function LExtra(): nat {
      fsKhz * EXTRA_BUF_MS * UP * EXTRA_UP
    }

    /** How far the cursor moves per output sample: PCE_UP_FAC times the speed. */
    function Step(): real
      reads this
    {
      5.0 * comp
    }

    /** The cursor is less than one step into the frame that comes next. */
    ghost predicate Valid()
      reads this
    {
      && 1 <= fsKhz <= 48 && 0.001 <= delta <= 0.003
      && buf.Length == UP * EXTRA_UP * (BUF_FRAMES * 10 + EXTRA_BUF_MS) * 48
      && Sweep(comp, used) == SweepAfter(frames, delta)
      && SweepOk(Sweep(comp, used), delta)
      && |up| == Upto(frames, L10Out()) && travel == Cursor(frames, delta, L10Out())
      && travel == |up| as real + (readIdx - LExtra() as real)
      && 0.0 <= readIdx - LExtra() as real < 5.0 * (COMP_MAX + delta)
    }

    constructor (fsHz: nat, strength: int)
      requires 1000 <= fsHz < 49000
      ensures Valid() && fresh(buf) && fsKhz == fsHz / 1000 && delta == Delta(strength)
      ensures up == [] && frames == 0 && travel == 0.0
    {
      fsKhz := fsHz / 1000;
      delta := Delta(strength);
      buf := new Sample[UP * EXTRA_UP * (BUF_FRAMES * 10 + EXTRA_BUF_MS) * 48](_ => 0);
      readIdx := ((fsHz / 1000) * EXTRA_BUF_MS * UP * EXTRA_UP) as real;
      comp, used := 1.5, Delta(strength);
      up, frames, travel := [], 0, 0.0;
    }

    /** The sample under the cursor lies in the fresh frame. */
    method Pick(ghost block: seq<Sample>) returns (x: Sample)
      requires |block| == L10Out() && LExtra() + L10Out() <= buf.Length
      requires forall j :: 0 <= j < |block| ==> buf[LExtra() + j] == block[j]
      requires travel == |up| as real + (readIdx - LExtra() as real)
      requires 0.0 <= readIdx - LExtra() as real < L10Out() as real
      ensures |up| <= travel.Floor < |up| + |block| && x == (up + block)[travel.Floor]
    {
      var idx := Truncate(readIdx);
      FloorShift(travel, LExtra() - |up|);
      assert readIdx == travel + (LExtra() - |up|) as real;
      assert block[idx - LExtra()] == (up + block)[travel.Floor];
      x := buf[idx];
    }

    /** The cursor loop over the fresh frame in `buf`. */
    method Scan(ghost block: seq<Sample>) returns (tmp: seq<Sample>)
      requires |block| == L10Out() && LExtra() + L10Out() <= buf.Length && Step() >= 1.0
      requires travel == |up| as real + (readIdx - LExtra() as real) && 0.0 <= readIdx - LExtra() as real
      requires forall j :: 0 <= j < |block| ==> buf[LExtra() + j] == block[j]
      modifies this`readIdx, this`travel
      ensures Sampled(tmp, up + block, Positions(old(travel), Step(), (|up| + L10Out()) as real))
      ensures travel == Landing(old(travel), Step(), (|up| + L10Out()) as real)
      ensures travel == |up| as real + (readIdx - LExtra() as real)
    {
      hide Positions, Landing, Sampled;
      var l10Out, lExtra := L10Out(), LExtra();
      ghost var lim, step, base := (|up| + l10Out) as real, Step(), |up|;
      ghost var done: seq<real> := [];
      tmp := [];
      assert Sampled(tmp, up + block, done) by { SampledNone(up + block); }
      while readIdx < (l10Out + lExtra) as real
        invariant Sampled(tmp, up + block, done)
        invariant Positions(old(travel), step, lim) == done + Positions(travel, step, lim)
        invariant Landing(old(travel), step, lim) == Landing(travel, step, lim)
        invariant travel == base as real + (readIdx - lExtra as real)
        invariant base as real <= travel
        decreases lim - travel
      {
        var x := Pick(block);
        SampledNext(tmp, up + block, done, x, travel);
        PositionsNext(travel, step, lim, done);
        tmp := tmp + [x];
        done := done + [travel];
        readIdx := readIdx + 5.0 * comp;
        travel := travel + step;
      }
      PositionsEnd(travel, step, lim, done);
    }

    /** One ten millisecond frame up to the call of time_scale_insert: upsampled
        audio in, the samples under the moving cursor out. */
    method NextFrame(block: seq<Sample>) returns (tmp: seq<Sample>)
      requires Valid() && |block| == L10Out()
      modifies this`readIdx, this`comp, this`used, this`up, this`frames, this`travel, buf
      ensures Valid() && up == old(up) + block && frames == old(frames) + 1
      ensures Sampled(tmp, up, ReadsAt(old(frames), delta, L10Out()))
      ensures 4 * fsKhz + 2 <= |tmp| <= 4 * (10 * fsKhz)
    {
      hide SweepAfter, Positions, Landing, Sampled, Upto, SweepOk;
      var l10Out, lExtra := L10Out(), LExtra();
      ghost var k, t, v, base := frames, travel, comp, |up|;
      ghost var lim := (base + l10Out) as real;
      FrameReads(k, fsKhz, t, v, base, lim, delta);
      forall j | 0 <= j < |block| {
        buf[lExtra + j] := block[j];
      }
      tmp := Scan(block);
      SampledLength(tmp, up + block, ReadsAt(k, delta, l10Out));
      SweepMove();
      forall j | 0 <= j < lExtra {
        buf[j] := buf[j + l10Out];
      }
      readIdx := readIdx - l10Out as real;
      up := up + block;
    }

    method SweepMove()
      requires Sweep(comp, used) == SweepAfter(frames, delta) && 0.001 <= delta <= 0.003
      modifies this`comp, this`used, this`frames
      ensures frames == old(frames) + 1 && Sweep(comp, used) == SweepAfter(frames, delta)
      ensures SweepOk(Sweep(comp, used), delta)
    {
      comp := comp + used;
      if comp > COMP_MAX {
        used := -delta;
      }
      if comp < COMP_MIN {
        used := delta;
      }
      frames := frames + 1;
      SweepStays(frames, delta);
    }
  }

  /** What frame `k` reads, from a cursor less than one step into it. */
  lemma FrameReads(k: nat, khz: nat, t: real, v: real, base: nat, lim: real, delta: real)
    requires 1 <= khz <= 48 && 0.001 <= delta <= 0.003
    requires t == Cursor(k, delta, 100 * khz) && v == SweepAfter(k, delta).comp
    requires base == Upto(k, 100 * khz) && lim == (base + 100 * khz) as real
    requires base as real <= t < base as real + 5.0 * (COMP_MAX + delta)
    ensures COMP_MIN - delta <= v <= COMP_MAX + delta && 5.0 * v >= 1.0
    ensures Upto(k + 1, 100 * khz) == base + 100 * khz
    ensures ReadsAt(k, delta, 100 * khz) == Positions(t, 5.0 * v, lim)
    ensures Cursor(k + 1, delta, 100 * khz) == Landing(t, 5.0 * v, lim)
    ensures lim <= Landing(t, 5.0 * v, lim) < lim + 5.0 * (COMP_MAX + delta)
    ensures 4 * khz + 2 <= |ReadsAt(k, delta, 100 * khz)| <= 40 * khz
  {
    SweepStays(k, delta);
    UptoNext(k, 100 * khz);
    ReadsUnfold(k, delta, 100 * khz, t, 5.0 * v, lim);
    hide Positions, Landing, SweepAfter, Upto, StepAt, Cursor, ReadsAt;
    FrameBounds(khz, t, v, base as real, lim, delta);
  }

  lemma ReadsUnfold(k: nat, delta: real, l: nat, t: real, step: real, lim: real)
    requires 0.001 <= delta <= 0.003
    requires t == Cursor(k, delta, l) && step == 5.0 * SweepAfter(k, delta).comp && lim == Upto(k + 1, l) as real
    ensures step >= 1.0
    ensures ReadsAt(k, delta, l) == Positions(t, step, lim) && Cursor(k + 1, delta, l) == Landing(t, step, lim)
  {
    hide Positions, Landing, SweepAfter, Upto;
    assert StepAt(k, delta) == step;
  }

  lemma FrameBounds(khz: nat, t: real, v: real, base: real, lim: real, delta: real)
    requires 1 <= khz <= 48 && 0.001 <= delta <= 0.003 && COMP_MIN - delta <= v <= COMP_MAX + delta
    requires base <= t < base + 5.0 * (COMP_MAX + delta) && lim == base + (100 * khz) as real
    ensures lim <= Landing(t, 5.0 * v, lim) < lim + 5.0 * (COMP_MAX + delta)
    ensures 4 * khz + 2 <= |Positions(t, 5.0 * v, lim)| <= 40 * khz
  {
    hide Positions, Landing;
    CountBounds(khz, base, t, v, delta);
    LandingTravel(t, 5.0 * v, lim);
  }

  /** A frame yields between 4 * k + 2 and 40 * k samples at k kHz. */
  lemma CountBounds(k: nat, base: real, t: real, comp: real, delta: real)
    requires 1 <= k <= 48 && 0.001 <= delta <= 0.003
    requires COMP_MIN - delta <= comp <= COMP_MAX + delta
    requires base <= t < base + 5.0 * (COMP_MAX + delta)
    ensures 4 * k + 2 <= |Positions(t, 5.0 * comp, base + (100 * k) as real)| <= 40 * k
  {
    var step, lim := 5.0 * comp, base + (100 * k) as real;
    var n := |Positions(t, step, lim)|;
    hide Positions, Landing;
    LandingTravel(t, step, lim);
    var travel := n as real * step;
    assert Landing(t, step, lim) == t + travel;
    TravelWithin(n as real, step, travel);
    assert lim - t <= travel < lim - t + step;
    assert 3.485 <= step <= 7.515;
    FrameCount(n, k);
  }

  lemma FrameCount(n: nat, k: nat)
    requires 1 <= k
    requires n as real * 3.485 < (100 * k) as real + 7.515
    requires n as real * 7.515 >= (100 * k) as real - 7.515
    ensures 4 * k + 2 <= n <= 40 * k
  {
    assert (1000 * n) as real == 1000.0 * n as real;
    assert 3485 * n < 100000 * k + 7515;
    assert 7515 * n >= 100000 * k - 7515;
  }

  lemma TravelWithin(n: real, step: real, travel: real)
    requires 0.0 <= n && 3.485 <= step <= 7.515 && travel == n * step
    ensures n * 3.485 <= travel <= n * 7.515
  {
    ProductNonNegative(n, step - 3.485);
    ProductNonNegative(n, 7.515 - step);
  }

  // ---- Feeding the time-scale buffer -------------------------------------------------

  /** A lag at 16 kHz in samples at twice the rate of k kHz. */
  function Upsampled(k: nat, lag: int): int {
    (EXTRA_UP * k * lag) / 16
  }

  lemma UpsampledWithin(k: nat, lag: int)
    requires 32 <= lag <= 288
    ensures 4 * k <= Upsampled(k, lag) <= 36 * k
  {
    var x := k * lag;
    assert 32 * k <= x <= 288 * k;
    assert EXTRA_UP * k * lag == 2 * x;
  }

  function ConvertLag(k: nat, comp: real, lag: int): int
    requires comp != 0.0
  {
    Truncate(Upsampled(k, lag) as real * (1.0 / comp))
  }

  /** A lag at 16 kHz becomes the lag at twice the rate, and that divided by the speed; both
      round down. */
  lemma LagExact(k: nat, comp: real, lag: nat)
    requires comp > 0.0
    ensures var x, z := Upsampled(k, lag), ConvertLag(k, comp, lag);
            && 16 * x <= 2 * k * lag < 16 * x + 16
            && z as real * comp <= x as real < z as real * comp + comp
  {
    var x, z := Upsampled(k, lag), ConvertLag(k, comp, lag);
    var y := x as real * (1.0 / comp);
    Lengths(2 * k * lag, x);
    DivideBack(x as real, comp);
    YNonNegative(x, comp, y);
    hide Upsampled;
    assert z as real <= y < z as real + 1.0;
    hide ConvertLag, Truncate;
    Spread(z as real, y, comp, y * comp);
  }

  lemma Lengths(p: nat, x: int)
    requires x == p / 16
    ensures 16 * x <= p < 16 * x + 16
  {
  }

  lemma YNonNegative(x: int, comp: real, y: real)
    requires comp > 0.0 && x >= 0 && y == x as real * (1.0 / comp)
    ensures y >= 0.0
  {
    ProductNonNegative(x as real, 1.0 / comp);
  }

  lemma Spread(z: real, y: real, comp: real, x: real)
    requires comp > 0.0 && z <= y < z + 1.0 && x == y * comp
    ensures z * comp <= x < z * comp + comp
  {
    var e := y - z;
    ProductNonNegative(e, comp);
    Fraction(e, comp, e * comp);
    Regroup(z, e, y, comp);
  }

  lemma Regroup(z: real, e: real, y: real, comp: real)
    requires y == z + e
    ensures y * comp == z * comp + e * comp
  {
  }

  lemma LagWithin(k: nat, comp: real, lag: int)
    requires 2 <= k && 32 <= lag <= 288 && 0.697 <= comp <= 1.503
    ensures 2 * k + 1 <= ConvertLag(k, comp, lag) <= 52 * k
  {
    hide Upsampled, Truncate;
    var x := Upsampled(k, lag);
    UpsampledWithin(k, lag);
    var y := x as real * (1.0 / comp);
    DivideBack(x as real, comp);
    QuotientWithin(y, comp, k, x);
    TruncateWithin(y, 2 * k + 1, 52 * k);
  }

  lemma DivideBack(x: real, comp: real)
    requires comp != 0.0
    ensures x * (1.0 / comp) * comp == x
  {
  }

  lemma QuotientWithin(y: real, comp: real, k: nat, x: int)
    requires 2 <= k && 4 * k <= x <= 36 * k && 0.697 <= comp <= 1.503 && y * comp == x as real
    ensures (2 * k + 1) as real <= y <= (52 * k) as real
  {
    var lo, hi := (2 * k + 1) as real, (52 * k) as real;
    var lc, hc := lo * comp, hi * comp;
    SlowerThan(lo, comp, lc);
    FasterThan(hi, comp, hc);
    Ordered(lo, y, comp, lc, x as real);
    Ordered(y, hi, comp, x as real, hc);
  }

  lemma SlowerThan(a: real, comp: real, ac: real)
    requires a >= 0.0 && comp <= 1.503 && ac == a * comp
    ensures ac <= 1.503 * a
  {
    ProductNonNegative(a, 1.503 - comp);
    assert a * (1.503 - comp) == 1.503 * a - ac;
  }

  lemma FasterThan(a: real, comp: real, ac: real)
    requires a >= 0.0 && comp >= 0.697 && ac == a * comp
    ensures ac >= 0.697 * a
  {
    ProductNonNegative(a, comp - 0.697);
    assert a * (comp - 0.697) == ac - 0.697 * a;
  }

  function Setup(fsHz: nat): Config {
    var fs, k := (fsHz * EXTRA_UP) / 1000, fsHz / 1000;
    Config(fs, fs, 26 * fs, 40 * k, 20 * k)
  }

  lemma SetupSound(fsHz: nat)
    requires 2000 <= fsHz < 49000
    ensures Setup(fsHz).Sound()
  {
  }

  lemma StepFits(fsHz: nat, x: Step)
    requires 2000 <= fsHz
    requires var k := fsHz / 1000;
             && 4 * k + 2 <= |x.input| <= 40 * k && x.n == 20 * k
             && 0 <= x.minL && (x.voiced ==> 2 * k + 1 <= x.minL && x.maxL <= 52 * k)
    ensures StepOk(Setup(fsHz), x)
  {
    TwiceAsFast(fsHz, fsHz / 1000, (fsHz * EXTRA_UP) / 1000);
  }

  lemma TwiceAsFast(hz: nat, k: nat, fs: nat)
    requires 1000 * k <= hz < 1000 * k + 1000 && 1000 * fs <= 2 * hz < 1000 * fs + 1000
    ensures 2 * k <= fs <= 2 * k + 1
  {
  }

  /** The range searched runs from the smallest to the largest lag of a voiced frame, converted
      at the speed the sweep has reached. */
  ghost predicate Searches(x: Step, f: Frame, k: nat, comp: real) {
    if f.voiced then comp != 0.0 && Covers(x.minL, x.maxL, Converted(k, comp, f.lags)) else (x.minL, x.maxL) == (0, 0)
  }

  function Converted(k: nat, comp: real, lags: seq<int>): seq<int>
    requires comp != 0.0
  {
    seq(|lags|, i requires 0 <= i < |lags| => ConvertLag(k, comp, lags[i]))
  }

  /** find_min_max_pitch and the arguments of one insertion and extraction. */
  method NextStep(fsHz: nat, comp: real, f: Frame, tmp: seq<Sample>) returns (x: Step)
    requires 2000 <= fsHz < 49000 && 0.697 <= comp <= 1.503
    requires f.Ok(100 * (fsHz / 1000)) && 4 * (fsHz / 1000) + 2 <= |tmp| <= 40 * (fsHz / 1000)
    ensures StepOk(Setup(fsHz), x) && IsStep(x, f, tmp, 20 * (fsHz / 1000))
    ensures Searches(x, f, fsHz / 1000, comp)
  {
    hide ConvertLag, StepOk;
    var k := fsHz / 1000;
    var minL, maxL := 0, 0;
    if f.voiced {
      forall j | 0 <= j < PitchRange.SUBFRAMES
        ensures 2 * k + 1 <= ConvertLag(k, comp, f.lags[j]) <= 52 * k
      {
        LagWithin(k, comp, f.lags[j]);
      }
      minL, maxL := PitchRange.FindMinMax(f.lags, lag => ConvertLag(k, comp, lag), true);
    }
    x := Step(tmp, 10 * k * EXTRA_UP, f.voiced, minL, maxL, f.scores);
    StepFits(fsHz, x);
    assert forall i :: 0 <= i < PitchRange.SUBFRAMES ==>
                         Converted(k, comp, f.lags)[i] == ConvertLag(k, comp, f.lags[i]);
  }

  /** Where a run of the cursor starts, its sweep and its frame length. */
  datatype Track = Track(first: nat, delta: real, l: nat) {
    predicate Ok() { 0.001 <= delta <= 0.003 }

    /** The positions read in the frame `i` frames after the start. */
    function Reads(i: nat): seq<real>
      requires Ok()
    {
      ReadsAt(first + i, delta, l)
    }

    /** The speed of the sweep after that frame. */
    function Speed(i: nat): real { SweepAfter(first + i + 1, delta).comp }
  }

  /** Step by step: the samples of the upsampled stream under the cursor go in, `n` samples
      come out, and the pitch searched is that of the frame. */
  ghost predicate Follow(xs: seq<Step>, fs: seq<Frame>, n: nat, up: seq<Sample>, k: Track)
    requires k.Ok()
  {
    && |xs| == |fs|
    && forall i :: 0 <= i < |xs| ==>
         && IsStep(xs[i], fs[i], xs[i].input, n) && Sampled(xs[i].input, up, k.Reads(i))
         && Searches(xs[i], fs[i], n / 20, k.Speed(i))
  }

  lemma FollowNext(xs: seq<Step>, fs: seq<Frame>, i: nat, x: Step, n: nat, up: seq<Sample>, k: Track)
    requires k.Ok()
    requires i < |fs| && Follow(xs, fs[..i], n, up, k) && IsStep(x, fs[i], x.input, n)
    requires Sampled(x.input, up + fs[i].block, k.Reads(i)) && Searches(x, fs[i], n / 20, k.Speed(i))
    ensures Follow(xs + [x], fs[..i + 1], n, up + fs[i].block, k)
  {
    hide Sampled, Track.Reads, Track.Speed, Searches;
    forall j | 0 <= j < |xs|
      ensures Sampled(xs[j].input, up + fs[i].block, k.Reads(j))
    {
      SampledMore(xs[j].input, up, fs[i].block, k.Reads(j));
    }
  }

  lemma FollowNothing(fs: seq<Frame>, n: nat, up: seq<Sample>, k: Track)
    requires k.Ok()
    ensures Follow([], fs[..0], n, up, k) && Blocks(fs[..0]) == []
  {
  }

  lemma {:induction false} FollowTotal(xs: seq<Step>, fs: seq<Frame>, n: nat, up: seq<Sample>, k: Track)
    requires k.Ok()
    requires Follow(xs, fs, n, up, k)
    ensures Total(xs) == n * |fs|
  {
    hide Sampled, Track.Reads, Track.Speed, Searches;
    if xs != [] {
      var j := |xs| - 1;
      FollowTotal(xs[..j], fs[..j], n, up, k);
      assert IsStep(xs[j], fs[j], xs[j].input, n);
      assert n * (j + 1) == n * j + n;
    }
  }

  function Blocks(fs: seq<Frame>): seq<Sample> {
    if fs == [] then [] else Blocks(fs[..|fs| - 1]) + fs[|fs| - 1].block
  }

  lemma BlocksNext(fs: seq<Frame>, i: nat, up: seq<Sample>)
    requires i < |fs|
    ensures up + Blocks(fs[..i + 1]) == up + Blocks(fs[..i]) + fs[i].block
  {
    assert fs[..i + 1][..i] == fs[..i];
  }

  /** One frame through the cursor and the time-scale buffer. */
  method FeedFrame(pc: Cycler, ts: TimeScaler, fsHz: nat, f: Frame, before: seq<Sample>,
                   ghost steps: seq<Step>, ghost k: Track, ghost i: nat)
    returns (out: seq<Sample>, ghost x: Step)
    requires 2000 <= fsHz < 49000 && pc.Valid() && pc.fsKhz == fsHz / 1000 && Setup(fsHz).Sound()
    requires ts.Valid() && ts.fsOut == ts.fsIn == (fsHz * EXTRA_UP) / 1000
    requires pc.buf != ts.buf && f.Ok(100 * (fsHz / 1000))
    requires k.Ok() && k == Track(k.first, pc.delta, pc.L10Out()) && pc.frames == k.first + i
    requires StepsOk(Setup(fsHz), steps) && (ts.q, before) == Run(Setup(fsHz), steps)
    modifies pc`readIdx, pc`comp, pc`used, pc`up, pc`frames, pc`travel, pc.buf
    modifies ts`readIdx, ts`writeIdx, ts`q, ts`maxL, ts`minL, ts`voiced, ts.buf
    ensures pc.Valid() && pc.frames == old(pc.frames) + 1 && pc.up == old(pc.up) + f.block
    ensures ts.Valid() && StepsOk(Setup(fsHz), steps + [x]) && (ts.q, out) == Run(Setup(fsHz), steps + [x])
    ensures IsStep(x, f, x.input, 20 * (fsHz / 1000))
    ensures Sampled(x.input, pc.up, k.Reads(i)) && Searches(x, f, fsHz / 1000, k.Speed(i))
  {
    hide Run, StepOk, Config.Sound, SweepAfter, Upto, Cursor, Sampled, ReadsAt, Searches;
    var tmp := pc.NextFrame(f.block);
    var y := NextStep(fsHz, pc.comp, f, tmp);
    out := ts.Continue(y, before, Setup(fsHz), steps);
    x := y;
  }

  /** And what it adds to the run. */
  method ExtendRun(pc: Cycler, ts: TimeScaler, fsHz: nat, frames: seq<Frame>, i: nat, before: seq<Sample>,
                   ghost steps: seq<Step>, ghost k: Track, ghost n: nat)
    returns (out: seq<Sample>, ghost x: Step)
    requires 2000 <= fsHz < 49000 && pc.Valid() && pc.fsKhz == fsHz / 1000 && Setup(fsHz).Sound()
    requires ts.Valid() && ts.fsOut == ts.fsIn == (fsHz * EXTRA_UP) / 1000
    requires pc.buf != ts.buf && i < |frames| && frames[i].Ok(100 * (fsHz / 1000)) && n == 20 * (fsHz / 1000)
    requires k.Ok() && k == Track(k.first, pc.delta, pc.L10Out()) && pc.frames == k.first + i
    requires StepsOk(Setup(fsHz), steps) && (ts.q, before) == Run(Setup(fsHz), steps)
    requires Follow(steps, frames[..i], n, pc.up, k)
    modifies pc`readIdx, pc`comp, pc`used, pc`up, pc`frames, pc`travel, pc.buf
    modifies ts`readIdx, ts`writeIdx, ts`q, ts`maxL, ts`minL, ts`voiced, ts.buf
    ensures pc.Valid() && pc.frames == old(pc.frames) + 1 && pc.up == old(pc.up) + frames[i].block
    ensures ts.Valid() && StepsOk(Setup(fsHz), steps + [x]) && (ts.q, out) == Run(Setup(fsHz), steps + [x])
    ensures Follow(steps + [x], frames[..i + 1], n, pc.up, k)
  {
    hide Run, StepOk, Config.Sound, Follow, Sampled, ReadsAt, Cycler.Valid, TimeScaler.Valid, Setup, Track.Ok,
      Track.Reads, Track.Speed, IsStep, Searches;
    ghost var up := pc.up;
    out, x := FeedFrame(pc, ts, fsHz, frames[i], before, steps, k, i);
    FollowNext(steps, frames, i, x, n, up, k);
  }

  /** The frame loop of pitch_cycler_process, up to the final downsampling: a run of the
      time-scale specification whose inputs are the samples of the upsampled stream under
      the moving cursor; every frame yields twice ten milliseconds. */
  method Process(pc: Cycler, ts: TimeScaler, fsHz: nat, frames: seq<Frame>)
    returns (out: seq<Sample>, ghost steps: seq<Step>)
    requires 2000 <= fsHz < 49000 && pc.Valid() && pc.fsKhz == fsHz / 1000
    requires ts.Valid() && ts.q == Empty() && ts.fsOut == ts.fsIn == (fsHz * EXTRA_UP) / 1000
    requires pc.buf != ts.buf && FramesOk(frames, 100 * (fsHz / 1000))
    modifies pc`readIdx, pc`comp, pc`used, pc`up, pc`frames, pc`travel, pc.buf
    modifies ts`readIdx, ts`writeIdx, ts`q, ts`maxL, ts`minL, ts`voiced, ts.buf
    ensures pc.Valid() && pc.frames == old(pc.frames) + |frames| && pc.up == old(pc.up) + Blocks(frames)
    ensures ts.Valid() && Setup(fsHz).Sound() && Settled(Setup(fsHz), ts.q)
    ensures var k := Track(old(pc.frames), pc.delta, pc.L10Out());
            k.Ok() && Follow(steps, frames, 20 * (fsHz / 1000), pc.up, k)
    ensures StepsOk(Setup(fsHz), steps) && (ts.q, out) == Run(Setup(fsHz), steps)
    ensures |out| == 20 * (fsHz / 1000) * |frames|
  {
    SetupSound(fsHz);
    ghost var c := Setup(fsHz);
    ghost var k, start := Track(pc.frames, pc.delta, pc.L10Out()), pc.up;
    assert k.Ok();
    hide Run, StepOk, Config.Sound, Follow, Blocks, Sampled, ReadsAt, Cycler.Valid, TimeScaler.Valid, Setup, Track.Ok,
      Track.Reads, Track.Speed, IsStep, Searches;
    var n := 20 * (fsHz / 1000);
    out, steps := [], [];
    RunNothing(c);
    FollowNothing(frames, n, pc.up, k);
    for i := 0 to |frames|
      invariant pc.Valid() && pc.frames == k.first + i && pc.up == start + Blocks(frames[..i]) && ts.Valid()
      invariant Follow(steps, frames[..i], n, pc.up, k) && StepsOk(c, steps) && (ts.q, out) == Run(c, steps)
    {
      BlocksNext(frames, i, start);
      ghost var x: Step;
      out, x := ExtendRun(pc, ts, fsHz, frames, i, out, steps, k, n);
      steps := steps + [x];
    }
    assert frames[..|frames|] == frames;
    FollowTotal(steps, frames, n, pc.up, k);
  }
}
