/** The pitch range handed to the time-scale buffer. pitch_shift.cpp,
    pace_shift.cpp and pitch_cycler.cpp share this loop and differ in how they
    convert a pitch lag at 16 kHz. */
module PitchRange {

  const SUBFRAMES := 4

  /** Lags of a voiced frame at 16 kHz lie between 2 and 18 milliseconds. */
  predicate LagsOk(lags: seq<int>) {
    |lags| == SUBFRAMES && forall i :: 0 <= i < SUBFRAMES ==> 32 <= lags[i] <= 288
  }

  /** Smallest and largest converted lag, seen from 1000 and 0. */
  method FindMinMax(lags: seq<int>, convert: int -> int, voiced: bool) returns (minL: int, maxL: int)
    requires |lags| == SUBFRAMES
    ensures !voiced ==> (minL, maxL) == (1000, 0)
    ensures voiced ==>
              && minL <= 1000 && 0 <= maxL
              && (forall i :: 0 <= i < SUBFRAMES ==> minL <= convert(lags[i]) <= maxL)
              && (minL == 1000 || exists i :: 0 <= i < SUBFRAMES && minL == convert(lags[i]))
              && (maxL == 0 || exists i :: 0 <= i < SUBFRAMES && maxL == convert(lags[i]))
  {
    maxL, minL := 0, 1000;
    if voiced {
      for i := 0 to SUBFRAMES
        invariant minL <= 1000 && 0 <= maxL
        invariant forall j :: 0 <= j < i ==> minL <= convert(lags[j]) <= maxL
        invariant minL == 1000 || exists j :: 0 <= j < i && minL == convert(lags[j])
        invariant maxL == 0 || exists j :: 0 <= j < i && maxL == convert(lags[j])
      {
        var pitchL := convert(lags[i]);
        if pitchL > maxL {
          maxL := pitchL;
        }
        if pitchL < minL {
          minL := pitchL;
        }
      }
    }
  }
}

/** One ten millisecond frame as it reaches an effect: the pitch analysis of the
    frame, the samples to insert and the similarity scores of the search. */
module PitchFrames {
  import opened Samples
  import opened TimeScaleSpec
  import opened Wrappers
  import PitchRange

  datatype Frame = Frame(voiced: bool, lags: seq<int>, block: seq<Sample>, scores: int -> Option<real>) {
    predicate Ok(n: nat) {
      |lags| == PitchRange.SUBFRAMES && (voiced ==> PitchRange.LagsOk(lags)) && |block| == n
    }
  }

  predicate FramesOk(frames: seq<Frame>, n: nat) {
    forall i :: 0 <= i < |frames| ==> frames[i].Ok(n)
  }

  /** The step inserts this input, extracts `n` samples and searches this frame's pitch. */
  ghost predicate IsStep(x: Step, f: Frame, input: seq<Sample>, n: nat) {
    x.input == input && x.n == n && x.voiced == f.voiced && x.scores == f.scores
  }

  ghost predicate AreSteps(xs: seq<Step>, fs: seq<Frame>, n: nat) {
    |xs| == |fs| && forall i :: 0 <= i < |xs| ==> IsStep(xs[i], fs[i], fs[i].block, n)
  }

  lemma AreNoSteps(fs: seq<Frame>, n: nat)
    ensures AreSteps([], fs[..0], n) && fs[..|fs|] == fs
  {
  }

  lemma AreStepsNext(xs: seq<Step>, fs: seq<Frame>, i: nat, x: Step, n: nat)
    requires i < |fs| && AreSteps(xs, fs[..i], n) && IsStep(x, fs[i], fs[i].block, n)
    ensures AreSteps(xs + [x], fs[..i + 1], n)
  {
  }

  lemma {:induction false} TotalOf(xs: seq<Step>, fs: seq<Frame>, n: nat)
    requires AreSteps(xs, fs, n)
    ensures Total(xs) == n * |fs|
  {
    if xs != [] {
      var k := |xs| - 1;
      TotalOf(xs[..k], fs[..k], n);
      assert IsStep(xs[k], fs[k], fs[k].block, n);
      assert n * (k + 1) == n * k + n;
    }
  }

  /** The smallest and the largest of the lags, seen from 1000 and 0. */
  predicate Covers(minL: int, maxL: int, lags: seq<int>) {
    && (forall lag :: lag in lags ==> minL <= lag <= maxL)
    && (minL == 1000 || minL in lags) && (maxL == 0 || maxL in lags)
  }
}

/** pitch_shift.cpp: resample by up/down, then restore the duration. */
module PitchShift {
  import opened Samples
  import opened TimeScaleSpec
  import opened TimeScale
  import opened PitchFrames
  import PitchRange

  datatype Ratio = Ratio(up: nat, down: nat)

  function Clamp(strength: int): (k: nat)
    ensures k <= 3
  {
    if strength < 0 then 0 else if strength > 3 then 3 else strength
  }

  function UpTable(strength: int): Ratio {
    [Ratio(9, 10), Ratio(4, 5), Ratio(7, 10), Ratio(3, 5)][Clamp(strength)]
  }

  function DownTable(strength: int): Ratio {
    [Ratio(9, 8), Ratio(5, 4), Ratio(11, 8), Ratio(3, 2)][Clamp(strength)]
  }

  const RATIOS := [Ratio(9, 10), Ratio(4, 5), Ratio(7, 10), Ratio(3, 5),
                   Ratio(9, 8), Ratio(5, 4), Ratio(11, 8), Ratio(3, 2)]

  /** The ratios of the two tables. */
  predicate RatioOk(q: Ratio) {
    q in RATIOS
  }

  /** The ratio an effect is created with. */
  function RatioFor(up: bool, strength: int): (q: Ratio)
    ensures RatioOk(q)
    ensures if up then q.up < q.down else q.down < q.up
  {
    if up then UpTable(strength) else DownTable(strength)
  }

  function ConvertLag(fs: nat, q: Ratio, lag: int): int
    requires q.down > 0
  {
    (fs * lag * q.up) / (16 * q.down)
  }

  /** Samples inserted per ten milliseconds of output. */
  function BlockLength(fs: nat, q: Ratio): int
    requires q.down > 0
  {
    (10 * fs * q.up) / q.down
  }

  function RateIn(fsHz: nat, q: Ratio): int
    requires q.down > 0
  {
    (fsHz * q.up) / q.down
  }

  function Setup(fsHz: nat, q: Ratio): Config
    requires RatioOk(q)
  {
    var fs := fsHz / 1000;
    Config(fs, RateIn(fsHz, q) / 1000, 27 * fs, BlockLength(fs, q), 10 * fs)
  }

  /** The conversions are the exact proportions rounded down: the lag from 16 kHz to the rate
      before resampling, the block and the rate by the ratio. */
  lemma Proportions(fs: nat, fsHz: nat, q: Ratio, lag: nat)
    requires q.down > 0
    ensures var z := ConvertLag(fs, q, lag); (16 * q.down) * z <= fs * lag * q.up < (16 * q.down) * z + 16 * q.down
    ensures var z := BlockLength(fs, q); q.down * z <= 10 * fs * q.up < q.down * z + q.down
    ensures var z := RateIn(fsHz, q); q.down * z <= fsHz * q.up < q.down * z + q.down
  {
    RoundsDown(fs * lag * q.up, 16 * q.down, ConvertLag(fs, q, lag));
    RoundsDown(10 * fs * q.up, q.down, BlockLength(fs, q));
    RoundsDown(fsHz * q.up, q.down, RateIn(fsHz, q));
  }

  lemma RoundsDown(p: int, d: nat, z: int)
    requires d > 0 && z == p / d
    ensures d * z <= p < d * z + d
  {
  }

  /** A stronger effect shifts further. */
  lemma StrengthOrders(up: bool, s: int, t: int)
    requires s <= t
    ensures var p, q := RatioFor(up, s), RatioFor(up, t);
            if up then q.up * p.down <= p.up * q.down else p.up * q.down <= q.up * p.down
  {
    var i, j := Clamp(s), Clamp(t);
    if i == 0 {} else if i == 1 {} else if i == 2 {} else {}
    if j == 0 {} else if j == 1 {} else if j == 2 {} else {}
  }

  /** Converted lags stay between 1 and 27 milliseconds. */
  lemma LagWithin(fs: nat, q: Ratio, lag: int)
    requires RatioOk(q) && 32 <= lag <= 288
    ensures fs <= ConvertLag(fs, q, lag) <= 27 * fs
  {
    var x := fs * lag;
    assert 32 * fs <= x <= 288 * fs;
    ScaledWithin(x, fs, q);
  }

  lemma ScaledWithin(x: int, fs: nat, q: Ratio)
    requires RatioOk(q) && 32 * fs <= x <= 288 * fs
    ensures fs <= (x * q.up) / (16 * q.down) <= 27 * fs
  {
    var k :| 0 <= k < 8 && q == RATIOS[k];
    if k == 0 {} else if k == 1 {} else if k == 2 {} else if k == 3 {}
    else if k == 4 {} else if k == 5 {} else if k == 6 {} else {}
  }

  /** At least one kilohertz on both sides, and no more than the ring is large enough for. */
  predicate RateOk(fsHz: nat, q: Ratio)
    requires q.down > 0
  {
    1000 <= fsHz < 164000 && 1000 <= RateIn(fsHz, q)
  }

  lemma RateWithin(fsHz: nat, q: Ratio)
    requires RatioOk(q)
    ensures fsHz / 2 <= RateIn(fsHz, q) <= (3 * fsHz) / 2
  {
    RatioWithin(q);
    hide RatioOk;
    Rescaled(fsHz, q);
  }

  lemma BlockWithin(fs: nat, q: Ratio)
    requires RatioOk(q)
    ensures 5 * fs <= BlockLength(fs, q) <= 15 * fs
  {
    RatioWithin(q);
    hide RatioOk;
    Rescaled(10 * fs, q);
  }

  lemma SetupSound(fsHz: nat, q: Ratio)
    requires RatioOk(q) && RateOk(fsHz, q)
    ensures Setup(fsHz, q).Sound()
    ensures RateIn(fsHz, q) >= 0
  {
    hide RatioOk, RateIn, BlockLength;
    RatioWithin(q);
    RateWithin(fsHz, q);
    BlockWithin(fsHz / 1000, q);
    RatesFit(fsHz, fsHz / 1000, RateIn(fsHz, q), RateIn(fsHz, q) / 1000);
  }

  lemma RatesFit(hz: nat, fs: nat, hzIn: nat, fsIn: nat)
    requires 1000 <= hz < 164000 && 1000 <= hzIn && hz <= 2 * hzIn + 1 && 2 * hzIn <= 3 * hz
    requires 1000 * fs <= hz < 1000 * fs + 1000 && 1000 * fsIn <= hzIn < 1000 * fsIn + 1000
    ensures 1 <= fs < 164 && fs <= 10 * fsIn <= 27 * fs
  {
  }

  lemma RatioWithin(q: Ratio)
    requires RatioOk(q)
    ensures 0 < q.down <= 2 * q.up && 2 * q.up <= 3 * q.down
  {
    var k :| 0 <= k < 8 && q == RATIOS[k];
  }

  /** Rescaling by a ratio between one half and three halves, rounding down. */
  lemma Rescaled(n: nat, q: Ratio)
    requires 0 < q.down <= 2 * q.up && 2 * q.up <= 3 * q.down
    ensures n / 2 <= (n * q.up) / q.down <= (3 * n) / 2
  {
    RescaledBy(n, q.up, q.down, n * q.up, n * q.down, (n * q.up) / q.down);
  }

  lemma RescaledBy(n: nat, u: nat, d: nat, p: nat, m: nat, z: nat)
    requires 0 < d <= 2 * u && 2 * u <= 3 * d && p == n * u && m == n * d && z == p / d
    ensures n / 2 <= z <= (3 * n) / 2
  {
    Scaled(n, u, d, p, m);
    Divided(p, d, z, d * z);
    Quotient(n, p, d, m, z, d * z);
  }

  lemma Scaled(n: nat, u: nat, d: nat, p: nat, m: nat)
    requires p == n * u && m == n * d && d <= 2 * u && 2 * u <= 3 * d
    ensures m <= 2 * p <= 3 * m
  {
    MulLe(n, d, 2 * u);
    MulLe(n, 2 * u, 3 * d);
    assert n * (2 * u) == 2 * p && n * (3 * d) == 3 * m;
  }

  lemma Divided(p: nat, d: nat, z: nat, y: nat)
    requires d > 0 && z == p / d && y == d * z
    ensures y <= p < y + d
  {
  }

  lemma Quotient(n: nat, p: nat, d: nat, m: nat, z: nat, y: nat)
    requires d > 0 && m == n * d && m <= 2 * p <= 3 * m && y == d * z && y <= p < y + d
    ensures n / 2 <= z <= (3 * n) / 2
  {
    Multiples(d, z, y);
    Multiples(d, n, m);
    Samples.ProductStep(d, 3 * n, 2 * z);
    Samples.ProductStep(d, 2 * z + 1, n);
  }

  lemma Multiples(d: nat, z: nat, y: nat)
    requires y == d * z
    ensures d * (2 * z) == 2 * y && d * (3 * z) == 3 * y && d * (2 * z + 1) == 2 * y + d
  {
  }

  lemma MulLe(k: nat, a: int, b: int)
    ensures a <= b ==> k * a <= k * b
  {
  }

  /** The range searched runs from the smallest to the largest converted lag of a voiced
      frame, seen from 1000 and 0. */
  ghost predicate Searches(x: Step, f: Frame, fs: nat, q: Ratio)
    requires q.down > 0
  {
    if f.voiced then Covers(x.minL, x.maxL, Converted(fs, q, f.lags)) else (x.minL, x.maxL) == (1000, 0)
  }

  function Converted(fs: nat, q: Ratio, lags: seq<int>): seq<int>
    requires q.down > 0
  {
    seq(|lags|, i requires 0 <= i < |lags| => ConvertLag(fs, q, lags[i]))
  }

  ghost predicate AllSearch(xs: seq<Step>, frames: seq<Frame>, fs: nat, q: Ratio)
    requires q.down > 0
  {
    |xs| == |frames| && forall i :: 0 <= i < |xs| ==> Searches(xs[i], frames[i], fs, q)
  }

  lemma AllSearchNext(xs: seq<Step>, frames: seq<Frame>, i: nat, x: Step, fs: nat, q: Ratio)
    requires q.down > 0 && i < |frames| && AllSearch(xs, frames[..i], fs, q) && Searches(x, frames[i], fs, q)
    ensures AllSearch(xs + [x], frames[..i + 1], fs, q)
  {
    hide Searches;
  }

  /** find_min_max_pitch and the arguments of one insertion and extraction. */
  method NextStep(fsHz: nat, q: Ratio, f: Frame) returns (x: Step)
    requires RatioOk(q) && RateOk(fsHz, q) && f.Ok(BlockLength(fsHz / 1000, q))
    ensures StepOk(Setup(fsHz, q), x) && IsStep(x, f, f.block, 10 * (fsHz / 1000))
    ensures Searches(x, f, fsHz / 1000, q)
  {
    hide ConvertLag, BlockLength, RateIn;
    SetupSound(fsHz, q);
    var fs := fsHz / 1000;
    forall j | f.voiced && 0 <= j < PitchRange.SUBFRAMES
      ensures fs <= ConvertLag(fs, q, f.lags[j]) <= 27 * fs
    {
      LagWithin(fs, q, f.lags[j]);
    }
    var minL, maxL := PitchRange.FindMinMax(f.lags, lag => ConvertLag(fs, q, lag), f.voiced);
    x := Step(f.block, 10 * fs, f.voiced, minL, maxL, f.scores);
    assert forall i :: 0 <= i < PitchRange.SUBFRAMES ==> Converted(fs, q, f.lags)[i] == ConvertLag(fs, q, f.lags[i]);
  }

  /** The frame loop of pitch_shift_process on a fresh effect: whatever the input,
      the pitch and the similarity scores, it produces as many samples as it
      consumes, and the time-scale buffer stays in its band. */
  method Process(ts: TimeScaler, fsHz: nat, up: bool, strength: int, frames: seq<Frame>)
    returns (out: seq<Sample>, ghost steps: seq<Step>)
    requires RateOk(fsHz, RatioFor(up, strength))
    requires ts.Valid() && ts.q == Empty()
    requires ts.fsOut == fsHz / 1000 && ts.fsIn == RateIn(fsHz, RatioFor(up, strength)) / 1000
    requires FramesOk(frames, BlockLength(fsHz / 1000, RatioFor(up, strength)))
    modifies ts`readIdx, ts`writeIdx, ts`q, ts`maxL, ts`minL, ts`voiced, ts.buf
    ensures ts.Valid() && Setup(fsHz, RatioFor(up, strength)).Sound()
    ensures Settled(Setup(fsHz, RatioFor(up, strength)), ts.q)
    ensures AreSteps(steps, frames, 10 * (fsHz / 1000)) && StepsOk(Setup(fsHz, RatioFor(up, strength)), steps)
    ensures AllSearch(steps, frames, fsHz / 1000, RatioFor(up, strength))
    ensures (ts.q, out) == Run(Setup(fsHz, RatioFor(up, strength)), steps)
    ensures |out| == 10 * (fsHz / 1000) * |frames|
  {
    var q := RatioFor(up, strength);
    hide BlockLength, RateIn, StepOk, Config.Sound, AreSteps, Run, TimeScaler.Valid, Searches;
    SetupSound(fsHz, q);
    ghost var c := Setup(fsHz, q);
    assert Settled(c, ts.q);
    var l10 := 10 * (fsHz / 1000);
    out, steps := [], [];
    RunNothing(c);
    AreNoSteps(frames, l10);
    for i := 0 to |frames|
      invariant ts.Valid()
      invariant AreSteps(steps, frames[..i], l10) && StepsOk(c, steps) && (ts.q, out) == Run(c, steps)
      invariant AllSearch(steps, frames[..i], fsHz / 1000, q)
    {
      var x := NextStep(fsHz, q, frames[i]);
      out := ts.Continue(x, out, c, steps);
      AreStepsNext(steps, frames, i, x, l10);
      AllSearchNext(steps, frames, i, x, fsHz / 1000, q);
      steps := steps + [x];
    }
    TotalOf(steps, frames, l10);
  }
}

/** pace_shift.cpp: change the duration, keep the pitch. */
module PaceShift {
  import opened Samples
  import opened TimeScaleSpec
  import opened TimeScale
  import opened PitchFrames
  import PitchRange
  import PitchShift

  /** Output length per input length. */
  function UpShift(strength: int): real {
    1.0 - 0.2 * (PitchShift.Clamp(strength) + 1) as real
  }

  function DownShift(strength: int): real {
    1.0 + 0.2 * (PitchShift.Clamp(strength) + 1) as real
  }

  /** Each step of the strength changes the length by a fifth, up to four steps; faster and
      slower are mirror images. */
  lemma ShiftTables(strength: int)
    ensures UpShift(strength) + DownShift(strength) == 2.0
    ensures 0 <= strength < 3 ==> DownShift(strength + 1) == DownShift(strength) + 0.2
    ensures DownShift(0) == 1.2 && (strength < 0 ==> DownShift(strength) == 1.2)
    ensures strength > 3 ==> DownShift(strength) == 1.8
  {
  }

  ghost predicate ShiftOk(shift: real) {
    exists strength :: shift == UpShift(strength) || shift == DownShift(strength)
  }

  /** Samples produced per `l10` samples consumed. */
  function OutLength(l10: nat, shift: real): int {
    Truncate(l10 as real * shift)
  }

  /** Length modification in units of 1/1024, reported to the file converter. */
  function LengthFactor(shift: real): int {
    Truncate(shift * 1024.0)
  }

  lemma ShiftBounds(l10: nat, shift: real)
    requires ShiftOk(shift)
    ensures 0.2 <= shift <= 1.8
    ensures 0 <= OutLength(l10, shift) <= (9 * l10) / 5
    ensures 0 <= LengthFactor(shift)
    ensures shift >= 1.0 ==> l10 <= OutLength(l10, shift) && 1024 <= LengthFactor(shift)
    ensures shift < 1.0 ==> shift <= 0.8
  {
    hide Truncate, ShiftOk;
    ShiftValues(shift);
    Scaled(l10, l10 as real, shift, l10 as real * shift);
    Scaled(1024, 1024.0, shift, shift * 1024.0);
  }

  /** Lengths are the exact proportions rounded down. */
  lemma LengthsExact(l10: nat, shift: real, fs: nat, lag: nat)
    requires ShiftOk(shift)
    ensures var n := OutLength(l10, shift); n as real <= l10 as real * shift < n as real + 1.0
    ensures var n := LengthFactor(shift); n as real <= shift * 1024.0 < n as real + 1.0
    ensures var z := ConvertLag(fs, lag); 16 * z <= fs * lag < 16 * z + 16
  {
    hide ShiftOk;
    ShiftValues(shift);
    ProductNonNegative(l10 as real, shift);
    PitchShift.RoundsDown(fs * lag, 16, ConvertLag(fs, lag));
  }

  lemma OutLengthOk(l10: nat, shift: real)
    requires ShiftOk(shift)
    ensures 0 <= OutLength(l10, shift)
  {
    ShiftBounds(l10, shift);
  }

  lemma ShiftValues(shift: real)
    requires ShiftOk(shift)
    ensures 0.2 <= shift <= 1.8 && (shift < 1.0 ==> shift <= 0.8)
  {
    var strength :| shift == UpShift(strength) || shift == DownShift(strength);
  }

  /** Scaling by a factor up to 1.8 and rounding down. */
  lemma Scaled(n: nat, x: real, shift: real, y: real)
    requires 0.2 <= shift <= 1.8 && x == n as real && y == x * shift
    ensures 0 <= Truncate(y) <= (9 * n) / 5
    ensures shift >= 1.0 ==> n <= Truncate(y)
  {
    hide Truncate;
    Between(x, shift, y);
    Floored(n, y);
  }

  lemma Between(x: real, shift: real, y: real)
    requires x >= 0.0 && 0.0 <= shift <= 1.8 && y == x * shift
    ensures 0.0 <= y <= 1.8 * x
    ensures shift >= 1.0 ==> x <= y
  {
    ProductNonNegative(x, shift);
    ProductNonNegative(x, 1.8 - shift);
    assert x * (1.8 - shift) == 1.8 * x - x * shift;
    if shift >= 1.0 {
      ProductNonNegative(x, shift - 1.0);
      assert x * (shift - 1.0) == x * shift - x;
    }
  }

  lemma Floored(n: nat, y: real)
    requires 0.0 <= y <= 1.8 * n as real
    ensures 0 <= Truncate(y) <= (9 * n) / 5
    ensures n as real <= y ==> n <= Truncate(y)
  {
    var m := Truncate(y);
    assert m as real <= y;
    assert 5 * m <= 9 * n;
  }

  function ConvertLag(fs: nat, lag: int): int {
    (fs * lag) / 16
  }

  lemma LagWithin(fs: nat, lag: int)
    requires 32 <= lag <= 288
    ensures 2 * fs <= ConvertLag(fs, lag) <= 18 * fs
  {
    assert 32 * fs <= fs * lag <= 288 * fs;
  }

  function Setup(fsHz: nat): Config {
    var fs := fsHz / 1000;
    Config(fs, fs, 18 * fs, 10 * fs, 18 * fs)
  }

  /** The range searched runs from the smallest to the largest converted lag of a voiced
      frame, seen from 1000 and 0. */
  ghost predicate Searches(x: Step, f: Frame, fs: nat) {
    if f.voiced then Covers(x.minL, x.maxL, Converted(fs, f.lags)) else (x.minL, x.maxL) == (1000, 0)
  }

  function Converted(fs: nat, lags: seq<int>): seq<int>
  {
    seq(|lags|, i requires 0 <= i < |lags| => ConvertLag(fs, lags[i]))
  }

  ghost predicate AllSearch(xs: seq<Step>, frames: seq<Frame>, fs: nat) {
    |xs| == |frames| && forall i :: 0 <= i < |xs| ==> Searches(xs[i], frames[i], fs)
  }

  lemma AllSearchNext(xs: seq<Step>, frames: seq<Frame>, i: nat, x: Step, fs: nat)
    requires i < |frames| && AllSearch(xs, frames[..i], fs) && Searches(x, frames[i], fs)
    ensures AllSearch(xs + [x], frames[..i + 1], fs)
  {
    hide Searches;
  }

  /** find_min_max_pitch and the arguments of one insertion and extraction. */
  method NextStep(fsHz: nat, shift: real, f: Frame) returns (x: Step)
    requires ShiftOk(shift) && 1000 <= fsHz < 200000 && f.Ok(10 * (fsHz / 1000))
    ensures OutLength(10 * (fsHz / 1000), shift) >= 0
    ensures StepOk(Setup(fsHz), x) && IsStep(x, f, f.block, OutLength(10 * (fsHz / 1000), shift))
    ensures Searches(x, f, fsHz / 1000)
  {
    hide OutLength, ConvertLag, ShiftOk, LengthFactor;
    var fs := fsHz / 1000;
    ShiftBounds(10 * fs, shift);
    forall j | f.voiced && 0 <= j < PitchRange.SUBFRAMES
      ensures 2 * fs <= ConvertLag(fs, f.lags[j]) <= 18 * fs
    {
      LagWithin(fs, f.lags[j]);
    }
    var minL, maxL := PitchRange.FindMinMax(f.lags, lag => ConvertLag(fs, lag), f.voiced);
    x := Step(f.block, OutLength(10 * fs, shift), f.voiced, minL, maxL, f.scores);
    assert forall i :: 0 <= i < PitchRange.SUBFRAMES ==> Converted(fs, f.lags)[i] == ConvertLag(fs, f.lags[i]);
  }

  /** The frame loop of pace_shift_process on a fresh effect: the output length is
      the same multiple of the frame count for every input. */
  method Process(ts: TimeScaler, fsHz: nat, shift: real, frames: seq<Frame>)
    returns (out: seq<Sample>, ghost steps: seq<Step>)
    requires ShiftOk(shift) && 1000 <= fsHz < 200000
    requires ts.Valid() && ts.q == Empty() && ts.fsOut == ts.fsIn == fsHz / 1000
    requires FramesOk(frames, 10 * (fsHz / 1000))
    modifies ts`readIdx, ts`writeIdx, ts`q, ts`maxL, ts`minL, ts`voiced, ts.buf
    ensures ts.Valid() && Setup(fsHz).Sound() && Settled(Setup(fsHz), ts.q)
    ensures OutLength(10 * (fsHz / 1000), shift) >= 0
    ensures AreSteps(steps, frames, OutLength(10 * (fsHz / 1000), shift)) && StepsOk(Setup(fsHz), steps)
    ensures AllSearch(steps, frames, fsHz / 1000) && (ts.q, out) == Run(Setup(fsHz), steps)
    ensures |out| == OutLength(10 * (fsHz / 1000), shift) * |frames|
  {
    ghost var c := Setup(fsHz);
    assert c.Sound() && Settled(c, ts.q);
    hide OutLength, StepOk, Config.Sound, AreSteps, Run, LengthFactor, ShiftOk, TimeScaler.Valid, Settled, StepsOk,
      Searches;
    OutLengthOk(10 * (fsHz / 1000), shift);
    var l10Out := OutLength(10 * (fsHz / 1000), shift);
    out, steps := [], [];
    RunNothing(c);
    AreNoSteps(frames, l10Out);
    for i := 0 to |frames|
      invariant ts.Valid()
      invariant AreSteps(steps, frames[..i], l10Out) && StepsOk(c, steps) && (ts.q, out) == Run(c, steps)
      invariant AllSearch(steps, frames[..i], fsHz / 1000)
    {
      var x := NextStep(fsHz, shift, frames[i]);
      out := ts.Continue(x, out, c, steps);
      AreStepsNext(steps, frames, i, x, l10Out);
      AllSearchNext(steps, frames, i, x, fsHz / 1000);
      steps := steps + [x];
    }
    TotalOf(steps, frames, l10Out);
  }
}
