/** What the time-scale buffer computes, stated on an unbounded stream.
    The ring of time_scale.cpp keeps only a window of this stream; the class in
    TimeScale.dfy proves that the window is always enough. */
module TimeScaleSpec {
  import opened Samples
  import opened Wrappers

  const RING := 16384

  /** `s` is everything ever written, behind RING samples of initial silence;
      `r` is the read position and `top` the highest write position so far. */
  datatype Stream = Stream(s: seq<Sample>, r: nat, top: nat) {
    predicate Ok() {
      RING <= r <= |s| <= top
    }

    function Level(): int {
      |s| - r
    }
  }

  function Max(a: int, b: int): int {
    if a < b then b else a
  }

  function Empty(): (q: Stream)
    ensures q.Ok() && q.Level() == 0
  {
    Stream(seq(RING, _ => 0), RING, RING)
  }

  function Write(q: Stream, input: seq<Sample>): Stream {
    Stream(q.s + input, q.r, Max(q.top, |q.s| + |input|))
  }

  // ---- Splices ----------------------------------------------------------

  /** Half-width of the removal window after clamping to what is buffered. */
  function RemoveHalf(level: int, d: nat, half: nat): int {
    if level < 2 * half + d then (level - d) / 2 else half
  }

  predicate CanRemove(q: Stream, fs: nat, d: nat, half: nat) {
    q.Ok() && 1 <= fs <= half && d + 2 * fs <= q.Level()
  }

  function Removed(s: seq<Sample>, fs: nat, d: nat, half: nat): (t: seq<Sample>)
    requires 1 <= fs <= half && half + fs + d <= |s|
    ensures |t| == |s| - d
  {
    var b := |s| - half - fs;
    s[..b - d] + Crossfade(s[b - d..b - d + 2 * fs], s[b..b + 2 * fs]) + s[b + 2 * fs..]
  }

  /** One pitch period `d` less; nothing happens when it is not buffered. */
  function RemoveOne(q: Stream, fs: nat, d: nat, half: nat): (q': Stream)
    requires q.Ok()
    requires d <= q.Level() ==> CanRemove(q, fs, d, half)
    ensures q'.Ok() && q'.r == q.r && q'.top == q.top
    ensures q'.Level() == q.Level() - if d <= q.Level() then d else 0
  {
    if d > q.Level() then q
    else q.(s := Removed(q.s, fs, d, RemoveHalf(q.Level(), d, half)))
  }

  /** Length of the tail kept behind the insertion, after clamping. */
  function InsertTail(level: int, fs: nat, tail: nat): int {
    if level < tail + fs then level - fs else tail
  }

  predicate CanInsert(q: Stream, fs: nat, d: nat, tail: nat) {
    q.Ok() && 1 <= fs <= tail && fs <= d <= RING && 2 * fs <= q.Level()
  }

  function Inserted(s: seq<Sample>, fs: nat, d: nat, tail: nat): (t: seq<Sample>)
    requires 1 <= fs <= tail && fs <= d && tail + fs + d <= |s|
    ensures |t| == |s| + d
  {
    var p := |s| - tail - fs;
    s[..p] + Crossfade(s[p..p + 2 * fs], s[p - d..p - d + 2 * fs]) + s[p - d + 2 * fs..p + fs] + s[p + fs..]
  }

  /** One pitch period `d` more, copied from the period before the splice point. */
  function InsertOne(q: Stream, fs: nat, d: nat, tail: nat): (q': Stream)
    requires CanInsert(q, fs, d, tail)
    ensures q'.Ok() && q'.r == q.r && q'.Level() == q.Level() + d
    ensures q'.top == Max(q.top, |q.s| + d)
  {
    Stream(Inserted(q.s, fs, d, InsertTail(q.Level(), fs, tail)), q.r, Max(q.top, |q.s| + d))
  }

  // ---- The level control loops -------------------------------------------

  function Shorten(q: Stream, fs: nat, d: nat, half: nat): (q': Stream)
    requires q.Ok() && 1 <= fs <= half && 0 < d <= 43 * fs
    ensures q'.Ok() && q'.r == q.r && q'.top == q.top
    ensures q.Level() <= 45 * fs ==> q' == q
    ensures q.Level() > 45 * fs ==> 45 * fs - d < q'.Level() <= 45 * fs
    decreases q.Level()
  {
    if q.Level() > 45 * fs then Shorten(RemoveOne(q, fs, d, half), fs, d, half) else q
  }

  /** The length of `n` periods. */
  ghost function Periods(n: nat, d: nat): nat { n * d }

  lemma OneMore(n: nat, d: nat)
    requires n > 0
    ensures Periods(n, d) == Periods(n - 1, d) + d
  {
  }

  lemma NoPeriods(d: nat)
    ensures Periods(0, d) == 0
  {
  }

  function Stretch(q: Stream, fs: nat, d: nat, tail: nat, n: nat): (q': Stream)
    requires CanInsert(q, fs, d, tail)
    ensures q'.Ok() && q'.r == q.r && q'.Level() == q.Level() + Periods(n, d)
    ensures n > 0 ==> q'.Level() >= q.Level() + d
    ensures q'.top == if n == 0 then q.top else Max(q.top, |q'.s|)
    decreases n
  {
    if n == 0 then NoPeriods(d); q
    else
      OneMore(n, d);
      Stretch(InsertOne(q, fs, d, tail), fs, d, tail, n - 1)
  }

  function Refill(q: Stream, fs: nat, d: nat, target: int): (q': Stream)
    requires CanInsert(q, fs, d, fs)
    ensures q'.Ok() && q'.r == q.r && target <= q'.Level()
    ensures target <= q.Level() ==> q' == q
    ensures q.Level() < target ==> q'.Level() < target + d && q'.top == Max(q.top, |q'.s|)
    ensures q.Level() <= q'.Level()
    decreases target - q.Level()
  {
    if q.Level() < target then Refill(InsertOne(q, fs, d, fs), fs, d, target) else q
  }

  // ---- Choosing the lag ----------------------------------------------------

  /** Lag and similarity carried through the correlation search. A lag of -1
      means that nothing was found; a score of None stands for not-a-number. */
  datatype Choice = Choice(lag: int, score: real)

  function Better(best: Choice, d: int, score: Option<real>): Choice {
    if score.Some? && score.value > best.score then Choice(d, score.value) else best
  }

  /** The search over lags `minL..d` (exclusive of `d`). */
  function Search(minL: int, d: int, scores: int -> Option<real>): Choice
    decreases d - minL
  {
    if d <= minL then Choice(-1, -1.0) else Better(Search(minL, d - 1, scores), d - 1, scores(d - 1))
  }

  /** `voiced`, `minL` and `maxL` come with the last insertion; unvoiced frames
      and fruitless searches use a ten millisecond lag with a low score. */
  function BestLag(fsIn: nat, voiced: bool, minL: int, maxL: int, scores: int -> Option<real>): Choice {
    var c := if voiced then Search(minL, Max(minL, maxL + 1), scores) else Choice(-1, -1.0);
    if c.lag == -1 then Choice(10 * fsIn, 0.1) else c
  }

  /** The search finds the first lag with the best score above -1. */
  lemma {:induction false} SearchFindsBest(minL: int, d: int, scores: int -> Option<real>)
    requires 0 <= minL
    ensures var c := Search(minL, d, scores);
            && -1.0 <= c.score
            && (c.lag == -1 ==> c.score == -1.0)
            && (c.lag != -1 ==> minL <= c.lag < d && scores(c.lag) == Some(c.score))
            && (forall k :: minL <= k < d && scores(k).Some? ==> scores(k).value <= c.score)
            && (forall k :: minL <= k < c.lag && scores(k).Some? ==> scores(k).value < c.score)
    decreases d - minL
  {
    if d > minL {
      SearchFindsBest(minL, d - 1, scores);
    }
  }

  // ---- Extraction ------------------------------------------------------------

  /** One call of time_scale_insert followed by one of time_scale_extract. */
  datatype Step = Step(input: seq<Sample>, n: nat, voiced: bool, minL: int, maxL: int, scores: int -> Option<real>) {
    function Lag(fsIn: nat): Choice {
      BestLag(fsIn, voiced, minL, maxL, scores)
    }
  }

  /** How similar a period must be before it is repeated. */
  function Threshold(fs: nat, level: int): real
    requires fs > 0
  {
    0.75 - (35 * fs - level) as real * (0.015 / fs as real)
  }

  /** How many periods make up ten milliseconds, rounded to nearest. */
  function Repeats(fs: nat, d: nat): (n: nat)
    requires d > 0
    ensures Periods(n, d) <= 10 * fs + d / 2
  {
    var n := (20 * fs + d) / (2 * d);
    assert n * (2 * d) <= 20 * fs + d;
    assert n * (2 * d) == 2 * Periods(n, d);
    n
  }

  /** A low level is first raised by about ten milliseconds of similar periods. */
  function Boost(q: Stream, fs: nat, fsIn: nat, c: Choice): (q': Stream)
    requires 1 <= fs <= 20 * fsIn && fs <= c.lag && CanInsert(q, fs, c.lag, 20 * fsIn)
    ensures q'.Ok() && q'.r == q.r && q.Level() <= q'.Level()
    ensures q'.Level() <= Max(q.Level(), 45 * fs + c.lag / 2)
    ensures q'.top <= Max(q.top, |q'.s|)
  {
    if q.Level() < 35 * fs && c.score > Threshold(fs, q.Level()) then
      Stretch(q, fs, c.lag, 20 * fsIn, Repeats(fs, c.lag))
    else q
  }

  /** The stream after the level has been brought into range for reading `n`. */
  function Balance(q: Stream, fs: nat, fsIn: nat, c: Choice, n: nat): (q': Stream)
    requires q.Ok() && 1 <= fs <= 20 * fsIn && fs <= c.lag <= 43 * fs <= RING && 2 * fs <= q.Level()
    ensures q'.Ok() && q'.r == q.r
  {
    if q.Level() > 45 * fs then Shorten(q, fs, c.lag, 20 * fsIn)
    else Refill(Boost(q, fs, fsIn, c), fs, c.lag, n + 3 * fs)
  }

  function Read(q: Stream, n: nat): (Stream, seq<Sample>)
    requires q.r + n <= |q.s|
  {
    (q.(r := q.r + n), q.s[q.r..q.r + n])
  }

  // ---- Every run ---------------------------------------------------------------

  /** Sampling rates in kHz and the largest lag, insertion and extraction in use. */
  datatype Config = Config(fs: nat, fsIn: nat, maxLag: nat, maxIn: nat, maxOut: nat) {
    predicate Sound() {
      && 1 <= fs <= 10 * fsIn <= maxLag
      && maxLag + maxOut <= 42 * fs
      && 2 * fs <= maxIn
      && 45 * fs + maxLag / 2 + maxIn + maxLag <= RING
    }
  }

  predicate StepOk(c: Config, x: Step) {
    && 2 * c.fs <= |x.input| <= c.maxIn
    && x.n <= c.maxOut
    && (x.voiced && x.minL <= x.maxL ==> c.fs <= x.minL && x.maxL <= c.maxLag)
    && 0 <= x.minL
  }

  /** Holds between calls: the level is in its band, and neither unread samples
      nor the `maxLag` samples of history behind them have been overwritten. */
  predicate Settled(c: Config, q: Stream) {
    && q.Ok()
    && (q.Level() == 0 || 3 * c.fs <= q.Level())
    && q.Level() <= 45 * c.fs + c.maxLag / 2
    && q.top - RING <= q.r - c.maxLag
  }

  lemma LagInRange(c: Config, x: Step)
    requires c.Sound() && StepOk(c, x)
    ensures c.fs <= x.Lag(c.fsIn).lag <= c.maxLag
  {
    if x.voiced {
      SearchFindsBest(x.minL, Max(x.minL, x.maxL + 1), x.scores);
    }
  }

  /** Bounds on the stream between insertion and reading. */
  lemma BalanceBounds(c: Config, q: Stream, lag: Choice, n: nat)
    requires c.Sound() && q.Ok() && 2 * c.fs <= q.Level() && n <= c.maxOut
    requires c.fs <= lag.lag <= c.maxLag
    requires q.top - RING <= q.r - c.maxLag
    ensures var b := Balance(q, c.fs, c.fsIn, lag, n);
            && n + 3 * c.fs <= b.Level() <= 45 * c.fs + c.maxLag / 2
            && b.top - RING <= b.r - c.maxLag
  {
    hide Shorten, Boost, Refill, Periods;
  }

  function Advance(c: Config, q: Stream, x: Step): (r: (Stream, seq<Sample>))
    requires c.Sound() && Settled(c, q) && StepOk(c, x)
  {
    LagInRange(c, x);
    var w := Write(q, x.input);
    BalanceBounds(c, w, x.Lag(c.fsIn), x.n);
    Read(Balance(w, c.fs, c.fsIn, x.Lag(c.fsIn), x.n), x.n)
  }

  /** One insertion and extraction delivers exactly the requested samples and
      leaves the stream settled. */
  lemma AdvanceSettled(c: Config, q: Stream, x: Step)
    requires c.Sound() && Settled(c, q) && StepOk(c, x)
    ensures var (q', out) := Advance(c, q, x);
            && Settled(c, q')
            && 3 * c.fs <= q'.Level() <= 45 * c.fs + c.maxLag / 2 - x.n
            && q'.r == q.r + x.n
            && |out| == x.n
  {
    hide Balance, Step.Lag, Periods;
    LagInRange(c, x);
    var w := Write(q, x.input);
    assert w.Ok() && w.r == q.r && 2 * c.fs <= w.Level() && w.top - RING <= w.r - c.maxLag;
    hide Write;
    BalanceBounds(c, w, x.Lag(c.fsIn), x.n);
  }

  function Total(steps: seq<Step>): nat {
    if steps == [] then 0 else Total(steps[..|steps| - 1]) + steps[|steps| - 1].n
  }

  predicate StepsOk(c: Config, steps: seq<Step>) {
    forall i :: 0 <= i < |steps| ==> StepOk(c, steps[i])
  }

  /** The stream after a whole run of insertions and extractions from the start,
      and all samples extracted on the way. */
  function Run(c: Config, steps: seq<Step>): (r: (Stream, seq<Sample>))
    requires c.Sound() && StepsOk(c, steps)
    ensures Settled(c, r.0)
    ensures steps != [] ==> 3 * c.fs <= r.0.Level()
    ensures r.0.r == RING + Total(steps) && |r.1| == Total(steps)
  {
    if steps == [] then (Empty(), [])
    else
      var before := Run(c, steps[..|steps| - 1]);
      var x := steps[|steps| - 1];
      AdvanceSettled(c, before.0, x);
      var (q, out) := Advance(c, before.0, x);
      (q, before.1 + out)
  }

  lemma RunNothing(c: Config)
    requires c.Sound()
    ensures StepsOk(c, []) && Run(c, []) == (Empty(), [])
  {
  }

  lemma RunNext(c: Config, steps: seq<Step>, x: Step)
    requires c.Sound() && StepsOk(c, steps) && StepOk(c, x)
    ensures StepsOk(c, steps + [x])
    ensures var (q, out) := Run(c, steps); var (q', more) := Advance(c, q, x);
            Run(c, steps + [x]) == (q', out + more)
  {
    assert (steps + [x])[..|steps|] == steps;
    hide Advance;
  }

  // ---- What the splices do to the signal -----------------------------------------

  predicate Between(x: Sample, a: Sample, b: Sample) {
    a <= x <= b || b <= x <= a
  }

  /** Step `i` of `n` on the way from `a` to `b`. */
  predicate Faded(x: Sample, a: Sample, b: Sample, i: nat, n: nat) { Between(x, a, b) && OnRamp(a, b, i, n, x) }

  lemma CrossfadeFades(a: seq<Sample>, b: seq<Sample>)
    requires |a| == |b|
    ensures forall i :: 0 <= i < |a| ==> Faded(Crossfade(a, b)[i], a[i], b[i], i, |a|)
  {
    hide OnRamp;
    forall i | 0 <= i < |a|
      ensures Faded(Crossfade(a, b)[i], a[i], b[i], i, |a|)
    {
      FadeAt(a, b, |a|, i);
      CrossfadeRamp(a, b, i);
    }
  }

  /** Removal keeps everything before the splice and the last `half - fs`
      samples; the 2 * fs samples between fade from the signal to the signal one
      period later. */
  lemma RemovedContents(s: seq<Sample>, fs: nat, d: nat, half: nat)
    requires 1 <= fs <= half && half + fs + d <= |s|
    ensures var t, b := Removed(s, fs, d, half), |s| - half - fs;
            && t[..b - d] == s[..b - d]
            && (forall k :: b <= k < b + 2 * fs ==> Faded(t[k - d], s[k - d], s[k], k - b, 2 * fs))
            && t[|t| - (half - fs)..] == s[|s| - (half - fs)..]
  {
    hide Crossfade, Faded;
    var t, b := Removed(s, fs, d, half), |s| - half - fs;
    var x, y := s[b - d..b - d + 2 * fs], s[b..b + 2 * fs];
    CrossfadeFades(x, y);
    forall k | b <= k < b + 2 * fs ensures Faded(t[k - d], s[k - d], s[k], k - b, 2 * fs) {
      assert t[k - d] == Crossfade(x, y)[k - b] && x[k - b] == s[k - d] && y[k - b] == s[k];
    }
  }

  /** Insertion keeps everything before the splice point and the last `tail`
      samples; between them the earlier period is faded in and then copied. */
  lemma InsertedContents(s: seq<Sample>, fs: nat, d: nat, tail: nat)
    requires 1 <= fs <= tail && fs <= d && tail + fs + d <= |s|
    ensures var t, p := Inserted(s, fs, d, tail), |s| - tail - fs;
            && t[..p] == s[..p]
            && (forall k :: p <= k < p + 2 * fs ==> Faded(t[k], s[k], s[k - d], k - p, 2 * fs))
            && (forall k :: p + 2 * fs <= k < p + fs + d ==> t[k] == s[k - d])
            && t[|t| - tail..] == s[|s| - tail..]
  {
    hide Crossfade, Faded;
    var t, p := Inserted(s, fs, d, tail), |s| - tail - fs;
    var x, y := s[p..p + 2 * fs], s[p - d..p - d + 2 * fs];
    CrossfadeFades(x, y);
    var z := Crossfade(x, y);
    assert t == s[..p] + z + s[p - d + 2 * fs..];
    forall k | p <= k < p + 2 * fs ensures Faded(t[k], s[k], s[k - d], k - p, 2 * fs) {
      assert t[k] == z[k - p] && x[k - p] == s[k] && y[k - p] == s[k - d];
    }
  }

  /** From position `lo` on, the signal repeats with period `d`. */
  predicate Periodic(s: seq<Sample>, d: nat, lo: nat) {
    d <= lo <= |s| && forall k :: lo <= k < |s| ==> s[k] == s[k - d]
  }

  /** On a signal of that period, removal just drops the last period. */
  lemma RemovePeriodic(s: seq<Sample>, fs: nat, d: nat, half: nat)
    requires 1 <= fs <= half && half + fs + d <= |s| && Periodic(s, d, |s| - half - fs)
    ensures Removed(s, fs, d, half) == s[..|s| - d]
  {
    hide Crossfade;
    var b, t := |s| - half - fs, Removed(s, fs, d, half);
    var x := s[b..b + 2 * fs];
    assert s[b - d..b - d + 2 * fs] == x;
    CrossfadeSelf(x);
    forall k | 0 <= k < |s| - d ensures t[k] == s[k] {
      if b - d <= k < b - d + 2 * fs { assert t[k] == x[k - (b - d)] == s[k + d]; }
    }
  }

  /** On a signal of that period, insertion continues the signal by one period. */
  lemma InsertPeriodic(s: seq<Sample>, fs: nat, d: nat, tail: nat)
    requires 1 <= fs <= tail && fs <= d && tail + fs + d <= |s| && Periodic(s, d, |s| - tail - fs)
    ensures Inserted(s, fs, d, tail) == s + s[|s| - d..]
  {
    hide Crossfade;
    var p, t, u := |s| - tail - fs, Inserted(s, fs, d, tail), s + s[|s| - d..];
    var x := s[p..p + 2 * fs];
    assert s[p - d..p - d + 2 * fs] == x;
    CrossfadeSelf(x);
    forall k | 0 <= k < |s| + d ensures t[k] == u[k] {
      if p <= k < p + 2 * fs { assert t[k] == x[k - p] == s[k]; }
    }
  }

  lemma RemoveOnePeriodic(q: Stream, fs: nat, d: nat, half: nat)
    requires CanRemove(q, fs, d, half) && Periodic(q.s, d, q.r)
    ensures RemoveOne(q, fs, d, half).s == q.s[..|q.s| - d]
  {
    RemovePeriodic(q.s, fs, d, RemoveHalf(q.Level(), d, half));
  }

  lemma InsertOnePeriodic(q: Stream, fs: nat, d: nat, tail: nat)
    requires CanInsert(q, fs, d, tail) && Periodic(q.s, d, q.r)
    ensures InsertOne(q, fs, d, tail).s == q.s + q.s[|q.s| - d..]
  {
    hide Inserted;
    InsertPeriodic(q.s, fs, d, InsertTail(q.Level(), fs, tail));
  }

  lemma PeriodicExtends(s: seq<Sample>, d: nat, lo: nat)
    requires Periodic(s, d, lo)
    ensures Periodic(s + s[|s| - d..], d, lo)
  {
    var t := s + s[|s| - d..];
    forall k | lo <= k < |t|
      ensures t[k] == t[k - d]
    {
      if k >= |s| {
        assert t[k] == s[k - d];
      }
    }
  }

  /** Inserting and removing a true period are inverse to each other, whatever
      window lengths the two calls use. */
  lemma InsertThenRemove(q: Stream, fs: nat, d: nat, tail: nat, half: nat)
    requires CanInsert(q, fs, d, tail) && fs <= half && Periodic(q.s, d, q.r)
    ensures RemoveOne(InsertOne(q, fs, d, tail), fs, d, half).s == q.s
  {
    hide InsertOne, RemoveOne;
    InsertOnePeriodic(q, fs, d, tail);
    PeriodicExtends(q.s, d, q.r);
    RemoveOnePeriodic(InsertOne(q, fs, d, tail), fs, d, half);
  }

  lemma RemoveThenInsert(q: Stream, fs: nat, d: nat, half: nat, tail: nat)
    requires CanRemove(q, fs, d, half) && fs <= d <= RING && fs <= tail && Periodic(q.s, d, q.r)
    ensures InsertOne(RemoveOne(q, fs, d, half), fs, d, tail).s == q.s
  {
    hide InsertOne, RemoveOne;
    RemoveOnePeriodic(q, fs, d, half);
    InsertOnePeriodic(RemoveOne(q, fs, d, half), fs, d, tail);
  }
}
