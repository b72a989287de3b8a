/** The time-scale buffer itself: a ring of 16384 samples with masked indices,
    spliced in place. Every method is proved to do to the ring what
    TimeScaleSpec does to the unbounded stream. */
module TimeScale {
  import opened Rings
  import opened Samples
  import opened TimeScaleSpec
  import opened Wrappers

  lemma RepeatsRounds(fs: nat, d: nat)
    requires d > 0
    ensures ((10 * fs) as real / d as real + 0.5).Floor == Repeats(fs, d)
  {
    var x := (10 * fs) as real / d as real + 0.5;
    var r := (2 * d) as real;
    var m := 20 * fs + d;
    Halved(fs as real, d as real, x);
    var n := m / (2 * d);
    assert n * (2 * d) <= m < n * (2 * d) + 2 * d;
    FloorIs(x, r, m, n, 2 * d, n * (2 * d));
  }

  lemma Halved(fs: real, d: real, x: real)
    requires d > 0.0 && x == 10.0 * fs / d + 0.5
    ensures x * (2.0 * d) == 20.0 * fs + d
  {
    var y := 10.0 * fs / d;
    assert y * d == 10.0 * fs;
    assert x * (2.0 * d) == 2.0 * (y * d) + d;
  }

  /** A quotient over the reals rounds down to the quotient over the integers. */
  lemma FloorIs(x: real, r: real, m: int, n: nat, p: nat, np: int)
    requires p > 0 && r == p as real && x * r == m as real
    requires np == n * p && np <= m < np + p
    ensures x.Floor == n
  {
    var t := n as real;
    RealProduct(n, p, np, t * r);
    Ordered(t, x, r, t * r, m as real);
    Ordered(x, t + 1.0, r, m as real, t * r + r);
  }

  lemma {:induction false} RealProduct(n: nat, p: nat, np: int, x: real)
    requires np == n * p && x == n as real * p as real
    ensures x == np as real
  {
    if n != 0 {
      var y := (n - 1) as real * p as real;
      RealProduct(n - 1, p, np - p, y);
      assert x == y + p as real;
    }
  }

  /** Weight of the falling signal after `i` steps of an `n`-step window. */
  function Falling(i: nat, n: nat): real
    requires n > 0
  {
    1.0 - i as real / n as real
  }

  lemma WindowStep(i: nat, n: nat)
    requires i < n
    ensures Falling(i, n) - 1.0 / n as real == Falling(i + 1, n)
    ensures 1.0 - Falling(i + 1, n) == Weight(i, n)
  {
  }

  lemma SliceOfSlice<T>(s: seq<T>, a: nat, b: nat, i: nat, j: nat)
    requires a <= b <= |s| && i <= j <= b - a
    ensures s[a..b][i..j] == s[a + i..a + j]
  {
    forall k | 0 <= k < j - i
      ensures s[a..b][i..j][k] == s[a + i..a + j][k]
    {
    }
  }

  /** The blocks written by a removal make up the shortened stream. */
  lemma RemovedPieces(s: seq<Sample>, fs: nat, d: nat, half: nat, buf1: seq<Sample>, buf2: seq<Sample>)
    requires 1 <= fs <= half && 2 * half + d <= |s|
    requires buf1 == s[|s| - 2 * half..|s|] && buf2 == s[|s| - 2 * half - d..|s| - d]
    ensures var l1, l2 := half - fs, fs * 2;
            s[..|s| - 2 * half + l1 - d] + Crossfade(buf2[l1..l1 + l2], buf1[l1..l1 + l2]) + buf1[l1 + l2..]
              == Removed(s, fs, d, half)
  {
    var w, l1, l2 := |s|, half - fs, fs * 2;
    SliceOfSlice(s, w - 2 * half - d, w - d, l1, l1 + l2);
    SliceOfSlice(s, w - 2 * half, w, l1, l1 + l2);
    SliceOfSlice(s, w - 2 * half, w, l1 + l2, 2 * half);
  }

  /** The blocks written by an insertion make up the lengthened stream. */
  lemma InsertedPieces(s: seq<Sample>, fs: nat, d: nat, tail: nat, buf1: seq<Sample>, buf2: seq<Sample>)
    requires 1 <= fs <= tail && fs <= d && tail + fs + d <= |s|
    requires var p := |s| - tail - fs; buf1 == s[p..p + tail + fs] && buf2 == s[p - d..p + fs]
    ensures var p, l2 := |s| - tail - fs, fs * 2;
            s[..p] + Crossfade(buf1[..l2], buf2[..l2]) + buf2[l2..] + buf1[fs..] == Inserted(s, fs, d, tail)
  {
    hide Crossfade;
    var p, l2 := |s| - tail - fs, fs * 2;
    SliceOfSlice(s, p, p + tail + fs, 0, l2);
    SliceOfSlice(s, p - d, p + fs, 0, l2);
    SliceOfSlice(s, p - d, p + fs, l2, d + fs);
    SliceOfSlice(s, p, p + tail + fs, fs, tail + fs);
  }

  class TimeScaler {
    var buf: array<Sample>
    var readIdx: int
    var writeIdx: int
    var fsIn: int
    var fsOut: int
    var maxL: int
    var minL: int
    var voiced: bool
    ghost var q: Stream

    /** The ring holds the samples of `s` from position `top - RING` on. */
    ghost predicate Holds(s: seq<Sample>, top: int)
      reads this`buf, buf
    {
      && buf.Length == RING
      && RING <= top
      && forall k {:trigger s[k]} :: top - RING <= k < |s| ==> buf[Slot(RING, k)] == s[k]
    }

    ghost predicate Valid()
      reads this, buf
    {
      && q.Ok()
      && Holds(q.s, q.top)
      && readIdx == Slot(RING, q.r)
      && writeIdx == Slot(RING, |q.s|)
      && q.top < q.r + RING
    }

    constructor (fsInHz: nat, fsOutHz: nat)
      ensures Valid() && fresh(buf)
      ensures q == Empty() && fsIn == fsInHz / 1000 && fsOut == fsOutHz / 1000
    {
      buf := new Sample[RING](_ => 0);
      readIdx, writeIdx := 0, 0;
      fsIn, fsOut := fsInHz / 1000, fsOutHz / 1000;
      maxL, minL, voiced := 0, 0, false;
      q := Empty();
    }

    method Level() returns (n: int)
      requires Valid()
      ensures n == q.Level()
    {
      SlotDistance(RING, |q.s|, q.r);
      n := Slot(RING, writeIdx - readIdx);
    }

    /** The slot `n` samples before the write position. */
    method Back(n: int) returns (idx: int)
      requires writeIdx == Slot(RING, |q.s|)
      ensures idx == Slot(RING, |q.s| - n)
    {
      SlotStep(RING, |q.s|, 0 - n);
      idx := Slot(RING, writeIdx - n);
    }

    /** Copies `n` samples starting at slot `start`. */
    method Fetch(start: int, n: nat, ghost a: int) returns (block: seq<Sample>)
      requires Holds(q.s, q.top)
      requires start == Slot(RING, a) && q.top - RING <= a && a + n <= |q.s|
      ensures block == q.s[a..a + n]
    {
      block := [];
      var idx := start;
      for i := 0 to n
        invariant idx == Slot(RING, a + i)
        invariant block == q.s[a..a + i]
      {
        block := block + [buf[idx]];
        idx := Slot(RING, idx + 1);
        SlotStep(RING, a + i, 1);
      }
    }

    /** Writes one sample behind `base`; older samples of the window survive. */
    method Put(idx: int, x: Sample, ghost base: seq<Sample>, ghost top: int) returns (next: int)
      requires Holds(base, top) && idx == Slot(RING, |base|) && |base| < top
      modifies buf
      ensures Holds(base + [x], top) && next == Slot(RING, |base| + 1)
    {
      forall k | top - RING <= k < |base|
        ensures Slot(RING, k) != Slot(RING, |base|)
      {
        SlotsDiffer(RING, k, |base|);
      }
      buf[idx] := x;
      next := Slot(RING, idx + 1);
      SlotStep(RING, |base|, 1);
    }

    /** Overwrites the slots behind `base` and returns the slot behind them. */
    method Store(start: int, block: seq<Sample>, ghost base: seq<Sample>, ghost top: int) returns (idx: int)
      requires Holds(base, top) && start == Slot(RING, |base|) && |base| + |block| <= top
      modifies buf
      ensures Holds(base + block, top) && idx == Slot(RING, |base| + |block|)
    {
      idx := start;
      assert base + block[..0] == base;
      for i := 0 to |block|
        invariant idx == Slot(RING, |base| + i)
        invariant Holds(base + block[..i], top)
      {
        idx := Put(idx, block[i], base + block[..i], top);
        assert base + block[..i] + [block[i]] == base + block[..i + 1];
      }
      assert block[..|block|] == block;
    }

    /** Overwrites slots with one signal fading out while another fades in. */
    method Fade(start: int, falling: seq<Sample>, rising: seq<Sample>, ghost base: seq<Sample>, ghost top: int)
      returns (idx: int)
      requires Holds(base, top) && start == Slot(RING, |base|) && 0 < |falling| == |rising| && |base| + |falling| <= top
      modifies buf
      ensures Holds(base + Crossfade(falling, rising), top) && idx == Slot(RING, |base| + |falling|)
    {
      idx := start;
      assert base + FadeSteps(falling, rising, 0) == base;
      var n := |falling|;
      var down, delta := 1.0, 1.0 / n as real;
      for i := 0 to n
        invariant idx == Slot(RING, |base| + i)
        invariant down == Falling(i, n)
        invariant Holds(base + FadeSteps(falling, rising, i), top)
      {
        WindowStep(i, n);
        down := down - delta;
        var up := 1.0 - down;
        var x := Mix(falling[i], rising[i], up);
        idx := Put(idx, x, base + FadeSteps(falling, rising, i), top);
        assert base + FadeSteps(falling, rising, i) + [x] == base + FadeSteps(falling, rising, i + 1);
      }
    }

    /** A shorter stream, or a smaller window of it, is held too. */
    lemma HoldsLess(s: seq<Sample>, top: int, n: nat, top': int)
      requires Holds(s, top) && n <= |s| && top <= top'
      ensures Holds(s[..n], top')
    {
    }

    /** The copying part of time_scale_remove_one, for a window that is buffered. */
    method CutPeriod(bestD: nat, half: nat)
      requires q.Ok() && Holds(q.s, q.top) && writeIdx == Slot(RING, |q.s|)
      requires 1 <= fsOut <= half && q.top - RING <= |q.s| - 2 * half - bestD
      modifies this`writeIdx, buf
      ensures Holds(Removed(q.s, fsOut, bestD, half), q.top) && writeIdx == Slot(RING, |q.s| - bestD)
    {
      hide Removed, Slot, Crossfade, TimeScaler.Holds;
      var l1, l2 := half - fsOut, fsOut * 2;
      ghost var w := |q.s|;
      var idx1 := Back(2 * half);
      var idx2 := Back(2 * half + bestD);
      var buf1 := Fetch(idx1, 2 * half, w - 2 * half);
      var buf2 := Fetch(idx2, 2 * half, w - 2 * half - bestD);
      RemovedPieces(q.s, fsOut, bestD, half, buf1, buf2);
      idx2 := Back(2 * half - l1 + bestD);
      ghost var p := w - 2 * half + l1 - bestD;
      ghost var base := q.s[..p];
      HoldsLess(q.s, q.top, p, q.top);
      idx2 := Fade(idx2, buf2[l1..l1 + l2], buf1[l1..l1 + l2], base, q.top);
      base := base + Crossfade(buf2[l1..l1 + l2], buf1[l1..l1 + l2]);
      idx2 := Store(idx2, buf1[l1 + l2..], base, q.top);
      writeIdx := idx2;
    }

    /** time_scale_remove_one: one period shorter, or unchanged when less than
        a period is buffered. */
    method RemoveOne(bestD: nat, length: nat)
      requires Valid() && 1 <= fsOut <= length
      requires bestD <= q.Level() ==> bestD + 2 * fsOut <= q.Level()
      modifies this`writeIdx, this`q, buf
      ensures Valid() && q == TimeScaleSpec.RemoveOne(old(q), fsOut, bestD, length)
    {
      hide Removed, Slot, Inserted;
      var bufSmpls := Level();
      if bestD > bufSmpls {
        return;
      }
      var half := length;
      if bufSmpls < 2 * half + bestD {
        half := (bufSmpls - bestD) / 2;
      }
      CutPeriod(bestD, half);
      q := TimeScaleSpec.RemoveOne(q, fsOut, bestD, length);
    }

    /** The copying part of time_scale_insert_one, for a tail that is buffered. */
    method PastePeriod(bestD: nat, tail: nat)
      requires q.Ok() && Holds(q.s, q.top) && writeIdx == Slot(RING, |q.s|)
      requires 1 <= fsOut <= tail && fsOut <= bestD && q.top - RING <= |q.s| - tail - fsOut - bestD
      modifies this`writeIdx, buf
      ensures Holds(Inserted(q.s, fsOut, bestD, tail), Max(q.top, |q.s| + bestD))
      ensures writeIdx == Slot(RING, |q.s| + bestD)
    {
      hide Inserted, Slot, Crossfade, TimeScaler.Holds;
      var l1, l2 := fsOut, fsOut * 2;
      ghost var w := |q.s|;
      ghost var p := w - tail - l1;
      var idx1 := Back(tail + l1);
      var idx2 := Back(tail + bestD + l1);
      var buf1 := Fetch(idx1, tail + l1, p);
      var buf2 := Fetch(idx2, bestD + l1, p - bestD);
      InsertedPieces(q.s, fsOut, bestD, tail, buf1, buf2);
      ghost var base, top := q.s[..p], Max(q.top, w + bestD);
      HoldsLess(q.s, q.top, p, top);
      idx1 := Fade(idx1, buf1[..l2], buf2[..l2], base, top);
      base := base + Crossfade(buf1[..l2], buf2[..l2]);
      idx1 := Store(idx1, buf2[l2..], base, top);
      base := base + buf2[l2..];
      idx1 := Store(idx1, buf1[l1..], base, top);
      writeIdx := idx1;
    }

    /** time_scale_insert_one: one period longer. */
    method InsertOne(bestD: nat, length: nat)
      requires Valid() && 0 <= fsOut && CanInsert(q, fsOut, bestD, length)
      requires q.top - RING <= q.r - bestD && q.Level() + bestD < RING
      modifies this`writeIdx, this`q, buf
      ensures Valid() && q == TimeScaleSpec.InsertOne(old(q), fsOut, bestD, length)
    {
      hide Removed, Slot, Inserted;
      var bufSmpls := Level();
      var tail := length;
      if bufSmpls < tail + fsOut {
        tail := bufSmpls - fsOut;
      }
      PastePeriod(bestD, tail);
      q := TimeScaleSpec.InsertOne(q, fsOut, bestD, length);
    }

    /** time_scale_insert: append a block and note its pitch range. */
    method Insert(input: seq<Sample>, pLMax: int, pLMin: int, isVoiced: bool)
      requires Valid() && q.Level() + |input| < RING
      modifies this`writeIdx, this`q, this`maxL, this`minL, this`voiced, buf
      ensures Valid() && q == Write(old(q), input)
      ensures maxL == pLMax && minL == pLMin && voiced == isVoiced
    {
      maxL, minL, voiced := pLMax, pLMin, isVoiced;
      ghost var q' := Write(q, input);
      writeIdx := Store(writeIdx, input, q.s, q'.top);
      q := q';
    }

    /** The lag search of time_scale_extract over a given similarity score. */
    method FindLag(scores: int -> Option<real>) returns (c: Choice)
      requires 0 <= fsIn
      ensures c == BestLag(fsIn, voiced, minL, maxL, scores)
    {
      c := Choice(-1, -1.0);
      if voiced {
        var d := minL;
        while d < maxL + 1
          invariant minL <= d <= Max(minL, maxL + 1)
          invariant c == Search(minL, d, scores)
        {
          var nc := scores(d);
          if nc.Some? && nc.value > c.score {
            c := Choice(d, nc.value);
          }
          d := d + 1;
        }
      }
      if c.lag == -1 {
        c := Choice(10 * fsIn, 0.1);
      }
    }

    /** Drops periods until at most 45 milliseconds are buffered. */
    method ShortenLoop(bestD: nat)
      requires Valid() && 1 <= fsOut <= 20 * fsIn && 0 < bestD <= 43 * fsOut
      modifies this`writeIdx, this`q, buf
      ensures Valid() && q == Shorten(old(q), fsOut, bestD, 20 * fsIn)
    {
      hide TimeScaleSpec.RemoveOne;
      var bufSmpls := Level();
      while bufSmpls > fsOut * 45
        invariant Valid() && bufSmpls == q.Level()
        invariant Shorten(q, fsOut, bestD, 20 * fsIn) == Shorten(old(q), fsOut, bestD, 20 * fsIn)
        decreases bufSmpls
      {
        RemoveOne(bestD, 2 * (fsIn * 10));
        bufSmpls := Level();
      }
    }

    /** Repeats a similar period to make up about ten milliseconds. */
    method StretchLoop(bestD: nat, n: nat)
      requires Valid() && 0 <= fsOut && 0 <= fsIn && CanInsert(q, fsOut, bestD, 20 * fsIn)
      requires q.top - RING <= q.r - bestD
      requires Stretch(q, fsOut, bestD, 20 * fsIn, n).Level() + bestD <= RING
      modifies this`writeIdx, this`q, buf
      ensures Valid() && q == Stretch(old(q), fsOut, bestD, 20 * fsIn, n)
    {
      hide TimeScaleSpec.InsertOne, Periods;
      for i := 0 to n
        invariant Valid() && CanInsert(q, fsOut, bestD, 20 * fsIn)
        invariant q.r == old(q).r && q.top - RING <= q.r - bestD
        invariant Stretch(q, fsOut, bestD, 20 * fsIn, n - i) == Stretch(old(q), fsOut, bestD, 20 * fsIn, n)
      {
        InsertOne(bestD, 2 * (fsIn * 10));
      }
    }

    /** Repeats periods until `target` samples are buffered. */
    method RefillLoop(bestD: nat, target: int)
      requires Valid() && 0 <= fsOut && CanInsert(q, fsOut, bestD, fsOut)
      requires q.top - RING <= q.r - bestD && target + 2 * bestD <= RING
      modifies this`writeIdx, this`q, buf
      ensures Valid() && q == Refill(old(q), fsOut, bestD, target)
    {
      hide TimeScaleSpec.InsertOne;
      var bufSmpls := Level();
      while bufSmpls < target
        invariant Valid() && bufSmpls == q.Level() && CanInsert(q, fsOut, bestD, fsOut)
        invariant q.r == old(q).r && q.top - RING <= q.r - bestD
        invariant Refill(q, fsOut, bestD, target) == Refill(old(q), fsOut, bestD, target)
        decreases target - bufSmpls
      {
        InsertOne(bestD, fsOut);
        bufSmpls := Level();
      }
    }

    /** The reading loop of time_scale_extract. */
    method Drain(n: nat) returns (out: seq<Sample>)
      requires Valid() && n <= q.Level()
      modifies this`readIdx, this`q
      ensures Valid() && (q, out) == Read(old(q), n)
    {
      hide Slot;
      out := [];
      for i := 0 to n
        invariant Valid() && q == old(q).(r := old(q).r + i)
        invariant out == q.s[old(q).r..q.r]
      {
        assert buf[Slot(RING, q.r)] == q.s[q.r];
        out := out + [buf[readIdx]];
        SlotStep(RING, q.r, 1);
        readIdx := Slot(RING, readIdx + 1);
        q := q.(r := q.r + 1);
      }
    }

    /** The score a period must exceed at this level. */
    method ScoreThreshold(bufSmpls: int) returns (t: real)
      requires 1 <= fsOut
      ensures t == Threshold(fsOut, bufSmpls)
    {
      t := 0.75 - (fsOut * 35 - bufSmpls) as real * (0.015 / fsOut as real);
    }

    method RepeatCount(bestD: nat) returns (n: nat)
      requires 0 <= fsOut && 0 < bestD
      ensures n == Repeats(fsOut, bestD)
    {
      RepeatsRounds(fsOut, bestD);
      n := ((10 * fsOut) as real / bestD as real + 0.5).Floor;
    }

    /** A low level is raised when the chosen period is similar enough. */
    method BoostLoop(lag: Choice, bufSmpls: int)
      requires Valid() && 1 <= fsOut <= 20 * fsIn && 0 <= lag.lag && CanInsert(q, fsOut, lag.lag, 20 * fsIn)
      requires bufSmpls == q.Level() && q.top - RING <= q.r - lag.lag
      requires q.Level() <= 45 * fsOut && 45 * fsOut + lag.lag / 2 + lag.lag <= RING
      modifies this`writeIdx, this`q, buf
      ensures Valid() && q == Boost(old(q), fsOut, fsIn, lag)
    {
      hide Stretch, Repeats, Threshold;
      if bufSmpls < fsOut * 35 {
        var ncThres := ScoreThreshold(bufSmpls);
        if lag.score > ncThres {
          var times := RepeatCount(lag.lag);
          assert Boost(q, fsOut, fsIn, lag) == Stretch(q, fsOut, lag.lag, 20 * fsIn, times);
          StretchLoop(lag.lag, times);
        }
      }
    }

    /** The level control of time_scale_extract. */
    method BalanceLoops(lag: Choice, n: nat, ghost c: Config)
      requires Valid() && c.Sound() && fsOut == c.fs && fsIn == c.fsIn
      requires c.fs <= lag.lag <= c.maxLag && n <= c.maxOut
      requires 2 * c.fs <= q.Level() && q.top - RING <= q.r - c.maxLag
      modifies this`writeIdx, this`q, buf
      ensures Valid() && q == Balance(old(q), fsOut, fsIn, lag, n)
    {
      hide Boost, Refill, Shorten;
      var bestD := lag.lag;
      var bufSmpls := Level();
      if bufSmpls > fsOut * 45 {
        ShortenLoop(bestD);
      } else {
        BoostLoop(lag, bufSmpls);
        RefillLoop(bestD, n + 3 * fsOut);
      }
    }

    /** time_scale_extract: choose a lag, bring the level into range, read. */
    method Extract(n: nat, scores: int -> Option<real>, ghost c: Config) returns (out: seq<Sample>)
      requires Valid() && c.Sound() && fsOut == c.fs && fsIn == c.fsIn && n <= c.maxOut
      requires c.fs <= BestLag(fsIn, voiced, minL, maxL, scores).lag <= c.maxLag
      requires 2 * c.fs <= q.Level() && q.top - RING <= q.r - c.maxLag
      modifies this`readIdx, this`writeIdx, this`q, buf
      ensures Valid()
      ensures var lag := BestLag(fsIn, voiced, minL, maxL, scores);
              var b := Balance(old(q), fsOut, fsIn, lag, n);
              n <= b.Level() && (q, out) == Read(b, n)
    {
      hide Balance;
      var lag := FindLag(scores);
      BalanceBounds(c, q, lag, n);
      BalanceLoops(lag, n, c);
      out := Drain(n);
    }

    /** One insertion and one extraction between settled states. */
    method Feed(x: Step, ghost c: Config) returns (out: seq<Sample>)
      requires Valid() && c.Sound() && fsOut == c.fs && fsIn == c.fsIn && Settled(c, q) && StepOk(c, x)
      modifies this`readIdx, this`writeIdx, this`q, this`maxL, this`minL, this`voiced, buf
      ensures Valid() && Settled(c, q) && |out| == x.n && 3 * c.fs <= q.Level()
      ensures (q, out) == Advance(c, old(q), x)
    {
      hide Balance, BestLag;
      LagInRange(c, x);
      AdvanceSettled(c, q, x);
      Insert(x.input, x.maxL, x.minL, x.voiced);
      out := Extract(x.n, x.scores, c);
    }

    /** One more insertion and extraction of a run that started on a fresh buffer. */
    method Continue(x: Step, before: seq<Sample>, ghost c: Config, ghost steps: seq<Step>) returns (out: seq<Sample>)
      requires Valid() && c.Sound() && fsOut == c.fs && fsIn == c.fsIn && StepOk(c, x)
      requires StepsOk(c, steps) && (q, before) == Run(c, steps)
      modifies this`readIdx, this`writeIdx, this`q, this`maxL, this`minL, this`voiced, buf
      ensures Valid() && StepsOk(c, steps + [x]) && (q, out) == Run(c, steps + [x])
      ensures |out| == |before| + x.n
    {
      hide Advance, Run, Config.Sound, StepOk;
      RunNext(c, steps, x);
      var block := Feed(x, c);
      out := before + block;
    }

    /** Any run of insertions and extractions on a fresh buffer delivers what the
        stream specification delivers. */
    method RunAll(c: Config, steps: seq<Step>) returns (out: seq<Sample>)
      requires Valid() && q == Empty() && c.Sound() && fsOut == c.fs && fsIn == c.fsIn && StepsOk(c, steps)
      modifies this`readIdx, this`writeIdx, this`q, this`maxL, this`minL, this`voiced, buf
      ensures Valid() && (q, out) == Run(c, steps)
    {
      hide StepOk, Run, Config.Sound;
      RunNothing(c);
      out := [];
      assert steps[..0] == [];
      for i := 0 to |steps|
        invariant Valid() && (q, out) == Run(c, steps[..i])
      {
        assert steps[..i] + [steps[i]] == steps[..i + 1];
        out := Continue(steps[i], out, c, steps[..i]);
      }
      assert steps[..|steps|] == steps;
    }
  }
}
