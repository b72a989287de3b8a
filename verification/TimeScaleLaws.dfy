/** What the time-scale buffer delivers, said of the samples themselves: first in, first out
    up to the first splice, and the same signal at another length where it is periodic. */
module TimeScaleLaws {
  import opened Samples
  import opened TimeScaleSpec
  import opened Wrappers

  /** Written and not yet delivered. */
  function Buffered(q: Stream): seq<Sample>
    requires q.r <= |q.s|
  {
    q.s[q.r..]
  }

  function Min(a: int, b: int): int { if a < b then a else b }

  lemma SameStart(s: seq<Sample>, t: seq<Sample>, r: nat, k: nat)
    requires r + k <= |s| && r + k <= |t| && s[..r + k] == t[..r + k]
    ensures s[r..][..k] == t[r..][..k]
  {
    assert s[r..][..k] == s[..r + k][r..] && t[r..][..k] == t[..r + k][r..];
  }

  lemma SameEnd(t: seq<Sample>, r: nat, m: nat)
    requires r + m <= |t|
    ensures t[r..][m..] == t[r + m..]
  {
  }

  /** What is kept from one signal to the next and on to the third. */
  lemma KeptTwice(a: seq<Sample>, b: seq<Sample>, c: seq<Sample>, i: nat, j: nat, k: nat)
    requires k <= i <= |a| && i <= |b| && k <= j <= |b| && j <= |c|
    requires b[..i] == a[..i] && c[..j] == b[..j]
    ensures c[..k] == a[..k]
  {
    assert c[..k] == c[..j][..k] && b[..k] == b[..j][..k] && b[..k] == b[..i][..k] && a[..k] == a[..i][..k];
  }

  // ---- One splice, at the place the level puts it -------------------------------------

  /** Where a removal that leaves `level` samples starts, clamped to what is buffered. */
  function RemovalStart(level: int, fs: nat, half: nat): int { level - Min(level / 2, half) - fs }

  /** Where an insertion at `level` samples starts. */
  function InsertionStart(level: int, fs: nat, tail: nat): int { Max(level - tail - fs, 0) }

  /** The buffered samples before and after a removal at `k`: kept, faded into the samples one
      period later, and kept again. */
  predicate CutAt(was: seq<Sample>, now: seq<Sample>, fs: nat, d: nat, k: int) {
    && |now| == |was| - d && 0 <= k && k + 2 * fs <= |now|
    && now[..k] == was[..k]
    && (forall i :: k <= i < k + 2 * fs ==> Faded(now[i], was[i], was[i + d], i - k, 2 * fs))
    && now[k + 2 * fs..] == was[k + d + 2 * fs..]
  }

  lemma RemoveOneContents(q: Stream, fs: nat, d: nat, half: nat)
    requires CanRemove(q, fs, d, half)
    ensures CutAt(Buffered(q), Buffered(RemoveOne(q, fs, d, half)), fs, d, RemovalStart(q.Level() - d, fs, half))
  {
    hide Removed, CutAt;
    var h, k := RemoveHalf(q.Level(), d, half), RemovalStart(q.Level() - d, fs, half);
    assert q.r + k + d == |q.s| - h - fs && 0 <= k && fs <= h && h + fs + d <= |q.s|;
    hide RemoveHalf, RemovalStart;
    RemovedFrom(q.s, q.r, fs, d, h, k);
  }

  lemma RemovedFrom(s: seq<Sample>, r: nat, fs: nat, d: nat, h: nat, k: nat)
    requires 1 <= fs <= h && h + fs + d <= |s| && r + k + d == |s| - h - fs
    ensures CutAt(s[r..], Removed(s, fs, d, h)[r..], fs, d, k)
  {
    hide Faded, Removed;
    RemovedContents(s, fs, d, h);
    var t := Removed(s, fs, d, h);
    assert t[..r + k] == s[..r + k] && t[r + k + 2 * fs..] == s[r + k + d + 2 * fs..];
    SameStart(s, t, r, k);
    RemovedWindow(s, t, r, fs, d, k);
    SameRest(s, t, r, k + 2 * fs, k + d + 2 * fs);
  }

  lemma RemovedWindow(s: seq<Sample>, t: seq<Sample>, r: nat, fs: nat, d: nat, k: nat)
    requires |t| + d == |s| && r + k + d + 2 * fs <= |s|
    requires forall j :: r + k + d <= j < r + k + d + 2 * fs ==>
               Faded(t[j - d], s[j - d], s[j], j - (r + k + d), 2 * fs)
    ensures forall i :: k <= i < k + 2 * fs ==> Faded(t[r..][i], s[r..][i], s[r..][i + d], i - k, 2 * fs)
  {
    hide Faded;
    forall i | k <= i < k + 2 * fs ensures Faded(t[r..][i], s[r..][i], s[r..][i + d], i - k, 2 * fs) {
      var j := r + i + d;
      assert Faded(t[j - d], s[j - d], s[j], j - (r + k + d), 2 * fs);
    }
  }

  /** The same for an insertion into the stream `s`, read from `r` on: kept, faded into the
      samples one period earlier, a copy of the earlier period, and kept again. */
  predicate GrownAt(s: seq<Sample>, r: nat, now: seq<Sample>, fs: nat, d: nat, k: int)
    requires fs <= d <= r <= |s|
  {
    var was := s[r..];
    && |now| == |was| + d && 0 <= k && k + 2 * fs <= |was|
    && now[..k] == was[..k]
    && (forall i :: k <= i < k + 2 * fs ==> Faded(now[i], was[i], s[r + i - d], i - k, 2 * fs))
    && (forall i :: k + 2 * fs <= i < k + fs + d ==> now[i] == s[r + i - d])
    && now[k + fs + d..] == was[k + fs..]
  }

  lemma InsertOneContents(q: Stream, fs: nat, d: nat, tail: nat)
    requires CanInsert(q, fs, d, tail)
    ensures GrownAt(q.s, q.r, Buffered(InsertOne(q, fs, d, tail)), fs, d, InsertionStart(q.Level(), fs, tail))
  {
    hide Inserted, GrownAt;
    var w, k := InsertTail(q.Level(), fs, tail), InsertionStart(q.Level(), fs, tail);
    assert q.r + k == |q.s| - w - fs && 0 <= k && fs <= w && w + fs + d <= |q.s|;
    hide InsertTail, InsertionStart;
    InsertedFrom(q.s, q.r, fs, d, w, k);
  }

  lemma InsertedFrom(s: seq<Sample>, r: nat, fs: nat, d: nat, w: nat, k: nat)
    requires 1 <= fs <= w && fs <= d <= r && w + fs + d <= |s| && r + k == |s| - w - fs
    ensures GrownAt(s, r, Inserted(s, fs, d, w)[r..], fs, d, k)
  {
    hide Faded, Inserted;
    InsertedContents(s, fs, d, w);
    var t := Inserted(s, fs, d, w);
    assert t[..r + k] == s[..r + k] && t[r + k + fs + d..] == s[r + k + fs..];
    SameStart(s, t, r, k);
    InsertedWindow(s, t, r, fs, d, k);
    SameRest(s, t, r, k + fs + d, k + fs);
  }

  lemma SameRest(s: seq<Sample>, t: seq<Sample>, r: nat, m: nat, n: nat)
    requires r + m <= |t| && r + n <= |s| && t[r + m..] == s[r + n..]
    ensures t[r..][m..] == s[r..][n..]
  {
    SameEnd(t, r, m);
    SameEnd(s, r, n);
  }

  lemma InsertedWindow(s: seq<Sample>, t: seq<Sample>, r: nat, fs: nat, d: nat, k: nat)
    requires |t| == |s| + d && d <= r && fs <= d && r + k + 2 * fs <= |s|
    requires forall j :: r + k <= j < r + k + 2 * fs ==> Faded(t[j], s[j], s[j - d], j - (r + k), 2 * fs)
    requires forall j :: r + k + 2 * fs <= j < r + k + fs + d ==> t[j] == s[j - d]
    ensures forall i :: k <= i < k + 2 * fs ==> Faded(t[r..][i], s[r..][i], s[r + i - d], i - k, 2 * fs)
    ensures forall i :: k + 2 * fs <= i < k + fs + d ==> t[r..][i] == s[r + i - d]
  {
    hide Faded;
    forall i | k <= i < k + 2 * fs ensures Faded(t[r..][i], s[r..][i], s[r + i - d], i - k, 2 * fs) {
      var j := r + i;
      assert Faded(t[j], s[j], s[j - d], j - (r + k), 2 * fs);
    }
    forall i | k + 2 * fs <= i < k + fs + d ensures t[r..][i] == s[r + i - d] {
      var j := r + i;
      assert t[j] == s[j - d];
    }
  }

  // ---- The level control ---------------------------------------------------------------

  lemma {:induction false} ShortenKeeps(q: Stream, fs: nat, d: nat, half: nat)
    requires q.Ok() && 1 <= fs <= half && 0 < d <= 43 * fs && q.Level() > 45 * fs
    ensures var was, now := Buffered(q), Buffered(Shorten(q, fs, d, half));
            var k := RemovalStart(|now|, fs, half);
            && 0 <= k <= |now| < |was| && now[..k] == was[..k]
    decreases q.Level()
  {
    hide RemovalStart, RemoveOne, Shorten;
    RemoveOneContents(q, fs, d, half);
    ShortenUnfold(q, fs, d, half);
    var one := RemoveOne(q, fs, d, half);
    var was, mid, now := Buffered(q), Buffered(one), Buffered(Shorten(q, fs, d, half));
    if one.Level() > 45 * fs {
      ShortenKeeps(one, fs, d, half);
      RemovalEarlier(|now|, |mid|, fs, half);
      KeptTwice(was, mid, now, RemovalStart(|mid|, fs, half), RemovalStart(|now|, fs, half),
                RemovalStart(|now|, fs, half));
    }
  }

  lemma ShortenUnfold(q: Stream, fs: nat, d: nat, half: nat)
    requires q.Ok() && 1 <= fs <= half && 0 < d <= 43 * fs && q.Level() > 45 * fs
    ensures var one := RemoveOne(q, fs, d, half);
            && one.Ok() && one.r == q.r && one.Level() == q.Level() - d
            && Shorten(q, fs, d, half) == Shorten(one, fs, d, half)
            && (one.Level() <= 45 * fs ==> Shorten(one, fs, d, half) == one)
  {
    hide RemoveOne;
  }

  lemma RemovalEarlier(a: int, b: int, fs: nat, half: nat)
    requires a <= b
    ensures RemovalStart(a, fs, half) <= RemovalStart(b, fs, half)
  {
  }

  lemma {:induction false} StretchKeeps(q: Stream, fs: nat, d: nat, tail: nat, n: nat)
    requires CanInsert(q, fs, d, tail)
    ensures var was, now := Buffered(q), Buffered(Stretch(q, fs, d, tail, n));
            var k := InsertionStart(|was|, fs, tail);
            && 0 <= k <= |was| <= |now| && now[..k] == was[..k]
    decreases n
  {
    hide Periods, Stretch, InsertOne;
    if n == 0 {
      StretchNothing(q, fs, d, tail);
    } else {
      hide InsertionStart;
      var one := InsertOne(q, fs, d, tail);
      StretchUnfold(q, fs, d, tail, n);
      InsertOneContents(q, fs, d, tail);
      StretchKeeps(one, fs, d, tail, n - 1);
      InsertionLater(q.Level(), one.Level(), fs, tail);
      var was, mid, now := Buffered(q), Buffered(one), Buffered(Stretch(q, fs, d, tail, n));
      KeptTwice(was, mid, now, InsertionStart(|was|, fs, tail), InsertionStart(|mid|, fs, tail),
                InsertionStart(|was|, fs, tail));
    }
  }

  lemma InsertionLater(a: int, b: int, fs: nat, tail: nat)
    requires a <= b
    ensures InsertionStart(a, fs, tail) <= InsertionStart(b, fs, tail)
  {
  }

  lemma StretchUnfold(q: Stream, fs: nat, d: nat, tail: nat, n: nat)
    requires CanInsert(q, fs, d, tail) && n > 0
    ensures CanInsert(InsertOne(q, fs, d, tail), fs, d, tail)
    ensures Stretch(q, fs, d, tail, n) == Stretch(InsertOne(q, fs, d, tail), fs, d, tail, n - 1)
  {
    hide InsertOne, Periods;
  }

  lemma {:induction false} RefillKeeps(q: Stream, fs: nat, d: nat, target: int)
    requires CanInsert(q, fs, d, fs)
    ensures var was, now := Buffered(q), Buffered(Refill(q, fs, d, target));
            var k := InsertionStart(|was|, fs, fs);
            && 0 <= k <= |was| <= |now| && now[..k] == was[..k]
    decreases target - q.Level()
  {
    if q.Level() < target {
      InsertOneContents(q, fs, d, fs);
      var one := InsertOne(q, fs, d, fs);
      assert Refill(q, fs, d, target) == Refill(one, fs, d, target);
      hide InsertOne, Refill, Faded;
      RefillKeeps(one, fs, d, target);
      var was, mid, now := Buffered(q), Buffered(one), Buffered(Refill(q, fs, d, target));
      KeptTwice(was, mid, now, InsertionStart(|was|, fs, fs), InsertionStart(|mid|, fs, fs),
                InsertionStart(|was|, fs, fs));
    }
  }

  /** A similar enough period is repeated while less than 35 ms are buffered; the lower the
      level, the less similar it needs to be. */
  predicate BoostDue(fs: nat, level: int, lag: Choice) {
    level < 35 * fs && lag.score * fs as real > 0.75 * fs as real - 0.015 * (35 * fs - level) as real
  }

  lemma BoostDueIff(fs: nat, level: int, lag: Choice)
    requires fs > 0
    ensures BoostDue(fs, level, lag) <==> level < 35 * fs && lag.score > Threshold(fs, level)
  {
    var f, m := fs as real, (35 * fs - level) as real;
    var t := Threshold(fs, level);
    assert t * f == 0.75 * f - 0.015 * m by {
      assert (0.015 / f) * f == 0.015;
      assert t * f == 0.75 * f - m * ((0.015 / f) * f);
    }
    Ordered(t, lag.score, f, t * f, lag.score * f);
    Ordered(lag.score, t, f, lag.score * f, t * f);
  }

  /** Whether anything is removed or repeated when `level` samples are buffered. */
  predicate Spliced(c: Config, level: int, lag: Choice, n: nat) {
    level > 45 * c.fs || level < n + 3 * c.fs || (BoostDue(c.fs, level, lag) && lag.lag <= 20 * c.fs)
  }

  /** How many of the `level` buffered samples come before the first splice that brings
      them to `final`. */
  function Kept(c: Config, level: int, final: int, lag: Choice, n: nat): int {
    if !Spliced(c, level, lag, n) then level
    else if level > 45 * c.fs then RemovalStart(final, c.fs, 20 * c.fsIn)
    else InsertionStart(level, c.fs, if BoostDue(c.fs, level, lag) then 20 * c.fsIn else c.fs)
  }

  lemma BalanceKeeps(c: Config, q: Stream, lag: Choice, n: nat)
    requires c.Sound() && q.Ok() && 2 * c.fs <= q.Level() && n <= c.maxOut && c.fs <= lag.lag <= c.maxLag
    ensures var was, now := Buffered(q), Buffered(Balance(q, c.fs, c.fsIn, lag, n));
            var k := Kept(c, |was|, |now|, lag, n);
            && 0 <= k <= |was| && k <= |now| && now[..k] == was[..k]
            && (Spliced(c, |was|, lag, n) <==> |now| != |was|)
            && (!Spliced(c, |was|, lag, n) ==> now == was)
  {
    hide Shorten, Refill, Boost, BoostDue;
    if q.Level() > 45 * c.fs {
      ShortenKeeps(q, c.fs, lag.lag, 20 * c.fsIn);
    } else {
      RaisedKeeps(c, q, lag, n);
    }
  }

  lemma RaisedKeeps(c: Config, q: Stream, lag: Choice, n: nat)
    requires c.Sound() && q.Ok() && 2 * c.fs <= q.Level() <= 45 * c.fs && c.fs <= lag.lag <= c.maxLag
    ensures var was, now := Buffered(q), Buffered(Refill(Boost(q, c.fs, c.fsIn, lag), c.fs, lag.lag, n + 3 * c.fs));
            var k := InsertionStart(|was|, c.fs, if BoostDue(c.fs, |was|, lag) then 20 * c.fsIn else c.fs);
            && 0 <= k <= |was| <= |now| && now[..k] == was[..k]
            && (Spliced(c, |was|, lag, n) <==> |now| != |was|)
            && (|now| == |was| ==> now == was)
  {
    hide Boost, Refill, BoostDue;
    BoostKeeps(c, q, lag);
    var b := Boost(q, c.fs, c.fsIn, lag);
    RefillKeeps(b, c.fs, lag.lag, n + 3 * c.fs);
    var was, mid, now := Buffered(q), Buffered(b), Buffered(Refill(b, c.fs, lag.lag, n + 3 * c.fs));
    var k := InsertionStart(|was|, c.fs, if BoostDue(c.fs, |was|, lag) then 20 * c.fsIn else c.fs);
    KeptTwice(was, mid, now, k, InsertionStart(|mid|, c.fs, c.fs), k);
  }

  lemma RepeatsSome(fs: nat, d: nat)
    requires d > 0
    ensures Repeats(fs, d) > 0 <==> d <= 20 * fs
  {
    var n := Repeats(fs, d);
    assert 20 * fs + d == (2 * d) * n + (20 * fs + d) % (2 * d);
    if n > 0 { ProductStep(2 * d, 0, n); }
  }

  lemma BoostKeeps(c: Config, q: Stream, lag: Choice)
    requires c.Sound() && q.Ok() && 2 * c.fs <= q.Level() <= 45 * c.fs && c.fs <= lag.lag <= c.maxLag
    ensures var was, now := Buffered(q), Buffered(Boost(q, c.fs, c.fsIn, lag));
            var k := InsertionStart(|was|, c.fs, if BoostDue(c.fs, |was|, lag) then 20 * c.fsIn else c.fs);
            && 0 <= k <= |was| <= |now| && now[..k] == was[..k]
            && (|now| != |was| <==> BoostDue(c.fs, |was|, lag) && lag.lag <= 20 * c.fs)
            && (|now| == |was| ==> now == was)
  {
    hide Stretch, BoostDue, Periods, Repeats, Threshold;
    BoostDueIff(c.fs, q.Level(), lag);
    RepeatsSome(c.fs, lag.lag);
    var n := Repeats(c.fs, lag.lag);
    StretchKeeps(q, c.fs, lag.lag, 20 * c.fsIn, n);
    if n == 0 { StretchNothing(q, c.fs, lag.lag, 20 * c.fsIn); }
  }

  lemma StretchNothing(q: Stream, fs: nat, d: nat, tail: nat)
    requires CanInsert(q, fs, d, tail)
    ensures Stretch(q, fs, d, tail, 0) == q
  {
  }

  // ---- One call ------------------------------------------------------------------------

  lemma Opened(c: Config, q: Stream, x: Step) returns (w: Stream, b: Stream)
    requires c.Sound() && Settled(c, q) && StepOk(c, x)
    ensures c.fs <= x.Lag(c.fsIn).lag <= c.maxLag
    ensures w == Write(q, x.input) && w.Ok() && w.r == q.r && 2 * c.fs <= w.Level()
    ensures b == Balance(w, c.fs, c.fsIn, x.Lag(c.fsIn), x.n) && b.Ok() && b.r == q.r && x.n <= b.Level()
    ensures Advance(c, q, x) == Read(b, x.n)
  {
    hide Balance, Step.Lag;
    LagInRange(c, x);
    w := Write(q, x.input);
    BalanceBounds(c, w, x.Lag(c.fsIn), x.n);
    b := Balance(w, c.fs, c.fsIn, x.Lag(c.fsIn), x.n);
  }

  /** First in, first out: what a call delivers, followed by what stays buffered, begins
      with what was buffered and what was inserted, up to the first splice; and it is just
      that if and only if nothing is spliced. */
  lemma Delivers(c: Config, q: Stream, x: Step)
    requires c.Sound() && Settled(c, q) && StepOk(c, x)
    ensures var (q', out) := Advance(c, q, x);
            && q'.r <= |q'.s| && |out| == x.n
            && var was, now, lag := Buffered(q) + x.input, out + Buffered(q'), x.Lag(c.fsIn);
               var k := Kept(c, |was|, |now|, lag, x.n);
               && 0 <= k <= |was| && k <= |now| && now[..k] == was[..k]
               && (now == was <==> !Spliced(c, |was|, lag, x.n))
  {
    hide Balance, Step.Lag, Kept, Spliced, Advance, Read, Write, Buffered;
    var w, b := Opened(c, q, x);
    WriteJoins(q, x.input);
    BalanceKeeps(c, w, x.Lag(c.fsIn), x.n);
    ReadJoins(b, x.n);
  }

  lemma WriteJoins(q: Stream, input: seq<Sample>)
    requires q.Ok()
    ensures Write(q, input).r <= |Write(q, input).s| && Buffered(Write(q, input)) == Buffered(q) + input
  {
  }

  lemma ReadJoins(b: Stream, n: nat)
    requires b.Ok() && n <= b.Level()
    ensures var (q, out) := Read(b, n); q.r <= |q.s| && |out| == n && out + Buffered(q) == Buffered(b)
  {
  }

  // ---- The level after a call ------------------------------------------------------------

  lemma {:induction false} ShortenLevel(q: Stream, fs: nat, d: nat, half: nat) returns (m: nat)
    requires q.Ok() && 1 <= fs <= half && 0 < d <= 43 * fs
    ensures Shorten(q, fs, d, half).Level() == q.Level() - Periods(m, d)
    decreases q.Level()
  {
    if q.Level() > 45 * fs {
      var k := ShortenLevel(RemoveOne(q, fs, d, half), fs, d, half);
      hide RemoveOne, Periods;
      OneMore(k + 1, d);
      m := k + 1;
    } else {
      NoPeriods(d);
      m := 0;
    }
  }

  lemma {:induction false} RefillLevel(q: Stream, fs: nat, d: nat, target: int) returns (m: nat)
    requires CanInsert(q, fs, d, fs)
    ensures Refill(q, fs, d, target).Level() == q.Level() + Periods(m, d)
    decreases target - q.Level()
  {
    if q.Level() < target {
      var k := RefillLevel(InsertOne(q, fs, d, fs), fs, d, target);
      hide InsertOne, Periods;
      OneMore(k + 1, d);
      m := k + 1;
    } else {
      NoPeriods(d);
      m := 0;
    }
  }

  /** `n` periods make up ten milliseconds as nearly as whole periods can. */
  ghost predicate Nearest(n: nat, fs: nat, d: nat) {
    2 * Periods(n, d) <= 20 * fs + d < 2 * Periods(n, d) + 2 * d
  }

  lemma RepeatsNearest(fs: nat, d: nat)
    requires d > 0
    ensures Nearest(Repeats(fs, d), fs, d)
  {
    var n := Repeats(fs, d);
    assert 20 * fs + d == (2 * d) * n + (20 * fs + d) % (2 * d);
    assert (2 * d) * n == 2 * Periods(n, d);
  }

  /** A high level loses whole periods down to 45 ms. A low one gains the periods nearest to
      ten milliseconds if a boost is due, and then as many as it takes to reach the
      samples asked for and 3 ms. */
  lemma LevelLaw(c: Config, q: Stream, lag: Choice, n: nat) returns (boost: nat, m: nat)
    requires c.Sound() && q.Ok() && 2 * c.fs <= q.Level() && n <= c.maxOut && c.fs <= lag.lag <= c.maxLag
    ensures var was, now := q.Level(), Balance(q, c.fs, c.fsIn, lag, n).Level();
            if was > 45 * c.fs then
              now == was - Periods(m, lag.lag) && 45 * c.fs - lag.lag < now <= 45 * c.fs
            else
              var base := was + if BoostDue(c.fs, was, lag) then Periods(boost, lag.lag) else 0;
              && Nearest(boost, c.fs, lag.lag) && now == base + Periods(m, lag.lag)
              && (if base < n + 3 * c.fs then n + 3 * c.fs <= now < n + 3 * c.fs + lag.lag else now == base)
  {
    hide Shorten, Refill, Stretch, BoostDue, Periods, Repeats, Threshold, Nearest;
    BoostDueIff(c.fs, q.Level(), lag);
    boost := Repeats(c.fs, lag.lag);
    RepeatsNearest(c.fs, lag.lag);
    if q.Level() > 45 * c.fs {
      m := ShortenLevel(q, c.fs, lag.lag, 20 * c.fsIn);
    } else {
      m := RefillLevel(Boost(q, c.fs, c.fsIn, lag), c.fs, lag.lag, n + 3 * c.fs);
    }
  }

  /** The lag: the first with the best score in a voiced frame, ten milliseconds with a low
      score if the frame is unvoiced or no lag has a score above -1. */
  lemma ChosenLag(fsIn: nat, voiced: bool, minL: nat, maxL: int, scores: int -> Option<real>)
    ensures var c := BestLag(fsIn, voiced, minL, maxL, scores);
            if voiced && exists d :: minL <= d <= maxL && scores(d).Some? && scores(d).value > -1.0 then
              && minL <= c.lag <= maxL && scores(c.lag) == Some(c.score)
              && (forall d :: minL <= d <= maxL && scores(d).Some? ==> scores(d).value <= c.score)
              && (forall d :: minL <= d < c.lag && scores(d).Some? ==> scores(d).value < c.score)
            else c == Choice(10 * fsIn, 0.1)
  {
    SearchFindsBest(minL, Max(minL, maxL + 1), scores);
    SearchScored(minL, Max(minL, maxL + 1), scores);
  }

  lemma {:induction false} SearchScored(minL: int, d: int, scores: int -> Option<real>)
    ensures var c := Search(minL, d, scores); c.lag != -1 ==> c.score > -1.0
    ensures Search(minL, d, scores).score >= -1.0
    decreases d - minL
  {
    if d > minL { SearchScored(minL, d - 1, scores); }
  }

  // ---- Periodic signals ------------------------------------------------------------------

  ghost predicate Repeating(f: int -> Sample, d: nat) { forall k :: Again(f, d, k) }

  predicate Again(f: int -> Sample, d: nat, k: int) { f(k + d) == f(k) }

  lemma AgainAt(f: int -> Sample, d: nat, k: int)
    requires Repeating(f, d)
    ensures f(k + d) == f(k)
  {
    assert Again(f, d, k);
  }

  function From(f: int -> Sample, a: int, j: int): Sample { f(a + j) }

  /** From `a` on the signal is what it is from `b` on. */
  ghost predicate InPhase(f: int -> Sample, a: int, b: int) { forall j :: From(f, a, j) == From(f, b, j) }

  lemma PhaseMoves(f: int -> Sample, a: int, b: int, m: int)
    requires InPhase(f, a, b)
    ensures InPhase(f, a + m, b + m)
  {
    var a', b' := a + m, b + m;
    forall j ensures From(f, a', j) == From(f, b', j) {
      assert From(f, a, m + j) == From(f, b, m + j);
    }
  }

  lemma PhasePeriod(f: int -> Sample, d: nat, a: int, b: int)
    requires Repeating(f, d) && InPhase(f, a, b)
    ensures InPhase(f, a, b + d) && InPhase(f, a, b - d)
  {
    forall j ensures From(f, a, j) == From(f, b + d, j) && From(f, a, j) == From(f, b - d, j) {
      assert From(f, a, j) == From(f, b, j);
      AgainAt(f, d, b + j);
      AgainAt(f, d, b - d + j);
    }
  }

  /** The stream holds the signal, with one period of history: the next sample to be read is
      f(o), and the signal goes on from f(e) after the last one written. */
  ghost predicate Carries(q: Stream, d: nat, f: int -> Sample, o: int, e: int) {
    && q.Ok() && d <= q.r && InPhase(f, e, o + q.Level())
    && forall k :: q.r - d <= k < |q.s| ==> q.s[k] == f(k - q.r + o)
  }

  lemma CarriesPeriodic(q: Stream, d: nat, f: int -> Sample, o: int, e: int)
    requires Carries(q, d, f, o, e) && Repeating(f, d)
    ensures Periodic(q.s, d, q.r)
  {
    hide InPhase, Repeating;
    forall k | q.r <= k < |q.s| ensures q.s[k] == q.s[k - d] {
      AgainAt(f, d, k - d - q.r + o);
    }
  }

  lemma WriteCarries(q: Stream, input: seq<Sample>, d: nat, f: int -> Sample, o: int, e: int)
    requires Carries(q, d, f, o, e) && forall j :: 0 <= j < |input| ==> input[j] == f(e + j)
    ensures Carries(Write(q, input), d, f, o, e + |input|)
  {
    PhaseMoves(f, e, o + q.Level(), |input|);
    var w := Write(q, input);
    forall k | q.r - d <= k < |w.s| ensures w.s[k] == f(k - q.r + o) {
      if k >= |q.s| { assert From(f, e, k - |q.s|) == From(f, o + q.Level(), k - |q.s|); }
    }
  }

  lemma ReadCarries(q: Stream, n: nat, d: nat, f: int -> Sample, o: int, e: int)
    requires Carries(q, d, f, o, e) && n <= q.Level()
    ensures Carries(Read(q, n).0, d, f, o + n, e) && |Read(q, n).1| == n
    ensures forall k :: 0 <= k < n ==> Read(q, n).1[k] == f(o + k)
  {
    hide InPhase;
  }

  lemma InsertCarries(q: Stream, fs: nat, d: nat, tail: nat, f: int -> Sample, o: int, e: int)
    requires CanInsert(q, fs, d, tail) && Carries(q, d, f, o, e) && Repeating(f, d)
    ensures Carries(InsertOne(q, fs, d, tail), d, f, o, e)
  {
    hide InsertOne, InPhase, Repeating, Carries;
    CarriesPeriodic(q, d, f, o, e);
    InsertOnePeriodic(q, fs, d, tail);
    ExtendedCarries(q, InsertOne(q, fs, d, tail), d, f, o, e);
  }

  lemma ExtendedCarries(q: Stream, t: Stream, d: nat, f: int -> Sample, o: int, e: int)
    requires Carries(q, d, f, o, e) && Repeating(f, d) && d <= |q.s|
    requires t.Ok() && t.r == q.r && t.s == q.s + q.s[|q.s| - d..]
    ensures Carries(t, d, f, o, e)
  {
    PhasePeriod(f, d, e, o + q.Level());
    hide InPhase, Repeating;
    forall k | q.r - d <= k < |t.s| ensures t.s[k] == f(k - q.r + o) {
      if k >= |q.s| { AgainAt(f, d, k - d - q.r + o); }
    }
  }

  lemma RemoveCarries(q: Stream, fs: nat, d: nat, half: nat, f: int -> Sample, o: int, e: int)
    requires CanRemove(q, fs, d, half) && Carries(q, d, f, o, e) && Repeating(f, d)
    ensures Carries(RemoveOne(q, fs, d, half), d, f, o, e)
  {
    CarriesPeriodic(q, d, f, o, e);
    RemoveOnePeriodic(q, fs, d, half);
    PhasePeriod(f, d, e, o + q.Level());
    hide RemoveOne, InPhase, Repeating;
  }

  lemma {:induction false} ShortenCarries(q: Stream, fs: nat, d: nat, half: nat, f: int -> Sample, o: int, e: int)
    requires q.Ok() && 1 <= fs <= half && 0 < d <= 43 * fs && Carries(q, d, f, o, e) && Repeating(f, d)
    ensures Carries(Shorten(q, fs, d, half), d, f, o, e)
    decreases q.Level()
  {
    hide Carries, Repeating;
    if q.Level() > 45 * fs {
      RemoveCarries(q, fs, d, half, f, o, e);
      ShortenCarries(RemoveOne(q, fs, d, half), fs, d, half, f, o, e);
    }
  }

  lemma {:induction false} StretchCarries(q: Stream, fs: nat, d: nat, tail: nat, n: nat,
                                          f: int -> Sample, o: int, e: int)
    requires CanInsert(q, fs, d, tail) && Carries(q, d, f, o, e) && Repeating(f, d)
    ensures Carries(Stretch(q, fs, d, tail, n), d, f, o, e)
    decreases n
  {
    hide Carries, Repeating, Periods, Stretch, InsertOne;
    if n == 0 {
      StretchNothing(q, fs, d, tail);
    } else {
      InsertCarries(q, fs, d, tail, f, o, e);
      StretchUnfold(q, fs, d, tail, n);
      StretchCarries(InsertOne(q, fs, d, tail), fs, d, tail, n - 1, f, o, e);
    }
  }

  lemma {:induction false} RefillCarries(q: Stream, fs: nat, d: nat, target: int, f: int -> Sample, o: int, e: int)
    requires CanInsert(q, fs, d, fs) && Carries(q, d, f, o, e) && Repeating(f, d)
    ensures Carries(Refill(q, fs, d, target), d, f, o, e)
    decreases target - q.Level()
  {
    hide Carries, Repeating;
    if q.Level() < target {
      InsertCarries(q, fs, d, fs, f, o, e);
      RefillCarries(InsertOne(q, fs, d, fs), fs, d, target, f, o, e);
    }
  }

  lemma BalanceCarries(c: Config, q: Stream, lag: Choice, n: nat, f: int -> Sample, o: int, e: int)
    requires c.Sound() && q.Ok() && 2 * c.fs <= q.Level() && c.fs <= lag.lag <= c.maxLag
    requires Carries(q, lag.lag, f, o, e) && Repeating(f, lag.lag)
    ensures Carries(Balance(q, c.fs, c.fsIn, lag, n), lag.lag, f, o, e)
  {
    hide Carries, Repeating, Shorten, Stretch, Refill, Periods, Repeats, Threshold;
    if q.Level() > 45 * c.fs {
      ShortenCarries(q, c.fs, lag.lag, 20 * c.fsIn, f, o, e);
    } else {
      StretchCarries(q, c.fs, lag.lag, 20 * c.fsIn, Repeats(c.fs, lag.lag), f, o, e);
      RefillCarries(Boost(q, c.fs, c.fsIn, lag), c.fs, lag.lag, n + 3 * c.fs, f, o, e);
    }
  }

  /** Where the signal has the chosen lag as its period, a call delivers the signal itself,
      whatever was removed or repeated, and the buffer goes on holding it. */
  lemma PeriodicStep(c: Config, q: Stream, x: Step, d: nat, f: int -> Sample, o: int, e: int)
    requires c.Sound() && Settled(c, q) && StepOk(c, x) && x.Lag(c.fsIn).lag == d
    requires Carries(q, d, f, o, e) && Repeating(f, d)
    requires forall j :: 0 <= j < |x.input| ==> x.input[j] == f(e + j)
    ensures var (q', out) := Advance(c, q, x);
            && |out| == x.n && (forall k :: 0 <= k < x.n ==> out[k] == f(o + k))
            && Carries(q', d, f, o + x.n, e + |x.input|)
  {
    hide Balance, Step.Lag, Carries, Repeating, Advance, Write, Read, Settled, StepOk;
    var w, b := Opened(c, q, x);
    WriteCarries(q, x.input, d, f, o, e);
    BalanceCarries(c, w, x.Lag(c.fsIn), x.n, f, o, e + |x.input|);
    ReadCarries(b, x.n, d, f, o, e + |x.input|);
  }

  // ---- Whole runs --------------------------------------------------------------------------

  function Inputs(steps: seq<Step>): seq<Sample> {
    if steps == [] then [] else Inputs(steps[..|steps| - 1]) + steps[|steps| - 1].input
  }

  /** The state after `before` and the first `i` steps of `more`. */
  function StateAt(c: Config, before: seq<Step>, more: seq<Step>, i: nat): (q: Stream)
    requires c.Sound() && StepsOk(c, before) && StepsOk(c, more) && i <= |more|
    ensures Settled(c, q)
  {
    Run(c, before + more[..i]).0
  }

  predicate SplicedAt(c: Config, before: seq<Step>, more: seq<Step>, i: nat)
    requires c.Sound() && StepsOk(c, before) && StepsOk(c, more) && i < |more|
  {
    Spliced(c, StateAt(c, before, more, i).Level() + |more[i].input|, more[i].Lag(c.fsIn), more[i].n)
  }

  lemma RunOneMore(c: Config, before: seq<Step>, more: seq<Step>, n: nat)
    requires c.Sound() && StepsOk(c, before) && StepsOk(c, more) && n + 1 == |more|
    ensures StepsOk(c, before + more[..n]) && StepsOk(c, before + more)
    ensures var (q, out) := Run(c, before + more[..n]); var (q', add) := Advance(c, q, more[n]);
            Run(c, before + more) == (q', out + add)
  {
    assert before + more == before + more[..n] + [more[n]];
    RunNext(c, before + more[..n], more[n]);
  }

  lemma RunNoMore(c: Config, before: seq<Step>)
    requires c.Sound() && StepsOk(c, before)
    ensures before + [] == before && StateAt(c, before, [], 0) == Run(c, before).0
  {
    var none: seq<Step> := [];
    assert before + none == before && none[..0] == none;
  }

  lemma StateStays(c: Config, before: seq<Step>, more: seq<Step>, n: nat, i: nat)
    requires c.Sound() && StepsOk(c, before) && StepsOk(c, more) && i <= n <= |more|
    ensures StateAt(c, before, more[..n], i) == StateAt(c, before, more, i)
  {
    assert more[..n][..i] == more[..i];
  }

  lemma Rejoined(out: seq<Sample>, add: seq<Sample>, left: seq<Sample>, held: seq<Sample>, x: seq<Sample>,
                 start: seq<Sample>, ins: seq<Sample>)
    requires add + left == held + x && out + held == start + ins
    ensures out + add + left == start + (ins + x)
  {
    assert out + add + left == out + (add + left);
    assert out + (held + x) == out + held + x;
  }

  /** First in, first out over any stretch of any run: while nothing is spliced, everything
      delivered followed by everything buffered is what it was, followed by all inputs. */
  lemma {:induction false} FirstInFirstOut(c: Config, before: seq<Step>, more: seq<Step>)
    requires c.Sound() && StepsOk(c, before) && StepsOk(c, more)
    requires forall i :: 0 <= i < |more| ==> !SplicedAt(c, before, more, i)
    ensures StepsOk(c, before + more)
    ensures var (p, sent), (q, all) := Run(c, before), Run(c, before + more);
            all + Buffered(q) == sent + Buffered(p) + Inputs(more)
    decreases |more|
  {
    hide Run, Advance, Spliced, Inputs;
    if more == [] {
      RunNoMore(c, before);
      NothingYet([], _ => 0, 0);
    } else {
      var n := |more| - 1;
      UnsplicedBefore(c, before, more, n);
      FirstInFirstOut(c, before, more[..n]);
      RunOneMore(c, before, more, n);
      var (q, out) := Run(c, before + more[..n]);
      var (q', add) := Advance(c, q, more[n]);
      assert !SplicedAt(c, before, more, n);
      hide SplicedAt;
      AddsInput(c, q, more[n]);
      var (p, sent) := Run(c, before);
      InputsUnfold(more, n);
      Rejoined(out, add, Buffered(q'), Buffered(q), more[n].input, sent + Buffered(p), Inputs(more[..n]));
    }
  }

  lemma UnsplicedBefore(c: Config, before: seq<Step>, more: seq<Step>, n: nat)
    requires c.Sound() && StepsOk(c, before) && StepsOk(c, more) && n + 1 == |more|
    requires forall i :: 0 <= i < |more| ==> !SplicedAt(c, before, more, i)
    ensures forall i :: 0 <= i < n ==> !SplicedAt(c, before, more[..n], i)
  {
    hide Run, Spliced;
    forall i | 0 <= i < n ensures !SplicedAt(c, before, more[..n], i) {
      StateStays(c, before, more, n, i);
      assert more[..n][i] == more[i];
      assert !SplicedAt(c, before, more, i);
    }
  }

  lemma AddsInput(c: Config, q: Stream, x: Step)
    requires c.Sound() && Settled(c, q) && StepOk(c, x)
    requires !Spliced(c, q.Level() + |x.input|, x.Lag(c.fsIn), x.n)
    ensures var (q', out) := Advance(c, q, x); q'.r <= |q'.s| && out + Buffered(q') == Buffered(q) + x.input
  {
    hide Advance, Spliced, Step.Lag;
    Delivers(c, q, x);
  }

  lemma InputsUnfold(more: seq<Step>, n: nat)
    requires n + 1 == |more|
    ensures Inputs(more) == Inputs(more[..n]) + more[n].input
  {
  }

  /** From position `start` on, these are the samples of the signal from `o` on. */
  predicate Follows(all: seq<Sample>, start: nat, f: int -> Sample, o: int) {
    forall k :: start <= k < |all| ==> all[k] == f(o + k - start)
  }

  lemma FollowsMore(all: seq<Sample>, add: seq<Sample>, start: nat, f: int -> Sample, o: int)
    requires start <= |all| && Follows(all, start, f, o)
    requires forall k :: 0 <= k < |add| ==> add[k] == f(o + (|all| - start) + k)
    ensures Follows(all + add, start, f, o)
  {
  }

  lemma InputsSplit(more: seq<Step>, n: nat, f: int -> Sample, e: int)
    requires n + 1 == |more| && Follows(Inputs(more), 0, f, e)
    ensures |Inputs(more)| == |Inputs(more[..n])| + |more[n].input|
    ensures Follows(Inputs(more[..n]), 0, f, e)
    ensures forall j :: 0 <= j < |more[n].input| ==> more[n].input[j] == f(e + |Inputs(more[..n])| + j)
  {
    var ins, m := Inputs(more), |Inputs(more[..n])|;
    assert ins == Inputs(more[..n]) + more[n].input;
    forall j | 0 <= j < m ensures Inputs(more[..n])[j] == f(e + j) { assert ins[j] == f(e + j - 0); }
    forall j | 0 <= j < |more[n].input| ensures more[n].input[j] == f(e + m + j) {
      assert ins[m + j] == more[n].input[j];
    }
  }

  /** A signal whose period is the chosen lag comes out as it went in, over any stretch of
      any run, whatever is removed or repeated on the way. */
  lemma {:induction false} PeriodicRun(c: Config, before: seq<Step>, more: seq<Step>, d: nat,
                                       f: int -> Sample, o: int, e: int)
    requires c.Sound() && StepsOk(c, before) && StepsOk(c, more)
    requires Carries(Run(c, before).0, d, f, o, e) && Repeating(f, d)
    requires forall i :: 0 <= i < |more| ==> more[i].Lag(c.fsIn).lag == d
    requires Follows(Inputs(more), 0, f, e)
    ensures StepsOk(c, before + more)
    ensures var sent, (q, all) := Run(c, before).1, Run(c, before + more);
            && |all| == |sent| + Total(more) && all[..|sent|] == sent && Follows(all, |sent|, f, o)
            && Carries(q, d, f, o + Total(more), e + |Inputs(more)|)
    decreases |more|
  {
    hide Run, Advance, Carries, Repeating, Step.Lag, Follows, Inputs;
    if more == [] {
      RunNoMore(c, before);
      NothingYet(Run(c, before).1, f, o);
    } else {
      var n := |more| - 1;
      InputsSplit(more, n, f, e);
      PeriodicRun(c, before, more[..n], d, f, o, e);
      RunOneMore(c, before, more, n);
      var (q, out) := Run(c, before + more[..n]);
      var sent := Run(c, before).1;
      PeriodicStep(c, q, more[n], d, f, o + Total(more[..n]), e + |Inputs(more[..n])|);
      FollowsMore(out, Advance(c, q, more[n]).1, |sent|, f, o);
      assert (out + Advance(c, q, more[n]).1)[..|sent|] == out[..|sent|];
    }
  }

  lemma NothingYet(sent: seq<Sample>, f: int -> Sample, o: int)
    ensures Follows(sent, |sent|, f, o) && Inputs([]) == []
  {
  }
}
