/** 16-bit samples and the linear crossfade used by the time-scale splices. */
module Samples {

  type Sample = x: int | -32768 <= x <= 32767

  /** The C conversion of a floating-point value to an integer: toward zero. */
  function Truncate(x: real): (n: int)
    ensures x >= 0.0 ==> n as real <= x < n as real + 1.0
    ensures x < 0.0 ==> n as real - 1.0 < x <= n as real
  {
    if x >= 0.0 then x.Floor else -((-x).Floor)
  }

  lemma ProductStep(l: nat, x: int, y: int)
    ensures x < y ==> l * x + l <= l * y
  {
    if x < y {
      var d := y - x - 1;
      assert l * d >= 0;
      assert l * y == l * x + l + l * d;
    }
  }

  lemma TruncateWithin(x: real, lo: int, hi: int)
    requires lo as real <= x <= hi as real
    ensures lo <= Truncate(x) <= hi
  {
  }

  /** Weighted mean of two samples, `up` being the weight of `rising`. */
  function Mix(falling: Sample, rising: Sample, up: real): (s: Sample)
    requires 0.0 <= up <= 1.0
    ensures falling <= rising ==> falling <= s <= rising
    ensures rising <= falling ==> rising <= s <= falling
  {
    MixBetween(falling as real, rising as real, up);
    var v := Blend(falling as real, rising as real, up);
    TruncateWithin(v, if falling <= rising then falling else rising, if falling <= rising then rising else falling);
    Truncate(v)
  }

  function Blend(f: real, r: real, up: real): real {
    f * (1.0 - up) + r * up
  }

  lemma MixBetween(f: real, r: real, up: real)
    requires 0.0 <= up <= 1.0
    ensures f <= r ==> f <= Blend(f, r, up) <= r
    ensures r <= f ==> r <= Blend(f, r, up) <= f
  {
    assert Blend(f, r, up) - f == (r - f) * up;
    assert r - Blend(f, r, up) == (r - f) * (1.0 - up);
    if f <= r {
      ProductNonNegative(r - f, up);
      ProductNonNegative(r - f, 1.0 - up);
    } else {
      ProductNonNegative(f - r, up);
      ProductNonNegative(f - r, 1.0 - up);
      assert (f - r) * up == -((r - f) * up);
      assert (f - r) * (1.0 - up) == -((r - f) * (1.0 - up));
    }
  }

  lemma ProductNonNegative(a: real, b: real)
    requires a >= 0.0 && b >= 0.0
    ensures a * b >= 0.0
  {
  }

  /** Dividing by a positive number keeps the order. */
  lemma Ordered(a: real, b: real, r: real, ar: real, br: real)
    requires r > 0.0 && ar == a * r && br == b * r
    ensures ar <= br ==> a <= b
    ensures ar < br ==> a < b
  {
    if b < a {
      ProductPositive(a - b, r);
      assert (a - b) * r == ar - br;
    }
  }

  lemma ProductPositive(a: real, b: real)
    requires a > 0.0 && b > 0.0
    ensures a * b > 0.0
  {
  }

  /** Weight of the rising signal at step `i` of an `n`-step window. */
  function Weight(i: nat, n: nat): (u: real)
    requires i < n
    ensures 0.0 <= u <= 1.0
  {
    (i + 1) as real / n as real
  }

  /** The first `n` samples of one signal fading out while another fades in. */
  function FadeSteps(falling: seq<Sample>, rising: seq<Sample>, n: nat): (s: seq<Sample>)
    requires n <= |falling| == |rising|
    ensures |s| == n
  {
    if n == 0 then []
    else FadeSteps(falling, rising, n - 1) + [Mix(falling[n - 1], rising[n - 1], Weight(n - 1, |falling|))]
  }

  function Crossfade(falling: seq<Sample>, rising: seq<Sample>): (s: seq<Sample>)
    requires |falling| == |rising|
    ensures |s| == |falling|
  {
    FadeSteps(falling, rising, |falling|)
  }

  /** Every faded sample is the weighted mean of its two sources. */
  lemma {:induction false} FadeAt(falling: seq<Sample>, rising: seq<Sample>, n: nat, i: nat)
    requires i < n <= |falling| == |rising|
    ensures FadeSteps(falling, rising, n)[i] == Mix(falling[i], rising[i], Weight(i, |falling|))
  {
    if i < n - 1 {
      FadeAt(falling, rising, n - 1, i);
    }
  }

  /** The fade is a straight ramp: step `i` of `n` weighs the rising signal with i + 1 and the
      falling one with n - i - 1, and loses less than one to rounding; it ends on the rising
      signal. */
  lemma CrossfadeRamp(falling: seq<Sample>, rising: seq<Sample>, i: nat)
    requires i < |falling| == |rising|
    ensures OnRamp(falling[i], rising[i], i, |falling|, Crossfade(falling, rising)[i])
    ensures i == |falling| - 1 ==> Crossfade(falling, rising)[i] == rising[i]
  {
    hide Mix, OnRamp;
    FadeAt(falling, rising, |falling|, i);
    MixRamp(falling[i], rising[i], i, |falling|);
  }

  predicate OnRamp(f: int, r: int, i: nat, n: nat, z: int) {
    var ramp := f * (n - i - 1) + r * (i + 1);
    ramp - n < n * z < ramp + n
  }

  lemma WeightEnds(n: nat)
    requires n > 0
    ensures Weight(n - 1, n) == 1.0
  {
    Whole(n as real);
  }

  lemma Whole(x: real)
    requires x != 0.0
    ensures x / x == 1.0
  {
  }

  lemma BlendEnds(f: real, r: real)
    ensures Blend(f, r, 1.0) == r
  {
  }

  lemma MixRamp(f: Sample, r: Sample, i: nat, n: nat)
    requires i < n
    ensures OnRamp(f, r, i, n, Mix(f, r, Weight(i, n)))
    ensures i == n - 1 ==> Mix(f, r, Weight(i, n)) == r
  {
    hide Truncate;
    var v, ramp := Blend(f as real, r as real, Weight(i, n)), f * (n - i - 1) + r * (i + 1);
    RampOf(f, r, i, n, v);
    if i == n - 1 {
      WeightEnds(n);
      BlendEnds(f as real, r as real);
      TruncateWithin(v, r, r);
    }
    hide Weight, Blend;
    Rounded(v, n, Truncate(v), ramp, n * Truncate(v));
  }

  lemma RampOf(f: int, r: int, i: nat, n: nat, v: real)
    requires i < n && v == Blend(f as real, r as real, Weight(i, n))
    ensures v * n as real == (f * (n - i - 1) + r * (i + 1)) as real
  {
    var u, m := Weight(i, n), n as real;
    assert u * m == (i + 1) as real;
    var a, b := f as real, r as real;
    assert v * m == a * m - a * (u * m) + b * (u * m);
    assert a * m == (f * n) as real && a * (i + 1) as real == (f * (i + 1)) as real;
    assert b * (i + 1) as real == (r * (i + 1)) as real;
    assert f * (n - i - 1) == f * n - f * (i + 1);
  }

  lemma Rounded(v: real, n: nat, z: int, ramp: int, nz: int)
    requires n > 0 && z == Truncate(v) && v * n as real == ramp as real && nz == n * z
    ensures ramp - n < nz < ramp + n
  {
    var m, e := n as real, v - z as real;
    assert -1.0 < e < 1.0;
    hide Truncate;
    IntProduct(z, n, nz);
    assert e * m == v * m - z as real * m;
    Fraction(e, m, e * m);
  }

  lemma IntProduct(z: int, n: int, nz: int)
    requires nz == n * z
    ensures z as real * n as real == nz as real
  {
  }

  lemma Fraction(e: real, m: real, em: real)
    requires -1.0 < e < 1.0 && m > 0.0 && em == e * m
    ensures -m < em < m
  {
    ProductPositive(1.0 - e, m);
    ProductPositive(e + 1.0, m);
    assert (1.0 - e) * m == m - em && (e + 1.0) * m == em + m;
  }

  /** Fading a signal into itself changes nothing. */
  lemma CrossfadeSelf(a: seq<Sample>)
    ensures Crossfade(a, a) == a
  {
    forall i | 0 <= i < |a|
      ensures Crossfade(a, a)[i] == a[i]
    {
      FadeAt(a, a, |a|, i);
    }
  }
}
