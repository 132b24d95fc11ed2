/**
 * Value noise and fractal Brownian motion over the plane.
 *
 * `Math.sin` is a parameter of type `Sine` and is otherwise unconstrained:
 * `hash2D` keeps only the fractional part of a scaled sine, so every bound
 * below holds whatever the sine returns. Arithmetic is exact over `real`.
 */
module Noise {
  import opened Wrappers

  /** Stands for `Math.sin`. */
  type Sine = real -> real

  function Smoothstep(t: real): (r: real)
    ensures 0.0 <= t <= 1.0 ==> 0.0 <= r <= 1.0
    ensures t == 0.0 ==> r == 0.0
    ensures t == 1.0 ==> r == 1.0
  {
    SmoothstepBounds(t);
    t * t * (3.0 - 2.0 * t)
  }

  lemma SmoothstepBounds(t: real)
    ensures 0.0 <= t <= 1.0 ==> 0.0 <= t * t * (3.0 - 2.0 * t) <= 1.0
  {
    if 0.0 <= t <= 1.0 {
      var u := 1.0 - t;
      var w := 1.0 + 2.0 * t;
      NonNegativeProduct(t, t);
      NonNegativeProduct(t * t, 3.0 - 2.0 * t);
      NonNegativeProduct(u, u);
      NonNegativeProduct(u * u, w);
      // 1 - t^2 (3 - 2t) == (1 - t)^2 (1 + 2t)
      assert 1.0 - t * t * (3.0 - 2.0 * t) == u * u * w;
    }
  }

  function Lerp(a: real, b: real, t: real): (r: real)
    ensures t == 0.0 ==> r == a
    ensures t == 1.0 ==> r == b
    ensures 0.0 <= t <= 1.0 ==> Min(a, b) <= r <= Max(a, b)
  {
    LerpBounds(a, b, t);
    a + (b - a) * t
  }

  lemma LerpBounds(a: real, b: real, t: real)
    ensures t == 0.0 ==> a + (b - a) * t == a
    ensures t == 1.0 ==> a + (b - a) * t == b
    ensures 0.0 <= t <= 1.0 ==> Min(a, b) <= a + (b - a) * t <= Max(a, b)
  {
    var d := b - a;
    var r := a + d * t;
    assert a + (b - a) * t == r;
    if 0.0 <= t <= 1.0 {
      WeightedBetween(d, t);
      if a <= b {
        assert Min(a, b) == a && Max(a, b) == b;
        assert a <= r <= b;
      } else {
        assert Min(a, b) == b && Max(a, b) == a;
        assert b <= r <= a;
      }
    }
  }

  /** For t in [0, 1], d * t lies between 0 and d. */
  lemma WeightedBetween(d: real, t: real)
    requires 0.0 <= t <= 1.0
    ensures d >= 0.0 ==> 0.0 <= d * t <= d
    ensures d < 0.0 ==> d <= d * t <= 0.0
  {
    if d >= 0.0 {
      assert d - d * t == d * (1.0 - t);
      assert d * (1.0 - t) >= 0.0;
    } else {
      assert d * t - d == (-d) * (1.0 - t);
      assert (-d) * (1.0 - t) >= 0.0;
      assert (-d) * t >= 0.0;
    }
  }

  /** The sine-scrambled lattice value: the fractional part of a scaled sine. */
  function Hash2D(sin: Sine, x: real, y: real): (r: real)
    ensures 0.0 <= r < 1.0
  {
    var h := sin(x * 12.9898 + y * 78.233) * 43758.5453123;
    h - h.Floor as real
  }

  function ValueNoise(sin: Sine, x: real, y: real): (r: real)
    ensures 0.0 <= r < 1.0
  {
    var xi := x.Floor;
    var yi := y.Floor;
    var xf := x - xi as real;
    var yf := y - yi as real;

    var a := Hash2D(sin, xi as real, yi as real);
    var b := Hash2D(sin, (xi + 1) as real, yi as real);
    var c := Hash2D(sin, xi as real, (yi + 1) as real);
    var d := Hash2D(sin, (xi + 1) as real, (yi + 1) as real);

    var u := Smoothstep(xf);
    var v := Smoothstep(yf);

    Lerp(Lerp(a, b, u), Lerp(c, d, u), v)
  }

  /** At an integer lattice point the noise is the lattice value itself. */
  lemma ValueNoiseAtLattice(sin: Sine, i: int, j: int)
    ensures ValueNoise(sin, i as real, j as real) == Hash2D(sin, i as real, j as real)
  {
    assert (i as real).Floor == i && (j as real).Floor == j;
  }

  lemma NonNegativeProduct(a: real, b: real)
    requires a >= 0.0 && b >= 0.0
    ensures a * b >= 0.0
  {
  }

  /** The four variables of the loop of `fbm`. */
  datatype FbmState = FbmState(total: real, frequency: real, amplitude: real, maxValue: real)

  /** A noise sampler over the plane; `fbm` uses value noise. */
  type Sampler = (real, real) -> real

  /** The sampler of `valueNoise` itself. */
  function ValueNoiseSampler(sin: Sine): (f: Sampler)
    ensures forall u: real, v: real :: 0.0 <= f(u, v) < 1.0
  {
    (u: real, v: real) => ValueNoise(sin, u, v)
  }

  /** `noise` equals value noise at every point; the link is reached only through `ValueNoise` terms. */
  ghost predicate AgreesWithValueNoise(sin: Sine, noise: Sampler)
  {
    forall u: real, v: real {:trigger ValueNoise(sin, u, v)} :: noise(u, v) == ValueNoise(sin, u, v)
  }

  /**
   * Value noise as a sampler, named by the property that characterises it
   * (extensionally it is `ValueNoiseSampler(sin)`), so that what is proved
   * about `fbm` does not unfold the noise at every sample point.
   */
  ghost function ValueNoiseChoice(sin: Sine): (noise: Sampler)
    ensures AgreesWithValueNoise(sin, noise)
    ensures forall u: real, v: real :: 0.0 <= noise(u, v) < 1.0
  {
    assert AgreesWithValueNoise(sin, ValueNoiseSampler(sin));
    var noise: Sampler :| AgreesWithValueNoise(sin, noise);
    AgreeingBounded(sin, noise);
    noise
  }

  lemma AgreeingBounded(sin: Sine, noise: Sampler)
    requires AgreesWithValueNoise(sin, noise)
    ensures forall u: real, v: real :: 0.0 <= noise(u, v) < 1.0
  {
    forall u: real, v: real
      ensures 0.0 <= noise(u, v) < 1.0
    {
      assert noise(u, v) == ValueNoise(sin, u, v);
    }
  }

  /** The loop variables before the first octave. */
  const FbmStart := FbmState(0.0, 1.0, 1.0, 0.0)

  /**
   * One octave: add the noise at the current frequency weighted by the current
   * amplitude, add that amplitude to the weight sum, double the frequency and
   * scale the amplitude by `persistence`.
   */
  function OctaveStep(noise: Sampler, x: real, y: real, persistence: real, st: FbmState): FbmState
  {
    FbmState(st.total + Sample(noise, x, y, st.frequency) * st.amplitude,
             st.frequency * 2.0,
             st.amplitude * persistence,
             st.maxValue + st.amplitude)
  }

  /** The noise of one octave: the sampler at the point scaled by `frequency`. */
  function Sample(noise: Sampler, x: real, y: real, frequency: real): real
  {
    noise(x * frequency, y * frequency)
  }

  /** One octave from explicit loop variables, with `sample` the noise at the current frequency. */
  lemma OctaveStepOf(noise: Sampler, x: real, y: real, persistence: real,
                     total: real, frequency: real, amplitude: real, maxValue: real, sample: real)
    requires sample == Sample(noise, x, y, frequency)
    ensures OctaveStep(noise, x, y, persistence, FbmState(total, frequency, amplitude, maxValue))
         == FbmState(total + sample * amplitude, frequency * 2.0, amplitude * persistence, maxValue + amplitude)
  {
  }

  /** The loop variables after n further octaves, starting from the loop variables st. */
  function Octaves(noise: Sampler, x: real, y: real, persistence: real, st: FbmState, n: nat): FbmState
    decreases n
  {
    if n == 0 then st else Octaves(noise, x, y, persistence, OctaveStep(noise, x, y, persistence, st), n - 1)
  }

  /** The noise sum lies between 0 and the weight sum, with a non-negative amplitude. */
  predicate Bounded(st: FbmState)
  {
    st.amplitude >= 0.0 && 0.0 <= st.total <= st.maxValue
  }

  /** The weight sum is at least 1 and the noise sum strictly below it. */
  predicate Normalisable(st: FbmState)
  {
    st.maxValue >= 1.0 && st.total < st.maxValue
  }

  /** One octave keeps the loop variables bounded, and normalisable once they have been. */
  lemma OctaveStepBounds(noise: Sampler, x: real, y: real, persistence: real, st: FbmState)
    requires forall u: real, v: real :: 0.0 <= noise(u, v) < 1.0
    requires persistence >= 0.0 && Bounded(st)
    ensures Bounded(OctaveStep(noise, x, y, persistence, st))
    ensures Normalisable(st) || st == FbmStart ==> Normalisable(OctaveStep(noise, x, y, persistence, st))
  {
    var w := Sample(noise, x, y, st.frequency);
    var a := st.amplitude;
    var c := w * a;
    var d := a * persistence;
    WeightedBelow(w, a);
    NonNegativeProduct(a, persistence);
    assert OctaveStep(noise, x, y, persistence, st) == FbmState(st.total + c, st.frequency * 2.0, d, st.maxValue + a);
  }

  /**
   * For a sampler with values in [0, 1) and non-negative persistence, bounded
   * loop variables stay bounded, and are normalisable after at least one
   * octave from the start (or any number from normalisable ones).
   */
  lemma {:induction false} OctavesBounds(noise: Sampler, x: real, y: real, persistence: real, st: FbmState, n: nat)
    requires forall u: real, v: real :: 0.0 <= noise(u, v) < 1.0
    requires persistence >= 0.0 && Bounded(st) && (Normalisable(st) || st == FbmStart)
    ensures Bounded(Octaves(noise, x, y, persistence, st, n))
    ensures n >= 1 || Normalisable(st) ==> Normalisable(Octaves(noise, x, y, persistence, st, n))
    decreases n
  {
    if n > 0 {
      var next := OctaveStep(noise, x, y, persistence, st);
      OctaveStepBounds(noise, x, y, persistence, st);
      OctavesBounds(noise, x, y, persistence, next, n - 1);
    }
  }

  /** For w in [0, 1) and a >= 0, w * a lies in [0, a], and below a when a > 0. */
  lemma WeightedBelow(w: real, a: real)
    requires 0.0 <= w < 1.0 && a >= 0.0
    ensures 0.0 <= w * a <= a
    ensures a > 0.0 ==> w * a < a
  {
    assert a - w * a == (1.0 - w) * a;
    NonNegativeProduct(1.0 - w, a);
    NonNegativeProduct(w, a);
  }

  /**
   * `fbm(x, y, octaves, persistence)`: the value-noise octave sum divided by
   * the weight sum. For octaves <= 0 the source divides 0 by 0; that input is
   * excluded.
   */
  ghost function Fbm(sin: Sine, x: real, y: real, octaves: int, persistence: real): (r: real)
    requires octaves >= 1 && persistence >= 0.0
    ensures 0.0 <= r < 1.0
  {
    var noise := ValueNoiseChoice(sin);
    var st := Octaves(noise, x, y, persistence, FbmStart, octaves);
    OctavesBounds(noise, x, y, persistence, FbmStart, octaves);
    QuotientBelowOne(st.total, st.maxValue);
    st.total / st.maxValue
  }

  lemma QuotientBelowOne(a: real, b: real)
    requires 0.0 <= a < b
    ensures 0.0 <= a / b < 1.0
  {
    assert a / b * b == a;
  }

  /** `field` equals `fbm` of the given octaves and persistence at every point; the link is reached only through `Fbm` terms. */
  ghost predicate AgreesWithFbm(sin: Sine, octaves: int, persistence: real, field: Sampler)
    requires octaves >= 1 && persistence >= 0.0
  {
    forall u: real, v: real {:trigger Fbm(sin, u, v, octaves, persistence)} :: field(u, v) == Fbm(sin, u, v, octaves, persistence)
  }

  /**
   * `fbm` with fixed octaves and persistence as a field over the plane, named
   * by the property that characterises it, so that the terrain proofs handle
   * its samples as values in [0, 1) without unfolding the octave sum.
   */
  ghost function FbmField(sin: Sine, octaves: int, persistence: real): (field: Sampler)
    requires octaves >= 1 && persistence >= 0.0
    ensures AgreesWithFbm(sin, octaves, persistence, field)
    ensures forall u: real, v: real :: 0.0 <= field(u, v) < 1.0
  {
    var exact: Sampler := (u: real, v: real) => Fbm(sin, u, v, octaves, persistence);
    assert AgreesWithFbm(sin, octaves, persistence, exact);
    var field: Sampler :| AgreesWithFbm(sin, octaves, persistence, field);
    FbmFieldBounded(sin, octaves, persistence, field);
    field
  }

  lemma FbmFieldBounded(sin: Sine, octaves: int, persistence: real, field: Sampler)
    requires octaves >= 1 && persistence >= 0.0
    requires AgreesWithFbm(sin, octaves, persistence, field)
    ensures forall u: real, v: real :: 0.0 <= field(u, v) < 1.0
  {
    forall u: real, v: real
      ensures 0.0 <= field(u, v) < 1.0
    {
      assert field(u, v) == Fbm(sin, u, v, octaves, persistence);
    }
  }

  /** With one octave, fbm is the value noise itself. */
  lemma FbmOneOctave(sin: Sine, x: real, y: real, persistence: real)
    requires persistence >= 0.0
    ensures Fbm(sin, x, y, 1, persistence) == ValueNoise(sin, x, y)
  {
    var sampler := ValueNoiseChoice(sin);
    var v := ValueNoise(sin, x, y);
    assert Sample(sampler, x, y, 1.0) == v by {
      assert x * 1.0 == x && y * 1.0 == y;
    }
    var first := OctaveStep(sampler, x, y, persistence, FbmStart);
    assert Octaves(sampler, x, y, persistence, first, 0) == first;
    assert Octaves(sampler, x, y, persistence, FbmStart, 1) == first;
    assert first.total == v * 1.0 && first.maxValue == 1.0;
  }

  /** `fbm` divides the two sums of the loop variables after all octaves; the weight sum is at least 1. */
  lemma FbmOfOctaves(sin: Sine, x: real, y: real, octaves: int, persistence: real, st: FbmState)
    requires octaves >= 1 && persistence >= 0.0
    requires st == Octaves(ValueNoiseChoice(sin), x, y, persistence, FbmStart, octaves)
    ensures st.maxValue >= 1.0 && Fbm(sin, x, y, octaves, persistence) == st.total / st.maxValue
  {
    OctavesBounds(ValueNoiseChoice(sin), x, y, persistence, FbmStart, octaves);
  }

  /** The `for` loop of `fbm`, accumulating total, frequency, amplitude and maxValue. */
  method FbmLoop(sin: Sine, x: real, y: real, octaves: int, persistence: real) returns (r: real)
    requires octaves >= 1 && persistence >= 0.0
    ensures r == Fbm(sin, x, y, octaves, persistence)
  {
    var total := 0.0;
    var frequency := 1.0;
    var amplitude := 1.0;
    var maxValue := 0.0;
    ghost var sampler := ValueNoiseChoice(sin);
    ghost var final := Octaves(sampler, x, y, persistence, FbmStart, octaves);

    var i := 0;
    while i < octaves
      invariant 0 <= i <= octaves
      invariant Octaves(sampler, x, y, persistence, FbmState(total, frequency, amplitude, maxValue), octaves - i) == final
    {
      var noise := ValueNoise(sin, x * frequency, y * frequency);
      OctaveStepOf(sampler, x, y, persistence, total, frequency, amplitude, maxValue, noise);
      total := total + noise * amplitude;
      maxValue := maxValue + amplitude;
      amplitude := amplitude * persistence;
      frequency := frequency * 2.0;
      i := i + 1;
    }

    assert FbmState(total, frequency, amplitude, maxValue) == final;
    FbmOfOctaves(sin, x, y, octaves, persistence, final);
    r := total / maxValue;
  }
}
