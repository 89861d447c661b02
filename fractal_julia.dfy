/**
 * src/fractal/julia.rs: the escape-time loop, the two grid-to-plane mappers and the
 * complexity sampler that decides how long a transition lasts.
 */
module Julia {
  import opened ComplexMath
  import opened EscapeTime
  import opened Viewport
  import opened Parameters
  import JuliaSets


  /** `calculate_iterations`: run z <- z*z + c until |z|^2 > 4 or the cap is reached. */
  method CalculateIterations(z: Complex, c: Complex) returns (i: nat)
    ensures IsEscapeCount(z, c, i)
    ensures i == EscapeCount(z, c)
  {
    var w := z;
    i := 0;
    while i < MaxIterations && NormSqr(w) <= Bailout
      invariant i <= MaxIterations
      invariant w == Orbit(z, c, i)
      invariant forall k :: 0 <= k < i ==> NormSqr(Orbit(z, c, k)) <= Bailout
    {
      w := Add(Mul(w, w), c);
      i := i + 1;
    }
    EscapeCountUnique(z, c, i, EscapeCount(z, c));
  }

  /** `map_point_to_complex`: the point of cell (x, y) for the viewport of `params`. */
  function MapPointToComplex(x: U16, y: U16, width: U16, height: U16, params: FractalParameters): (p: Complex)
    requires width > 0 && height > 0 && params.zoom != 0.0
    ensures IsCellPoint(p, x, y, width, height, params.zoom, params.xOffset, params.yOffset)
  {
    var aspectRatio := height as real / width as real;
    var re := (x as real / width as real - 0.5) * 3.0 / params.zoom + params.xOffset;
    var im := (y as real / height as real - 0.5) * 3.0 * aspectRatio / params.zoom + params.yOffset;
    RealAxisScale(x, width, params.zoom);
    ImagAxisScale(y, width, height, params.zoom);
    Complex(re, im)
  }

  /** `map_julia_to_complex`: the same mapping for the older `JuliaSet` record. */
  function MapJuliaToComplex(x: U16, y: U16, width: U16, height: U16, julia: JuliaSets.JuliaSet): (p: Complex)
    requires width > 0 && height > 0 && julia.zoom != 0.0
    ensures IsCellPoint(p, x, y, width, height, julia.zoom, julia.xOffset, julia.yOffset)
  {
    var aspectRatio := height as real / width as real;
    var re := (x as real / width as real - 0.5) * 3.0 / julia.zoom + julia.xOffset;
    var im := (y as real / height as real - 0.5) * 3.0 * aspectRatio / julia.zoom + julia.yOffset;
    RealAxisScale(x, width, julia.zoom);
    ImagAxisScale(y, width, height, julia.zoom);
    Complex(re, im)
  }

  /** The compatibility mapper agrees with the main one on records with the same fields. */
  lemma MapJuliaAgrees(x: U16, y: U16, width: U16, height: U16, julia: JuliaSets.JuliaSet)
    requires width > 0 && height > 0 && julia.zoom != 0.0
    ensures MapJuliaToComplex(x, y, width, height, julia)
         == MapPointToComplex(x, y, width, height, JuliaSets.AsParameters(julia))
  {
  }

  /** With zoom 1 and no offsets, cell (40, 12) of an 80x24 grid is the origin. */
  lemma CentreOf80By24()
    ensures MapPointToComplex(40, 12, 80, 24, FractalParameters(Complex(0.28, 0.008), 1.0, 0.0, 0.0))
         == Complex(0.0, 0.0)
  {
    var p := MapPointToComplex(40, 12, 80, 24, FractalParameters(Complex(0.28, 0.008), 1.0, 0.0, 0.0));
    CentreIsOffset(p, 40, 12, 80, 24, 1.0, 0.0, 0.0);
  }

  /** Number of sample points: a 10 by 10 grid. */
  const SampleSize: nat := 100

  /** `(extent / 10).max(1)`: the spacing of the sampling grid along one axis. */
  function SampleStep(extent: U16): (s: nat)
    ensures 1 <= s <= extent || (extent < 10 && s == 1)
  {
    if extent / 10 >= 1 then extent / 10 else 1
  }

  /** Column of sample `i`: `(i % 10) * step`; inside the grid once the width is at least 10. */
  function SampleX(i: nat, width: U16): (x: U16)
    requires i < SampleSize
    ensures width >= 10 ==> x < width
  {
    DigitTimesStep(i % 10, width);
    (i % 10) * SampleStep(width)
  }

  /** Row of sample `i`: `(i / 10) * step`; inside the grid once the height is at least 10. */
  function SampleY(i: nat, height: U16): (y: U16)
    requires i < SampleSize
    ensures height >= 10 ==> y < height
  {
    DigitTimesStep(i / 10, height);
    (i / 10) * SampleStep(height)
  }

  /** At most nine steps stay below the extent (so within `u16`), and inside it from 10 on. */
  lemma DigitTimesStep(d: nat, extent: U16)
    requires d <= 9
    ensures d * SampleStep(extent) < 0x1_0000
    ensures extent >= 10 ==> d * SampleStep(extent) < extent
  {
    var q := SampleStep(extent);
    assert d * q <= 9 * q;
    if extent >= 10 {
      assert q * 10 <= extent;
    }
  }

  /** Below 10 columns the step is 1 and the last sample column, 9, falls outside the grid. */
  lemma NarrowGridSamplesOutside(width: U16)
    requires width < 10
    ensures SampleX(9, width) == 9 && SampleX(9, width) >= width
  {
  }

  /**
   * Iteration count of sample `i`. With a zero width, height or zoom the source divides
   * by zero, the mapped point is NaN or infinite, and `norm_sqr() <= 4.0` fails at once,
   * so the count is 0.
   */
  function SampleCount(params: FractalParameters, width: U16, height: U16, i: nat): (n: nat)
    requires i < SampleSize
    ensures n <= MaxIterations
  {
    if width == 0 || height == 0 || params.zoom == 0.0 then 0
    else EscapeCount(MapPointToComplex(SampleX(i, width), SampleY(i, height), width, height, params), params.c)
  }

  /** The 100 counts `measure_complexity` collects, in sampling order. */
  function SampleCounts(params: FractalParameters, width: U16, height: U16): (s: seq<nat>)
    ensures |s| == SampleSize
    ensures forall k :: 0 <= k < |s| ==> s[k] <= MaxIterations
  {
    seq(SampleSize, i requires 0 <= i < SampleSize => SampleCount(params, width, height, i))
  }

  function Sum(s: seq<nat>): nat {
    if s == [] then 0 else Sum(s[..|s| - 1]) + s[|s| - 1]
  }

  /** Sum of squared deviations from `mean`. */
  function SumSqDev(s: seq<nat>, mean: real): real {
    if s == [] then 0.0 else SumSqDev(s[..|s| - 1], mean) + (s[|s| - 1] as real - mean) * (s[|s| - 1] as real - mean)
  }

  /** Mean as the source computes it: the sum divided by the fixed sample size. */
  function Mean(s: seq<nat>): (m: real)
    ensures 0.0 <= m
    ensures m * SampleSize as real == Sum(s) as real
  {
    Sum(s) as real / SampleSize as real
  }

  /** Population variance, again over the fixed sample size. */
  function Variance(s: seq<nat>): (v: real)
    ensures 0.0 <= v
  {
    SumSqDevNonNegative(s, Mean(s));
    SumSqDev(s, Mean(s)) / SampleSize as real
  }

  /** What the model assumes of `f64::sqrt`: it is non-negative on non-negative inputs. */
  ghost predicate SqrtNonNegative(sqrt: real -> real) {
    forall v :: 0.0 <= v ==> 0.0 <= sqrt(v)
  }

  /**
   * The reduction at the end of `measure_complexity`: 0.5 for an empty or degenerate
   * sample, otherwise the standard deviation over half the cap, capped at 1.
   */
  function ComplexityScore(counts: seq<nat>, sqrt: real -> real): (r: real)
    requires SqrtNonNegative(sqrt)
    ensures 0.0 <= r <= 1.0
  {
    if |counts| == 0 then 0.5
    else
      var variance := Variance(counts);
      if variance <= 0.0 then 0.5
      else Min(sqrt(variance) / (MaxIterations as real / 2.0), 1.0)
  }

  /** `measure_complexity`: sample the 10x10 grid, collect the counts, reduce them to a score. */
  method MeasureComplexity(params: FractalParameters, width: U16, height: U16, sqrt: real -> real)
    returns (score: real)
    requires SqrtNonNegative(sqrt)
    ensures score == ComplexityScore(SampleCounts(params, width, height), sqrt)
    ensures 0.0 <= score <= 1.0
  {
    var counts: seq<nat> := [];
    for i := 0 to SampleSize
      invariant |counts| == i
      invariant forall k :: 0 <= k < i ==> counts[k] == SampleCount(params, width, height, k)
    {
      var x := SampleX(i, width);
      var y := SampleY(i, height);
      var iterations: nat;
      if width == 0 || height == 0 || params.zoom == 0.0 {
        // the mapped point is NaN or infinite: the loop stops before its first step
        iterations := 0;
      } else {
        var z := MapPointToComplex(x, y, width, height, params);
        iterations := CalculateIterations(z, params.c);
      }
      counts := counts + [iterations];
    }
    assert counts == SampleCounts(params, width, height);
    score := ComplexityScore(counts, sqrt);
  }

  lemma {:induction false} SumOfConstant(s: seq<nat>, v: nat)
    requires forall k :: 0 <= k < |s| ==> s[k] == v
    ensures Sum(s) == |s| * v
  {
    if s != [] {
      SumOfConstant(s[..|s| - 1], v);
    }
  }

  lemma {:induction false} SumSqDevNonNegative(s: seq<nat>, mean: real)
    ensures SumSqDev(s, mean) >= 0.0
  {
    if s != [] {
      SumSqDevNonNegative(s[..|s| - 1], mean);
      SquareSign(s[|s| - 1] as real - mean);
    }
  }

  /** One count at least 0.01 away from the mean puts the squared deviations at 0.0001 or more. */
  lemma {:induction false} SumSqDevAtLeast(s: seq<nat>, mean: real, j: nat)
    requires j < |s| && (s[j] as real - mean >= 0.01 || s[j] as real - mean <= -0.01)
    ensures SumSqDev(s, mean) >= 0.0001
  {
    var init := s[..|s| - 1];
    if j < |s| - 1 {
      assert init[j] == s[j];
      SumSqDevAtLeast(init, mean, j);
      SquareSign(s[|s| - 1] as real - mean);
    } else {
      SumSqDevNonNegative(init, mean);
      SquareAtLeast(s[|s| - 1] as real - mean);
    }
  }

  /** All counts at the mean make the squared deviations zero. */
  lemma {:induction false} SumSqDevZeroAtMean(s: seq<nat>, mean: real)
    requires forall k :: 0 <= k < |s| ==> s[k] as real == mean
    ensures SumSqDev(s, mean) == 0.0
  {
    if s != [] {
      var init := s[..|s| - 1];
      assert forall k :: 0 <= k < |init| ==> init[k] == s[k];
      SumSqDevZeroAtMean(init, mean);
      SquareSign(s[|s| - 1] as real - mean);
    }
  }

  /** A count differs from a mean of `total / 100` by at least one hundredth, or not at all. */
  lemma HundredthsApart(a: nat, total: int)
    requires a as real != total as real / SampleSize as real
    ensures a as real - total as real / SampleSize as real >= 0.01 || a as real - total as real / SampleSize as real <= -0.01
  {
    var k := 100 * a - total;
    assert k as real / 100.0 == a as real - total as real / 100.0;
    assert k != 0;
  }

  /** At a mean of `total / 100` the squared deviations vanish exactly when every count equals it. */
  lemma SumSqDevZeroIffAllAtMean(s: seq<nat>, total: int)
    ensures SumSqDev(s, total as real / SampleSize as real) <= 0.0
      <==> forall k :: 0 <= k < |s| ==> s[k] as real == total as real / SampleSize as real
  {
    var mean := total as real / SampleSize as real;
    if forall k :: 0 <= k < |s| ==> s[k] as real == mean {
      SumSqDevZeroAtMean(s, mean);
    } else {
      var j :| 0 <= j < |s| && s[j] as real != mean;
      HundredthsApart(s[j], total);
      SumSqDevAtLeast(s, mean, j);
    }
  }

  /** No sum of counts exceeds the count of terms times a bound on each. */
  lemma {:induction false} SumAtMost(s: seq<nat>, b: nat)
    requires forall k :: 0 <= k < |s| ==> s[k] <= b
    ensures Sum(s) <= |s| * b
  {
    if s != [] {
      SumAtMost(s[..|s| - 1], b);
    }
  }

  /**
   * The mean of 100 counts, each capped at 100, lies in [0, 100], and the mean of a
   * constant sample is that constant.
   */
  lemma MeanBounds(s: seq<nat>)
    requires |s| == SampleSize
    ensures (forall k :: 0 <= k < |s| ==> s[k] <= MaxIterations) ==> Mean(s) <= MaxIterations as real
    ensures (forall k :: 0 <= k < |s| ==> s[k] == s[0]) ==> Mean(s) == s[0] as real
  {
    if forall k :: 0 <= k < |s| ==> s[k] <= MaxIterations {
      SumAtMost(s, MaxIterations);
    }
    if forall k :: 0 <= k < |s| ==> s[k] == s[0] {
      SumOfConstant(s, s[0]);
    }
  }

  /**
   * On a sample of 100 counts the fallback fires exactly when all counts are equal,
   * and then the score is exactly 0.5.
   */
  lemma DegenerateIffConstant(s: seq<nat>, sqrt: real -> real)
    requires |s| == SampleSize && SqrtNonNegative(sqrt)
    ensures Variance(s) <= 0.0 <==> forall k :: 0 <= k < |s| ==> s[k] == s[0]
    ensures (forall k :: 0 <= k < |s| ==> s[k] == s[0]) ==> ComplexityScore(s, sqrt) == 0.5
  {
    var m := Mean(s);
    SumSqDevZeroIffAllAtMean(s, Sum(s));
    if forall k :: 0 <= k < |s| ==> s[k] == s[0] {
      SumOfConstant(s, s[0]);
      assert m == s[0] as real;
    }
  }

  /** The sampled score of any fractal lies in [0, 1], and is 0.5 when every sample has the same count. */
  lemma MeasuredScoreInUnit(params: FractalParameters, width: U16, height: U16, sqrt: real -> real)
    requires SqrtNonNegative(sqrt)
    ensures 0.0 <= ComplexityScore(SampleCounts(params, width, height), sqrt) <= 1.0
    ensures var s := SampleCounts(params, width, height);
      (forall k :: 0 <= k < |s| ==> s[k] == s[0]) ==> ComplexityScore(s, sqrt) == 0.5
  {
    DegenerateIffConstant(SampleCounts(params, width, height), sqrt);
  }

  /** With a zero dimension or zoom every count is 0, so the score is the 0.5 fallback. */
  lemma DegenerateViewportScoresHalf(params: FractalParameters, width: U16, height: U16, sqrt: real -> real)
    requires SqrtNonNegative(sqrt)
    requires width == 0 || height == 0 || params.zoom == 0.0
    ensures ComplexityScore(SampleCounts(params, width, height), sqrt) == 0.5
  {
    var s := SampleCounts(params, width, height);
    assert forall k :: 0 <= k < |s| ==> s[k] == 0;
    DegenerateIffConstant(s, sqrt);
  }
}
