/**
 * `JuliaSet` (src/julia_set.rs): the older parameter record, built by `new`, drawn by
 * the polar `random`, and interpolated by a lerp that CLAMPS `t` to [0, 1].
 */
module JuliaSets {
  import opened ComplexMath
  import Parameters

  datatype JuliaSet = JuliaSet(c: Complex, zoom: real, xOffset: real, yOffset: real)

  /** `JuliaSet::new`: stores its five arguments as they are. */
  function New(cReal: real, cImag: real, zoom: real, xOffset: real, yOffset: real): (j: JuliaSet)
    ensures j.c == Complex(cReal, cImag) && j.zoom == zoom
    ensures j.xOffset == xOffset && j.yOffset == yOffset
  {
    JuliaSet(Complex(cReal, cImag), zoom, xOffset, yOffset)
  }

  /** Every set is the one `new` builds from its own fields. */
  lemma NewRoundTrip(j: JuliaSet)
    ensures New(j.c.re, j.c.im, j.zoom, j.xOffset, j.yOffset) == j
  {
  }

  /**
   * `JuliaSet::random`, with the drawn radius, the cosine and sine of the drawn angle
   * and the other three draws passed in; `cos` and `sin` are only required to lie on
   * the unit circle.
   */
  function Random(r: real, cosTheta: real, sinTheta: real, zoom: real, xOffset: real, yOffset: real): (j: JuliaSet)
    requires 0.3 <= r < 0.8
    requires cosTheta * cosTheta + sinTheta * sinTheta == 1.0
    requires 0.5 <= zoom < 2.0
    requires -0.5 <= xOffset < 0.5 && -0.5 <= yOffset < 0.5
    ensures NormSqr(j.c) == r * r && 0.09 <= NormSqr(j.c) < 0.64
    ensures j.zoom > 0.0 && 0.5 <= j.zoom < 2.0
    ensures -0.5 <= j.xOffset < 0.5 && -0.5 <= j.yOffset < 0.5
  {
    var j := New(r * cosTheta, r * sinTheta, zoom, xOffset, yOffset);
    assert NormSqr(j.c) == r * r * (cosTheta * cosTheta + sinTheta * sinTheta);
    assert r * r >= 0.3 * r >= 0.09;
    assert r * r < 0.8 * r < 0.64;
    j
  }

  /** `JuliaSet::lerp`: clamp `t` to [0, 1], then interpolate every component. */
  function Lerp(a: JuliaSet, b: JuliaSet, t: real): (r: JuliaSet)
    ensures t <= 0.0 ==> r == a
    ensures t >= 1.0 ==> r == b
    ensures a == b ==> r == a
  {
    var t := Clamp01(t);
    JuliaSet(
      Complex(Mix(a.c.re, b.c.re, t), Mix(a.c.im, b.c.im, t)),
      Mix(a.zoom, b.zoom, t),
      Mix(a.xOffset, b.xOffset, t),
      Mix(a.yOffset, b.yOffset, t))
  }

  /** The same fields as a `FractalParameters` record. */
  function AsParameters(j: JuliaSet): Parameters.FractalParameters {
    Parameters.FractalParameters(j.c, j.zoom, j.xOffset, j.yOffset)
  }

  /**
   * Inside [0, 1] the clamped lerp is the unclamped `FractalParameters::lerp`;
   * outside, it is that lerp at the nearer end of [0, 1].
   */
  lemma LerpIsClampedParametersLerp(a: JuliaSet, b: JuliaSet, t: real)
    ensures AsParameters(Lerp(a, b, t)) == Parameters.Lerp(AsParameters(a), AsParameters(b), Clamp01(t))
    ensures 0.0 <= t <= 1.0 ==> AsParameters(Lerp(a, b, t)) == Parameters.Lerp(AsParameters(a), AsParameters(b), t)
  {
  }

  /** Thanks to the clamp, the zoom stays between the two zooms for EVERY `t`, so it stays positive. */
  lemma LerpKeepsZoomPositive(a: JuliaSet, b: JuliaSet, t: real)
    requires a.zoom > 0.0 && b.zoom > 0.0
    ensures Lerp(a, b, t).zoom > 0.0
    ensures a.zoom <= b.zoom ==> a.zoom <= Lerp(a, b, t).zoom <= b.zoom
    ensures b.zoom <= a.zoom ==> b.zoom <= Lerp(a, b, t).zoom <= a.zoom
  {
    MixBetween(a.zoom, b.zoom, Clamp01(t));
  }
}
