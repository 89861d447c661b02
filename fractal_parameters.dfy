/**
 * `FractalParameters` (src/fractal/parameters.rs): one Julia-set instance, its
 * random generator and its UNCLAMPED linear interpolation.
 */
module Parameters {
  import opened ComplexMath

  datatype FractalParameters = FractalParameters(c: Complex, zoom: real, xOffset: real, yOffset: real)

  /**
   * `FractalParameters::random`, with the five values drawn by `thread_rng` passed in.
   * Each draw lies in the half-open range the source asks `gen_range` for.
   */
  function Random(cRe: real, cIm: real, zoom: real, xOffset: real, yOffset: real): (p: FractalParameters)
    requires -0.8 <= cRe < 0.8 && -0.8 <= cIm < 0.8
    requires 0.5 <= zoom < 1.5
    requires -0.5 <= xOffset < 0.5 && -0.5 <= yOffset < 0.5
    ensures p.zoom > 0.0 && 0.5 <= p.zoom < 1.5
    ensures -0.5 <= p.xOffset < 0.5 && -0.5 <= p.yOffset < 0.5
    ensures NormSqr(p.c) <= 1.28
  {
    SquareBounded(cRe, 0.8);
    SquareBounded(cIm, 0.8);
    FractalParameters(Complex(cRe, cIm), zoom, xOffset, yOffset)
  }

  /** `FractalParameters::lerp`: componentwise `a*(1 - t) + b*t`, with no clamp on `t`. */
  function Lerp(a: FractalParameters, b: FractalParameters, t: real): (r: FractalParameters)
    ensures t == 0.0 ==> r == a
    ensures t == 1.0 ==> r == b
    ensures a == b ==> r == a
  {
    FractalParameters(
      Complex(Mix(a.c.re, b.c.re, t), Mix(a.c.im, b.c.im, t)),
      Mix(a.zoom, b.zoom, t),
      Mix(a.xOffset, b.xOffset, t),
      Mix(a.yOffset, b.yOffset, t))
  }

  /** Every component moves from `a` by `t` times its distance to `b`, for any `t`. */
  lemma LerpIsAffine(a: FractalParameters, b: FractalParameters, t: real)
    ensures var r := Lerp(a, b, t);
      && r.c.re - a.c.re == t * (b.c.re - a.c.re)
      && r.c.im - a.c.im == t * (b.c.im - a.c.im)
      && r.zoom - a.zoom == t * (b.zoom - a.zoom)
      && r.xOffset - a.xOffset == t * (b.xOffset - a.xOffset)
      && r.yOffset - a.yOffset == t * (b.yOffset - a.yOffset)
  {
  }

  /** No clamp: past `t = 1` the result overshoots `b`, so it is neither endpoint. */
  lemma LerpExtrapolates(a: FractalParameters, b: FractalParameters)
    requires a.zoom != b.zoom
    ensures Lerp(a, b, 2.0).zoom == 2.0 * b.zoom - a.zoom
    ensures Lerp(a, b, 2.0) != b && Lerp(a, b, 2.0) != a
    ensures Lerp(a, b, -1.0) != a && Lerp(a, b, -1.0) != b
  {
    LerpIsAffine(a, b, 2.0);
    LerpIsAffine(a, b, -1.0);
  }

  /** For `t` in [0, 1] the zoom stays between the two zooms, hence positive when both are. */
  lemma LerpZoomBetween(a: FractalParameters, b: FractalParameters, t: real)
    requires 0.0 <= t <= 1.0
    ensures a.zoom <= b.zoom ==> a.zoom <= Lerp(a, b, t).zoom <= b.zoom
    ensures b.zoom <= a.zoom ==> b.zoom <= Lerp(a, b, t).zoom <= a.zoom
    ensures a.zoom > 0.0 && b.zoom > 0.0 ==> Lerp(a, b, t).zoom > 0.0
  {
    MixBetween(a.zoom, b.zoom, t);
  }
}
