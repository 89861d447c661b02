/**
 * Complex numbers over the reals, as `num_complex::Complex<f64>` is used by the
 * screensaver, and the two `f64` helpers the core calls (`min` and `clamp`).
 * Floating-point rounding is not modelled: every `f64` is a `real`.
 */
module ComplexMath {

  datatype Complex = Complex(re: real, im: real)

  /** Squared modulus, `Complex::norm_sqr`. */
  function NormSqr(z: Complex): (n: real)
    ensures n >= 0.0
  {
    z.re * z.re + z.im * z.im
  }

  function Add(a: Complex, b: Complex): Complex {
    Complex(a.re + b.re, a.im + b.im)
  }

  function Mul(a: Complex, b: Complex): Complex {
    Complex(a.re * b.re - a.im * b.im, a.re * b.im + a.im * b.re)
  }

  /** `f64::min` on non-NaN operands. */
  function Min(a: real, b: real): (m: real)
    ensures m <= a && m <= b
    ensures m == a || m == b
  {
    if a <= b then a else b
  }

  /** `f64::clamp(t, 0.0, 1.0)` on a non-NaN operand. */
  function Clamp01(t: real): (r: real)
    ensures 0.0 <= r <= 1.0
    ensures 0.0 <= t <= 1.0 ==> r == t
    ensures t <= 0.0 ==> r == 0.0
    ensures t >= 1.0 ==> r == 1.0
  {
    if t < 0.0 then 0.0 else if t > 1.0 then 1.0 else t
  }

  /** A fraction `t` in [0, 1] of a non-negative `d` lies between 0 and `d`. */
  lemma FractionBetween(t: real, d: real)
    requires 0.0 <= t <= 1.0 && d >= 0.0
    ensures 0.0 <= t * d <= d
  {
    ProductNonNegative(t, d);
    ProductNonNegative(1.0 - t, d);
  }

  /** Squares grow with the magnitude: |x| <= b implies x*x <= b*b. */
  lemma SquareBounded(x: real, b: real)
    requires -b <= x <= b
    ensures x * x <= b * b
  {
    ProductNonNegative(b - x, b + x);
  }

  /** The linear blend `x*(1 - t) + y*t` every lerp applies to each component. */
  function Mix(x: real, y: real, t: real): (m: real)
    ensures m - x == t * (y - x)
    ensures t == 0.0 ==> m == x
    ensures t == 1.0 ==> m == y
    ensures x == y ==> m == x
  {
    x * (1.0 - t) + y * t
  }

  /** A product of two non-negative factors is non-negative. */
  lemma ProductNonNegative(a: real, b: real)
    requires a >= 0.0 && b >= 0.0
    ensures a * b >= 0.0
  {
  }

  /** A blend with `t` in [0, 1] lies between `x` and `y`. */
  lemma MixBetween(x: real, y: real, t: real)
    requires 0.0 <= t <= 1.0
    ensures x <= y ==> x <= Mix(x, y, t) <= y
    ensures y <= x ==> y <= Mix(x, y, t) <= x
  {
    var m := Mix(x, y, t);
    var up := t * (y - x);
    var down := (1.0 - t) * (y - x);
    assert m == x + up;
    assert up + down == y - x;
    if x <= y {
      ProductNonNegative(t, y - x);
      ProductNonNegative(1.0 - t, y - x);
    } else {
      ProductNonNegative(t, x - y);
      ProductNonNegative(1.0 - t, x - y);
      assert up == -(t * (x - y)) && down == -((1.0 - t) * (x - y));
    }
  }

  /** A square is never negative, and zero when its root is. */
  lemma SquareSign(x: real)
    ensures x * x >= 0.0
    ensures x == 0.0 ==> x * x == 0.0
  {
  }

  /** A root at least 0.01 from zero has a square of at least 0.0001. */
  lemma SquareAtLeast(x: real)
    requires x >= 0.01 || x <= -0.01
    ensures x * x >= 0.0001
  {
    if x >= 0.01 {
      ProductNonNegative(x - 0.01, x + 0.01);
    } else {
      ProductNonNegative(-x - 0.01, -x + 0.01);
    }
  }
}
