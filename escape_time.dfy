/**
 * The escape-time recurrence z <- z*z + c shared by the three generations of the
 * evaluator (`calculate_iterations`, and the two `calculate_julia`), stated once as a
 * specification: the orbit of a start point, and the count the bounded loop returns.
 */
module EscapeTime {
  import opened ComplexMath

  /** `MAX_ITERATIONS`: the cap of the loop and the "did not escape" sentinel. */
  const MaxIterations: nat := 100

  /** A point has escaped once its squared modulus exceeds this bound. */
  const Bailout: real := 4.0

  /** One step of the Julia recurrence. */
  function Step(z: Complex, c: Complex): Complex {
    Add(Mul(z, z), c)
  }

  /** The point reached from `z0` after `n` steps. */
  function Orbit(z0: Complex, c: Complex, n: nat): Complex {
    if n == 0 then z0 else Step(Orbit(z0, c, n - 1), c)
  }

  /**
   * `n` is what the escape loop returns for `z0` and `c`: it is at most the cap,
   * every orbit point before the `n`-th is inside the bailout disc, and when `n` is
   * below the cap the `n`-th point is outside it.
   */
  ghost predicate IsEscapeCount(z0: Complex, c: Complex, n: nat) {
    && n <= MaxIterations
    && (forall k :: 0 <= k < n ==> NormSqr(Orbit(z0, c, k)) <= Bailout)
    && (n < MaxIterations ==> NormSqr(Orbit(z0, c, n)) > Bailout)
  }

  /** The loop run from step `i`, with `z` the current point. */
  function EscapeFrom(z: Complex, c: Complex, i: nat): nat
    requires i <= MaxIterations
    decreases MaxIterations - i
  {
    if i < MaxIterations && NormSqr(z) <= Bailout then EscapeFrom(Step(z, c), c, i + 1) else i
  }

  lemma {:induction false} EscapeFromIsEscapeCount(z0: Complex, c: Complex, z: Complex, i: nat)
    requires i <= MaxIterations
    requires z == Orbit(z0, c, i)
    requires forall k :: 0 <= k < i ==> NormSqr(Orbit(z0, c, k)) <= Bailout
    ensures IsEscapeCount(z0, c, EscapeFrom(z, c, i))
    decreases MaxIterations - i
  {
    if i < MaxIterations && NormSqr(z) <= Bailout {
      EscapeFromIsEscapeCount(z0, c, Step(z, c), i + 1);
    }
  }

  /** The escape-time count of `z0` under `c`. */
  function EscapeCount(z0: Complex, c: Complex): (n: nat)
    ensures IsEscapeCount(z0, c, n)
  {
    EscapeFromIsEscapeCount(z0, c, z0, 0);
    EscapeFrom(z0, c, 0)
  }

  /** The escape count is determined by the orbit: at most one count fits. */
  lemma EscapeCountUnique(z0: Complex, c: Complex, m: nat, n: nat)
    requires IsEscapeCount(z0, c, m) && IsEscapeCount(z0, c, n)
    ensures m == n
  {
  }

  /** A start point already outside the disc is counted 0. */
  lemma EscapedStartCountsZero(z0: Complex, c: Complex)
    requires NormSqr(z0) > Bailout
    ensures EscapeCount(z0, c) == 0
  {
  }

  /** The sentinel count means the whole capped orbit stayed inside the disc, and conversely. */
  lemma SentinelIffBounded(z0: Complex, c: Complex)
    ensures EscapeCount(z0, c) == MaxIterations
        <==> forall k :: 0 <= k < MaxIterations ==> NormSqr(Orbit(z0, c, k)) <= Bailout
  {
    var n := EscapeCount(z0, c);
    if n < MaxIterations {
      assert !(NormSqr(Orbit(z0, c, n)) <= Bailout);
      assert !(forall k :: 0 <= k < MaxIterations ==> NormSqr(Orbit(z0, c, k)) <= Bailout);
    }
  }

  /** From the origin, a constant with |c|^2 > 4 escapes after exactly one step. */
  lemma LargeConstantEscapesAtOnce(c: Complex)
    requires NormSqr(c) > Bailout
    ensures EscapeCount(Complex(0.0, 0.0), c) == 1
  {
    OneStepEscape(Complex(0.0, 0.0), c);
  }

  /** The count is 1 exactly when the start is inside and its first image is outside. */
  lemma OneStepEscape(z0: Complex, c: Complex)
    requires NormSqr(z0) <= Bailout && NormSqr(Step(z0, c)) > Bailout
    ensures EscapeCount(z0, c) == 1
  {
    assert Orbit(z0, c, 1) == Step(z0, c);
    assert IsEscapeCount(z0, c, 1);
    EscapeCountUnique(z0, c, EscapeCount(z0, c), 1);
  }
}
