/**
 * src/main.rs: the first, single-file generation of the screensaver. It has its own
 * `JuliaSet` record with a clamping lerp, escape loop, mapper and Rainbow-only colour
 * table, and a main loop that rolls over to a new random set every ten seconds.
 *
 * One pass of the main loop is modelled without its terminal work: the clock reading
 * `now` and the set `JuliaSet::random()` would draw are passed in, and the result is the
 * new loop state plus the set the pass renders.
 */
module Main {
  import opened ComplexMath
  import opened EscapeTime
  import opened Viewport
  import opened Cells
  import JuliaSets
  import Utils


  /** `TRANSITION_TIME`: seconds from one set to the next. */
  const TransitionTime: real := 10.0

  datatype JuliaSet = JuliaSet(c: Complex, zoom: real, xOffset: real, yOffset: real)

  /** `JuliaSet::new`: stores its five arguments as they are. */
  function New(cReal: real, cImag: real, zoom: real, xOffset: real, yOffset: real): (j: JuliaSet)
    ensures j.c == Complex(cReal, cImag) && j.zoom == zoom
    ensures j.xOffset == xOffset && j.yOffset == yOffset
  {
    JuliaSet(Complex(cReal, cImag), zoom, xOffset, yOffset)
  }

  /** `JuliaSet::lerp`: clamp `t` to [0, 1], then interpolate every component. */
  function Lerp(a: JuliaSet, b: JuliaSet, t: real): (r: JuliaSet)
    ensures t <= 0.0 ==> r == a
    ensures t >= 1.0 ==> r == b
    ensures a == b ==> r == a
  {
    var t := Clamp01(t);
    JuliaSet(
      Complex(Mix(a.c.re, b.c.re, t), Mix(a.c.im, b.c.im, t)),
      Mix(a.zoom, b.zoom, t),
      Mix(a.xOffset, b.xOffset, t),
      Mix(a.yOffset, b.yOffset, t))
  }

  /** The same fields as the later generation's `JuliaSet` record. */
  function AsLater(j: JuliaSet): JuliaSets.JuliaSet {
    JuliaSets.JuliaSet(j.c, j.zoom, j.xOffset, j.yOffset)
  }

  /** This lerp and the later `JuliaSet::lerp` compute the same set for every `t`. */
  lemma LerpAgreesWithLater(a: JuliaSet, b: JuliaSet, t: real)
    ensures AsLater(Lerp(a, b, t)) == JuliaSets.Lerp(AsLater(a), AsLater(b), t)
  {
  }

  /** Within [0, 1] each component moves by `t` times its distance to the target. */
  lemma LerpIsAffineInside(a: JuliaSet, b: JuliaSet, t: real)
    requires 0.0 <= t <= 1.0
    ensures var r := Lerp(a, b, t);
            && r.c.re - a.c.re == t * (b.c.re - a.c.re)
            && r.c.im - a.c.im == t * (b.c.im - a.c.im)
            && r.zoom - a.zoom == t * (b.zoom - a.zoom)
            && r.xOffset - a.xOffset == t * (b.xOffset - a.xOffset)
            && r.yOffset - a.yOffset == t * (b.yOffset - a.yOffset)
  {
  }

  /** `calculate_julia`: the escape loop of this generation. */
  method CalculateJulia(z: Complex, c: Complex) returns (i: nat)
    ensures IsEscapeCount(z, c, i)
    ensures i == EscapeCount(z, c)
  {
    var w := z;
    i := 0;
    while i < MaxIterations && NormSqr(w) <= Bailout
      invariant i <= MaxIterations
      invariant w == Orbit(z, c, i)
      invariant forall k :: 0 <= k < i ==> NormSqr(Orbit(z, c, k)) <= Bailout
    {
      w := Add(Mul(w, w), c);
      i := i + 1;
    }
    EscapeCountUnique(z, c, i, EscapeCount(z, c));
  }

  /** `map_to_complex`: the point of cell (x, y) for the viewport of `julia`. */
  function MapToComplex(x: U16, y: U16, width: U16, height: U16, julia: JuliaSet): (p: Complex)
    requires width > 0 && height > 0 && julia.zoom != 0.0
    ensures IsCellPoint(p, x, y, width, height, julia.zoom, julia.xOffset, julia.yOffset)
  {
    var aspectRatio := height as real / width as real;
    var re := (x as real / width as real - 0.5) * 3.0 / julia.zoom + julia.xOffset;
    var im := (y as real / height as real - 0.5) * 3.0 * aspectRatio / julia.zoom + julia.yOffset;
    RealAxisScale(x, width, julia.zoom);
    ImagAxisScale(y, width, height, julia.zoom);
    Complex(re, im)
  }

  /**
   * The map is affine: one column right adds `3 / (zoom * width)` to the real part, one
   * row down adds the same to the imaginary part.
   */
  lemma MapToComplexSlopes(x: U16, y: U16, width: U16, height: U16, julia: JuliaSet)
    requires width > 0 && height > 0 && julia.zoom != 0.0
    requires x + 1 < 0x1_0000 && y + 1 < 0x1_0000
    ensures MapToComplex(x + 1, y, width, height, julia).re - MapToComplex(x, y, width, height, julia).re
         == 3.0 / (julia.zoom * width as real)
    ensures MapToComplex(x, y + 1, width, height, julia).im - MapToComplex(x, y, width, height, julia).im
         == 3.0 / (julia.zoom * width as real)
    ensures MapToComplex(x + 1, y, width, height, julia).im == MapToComplex(x, y, width, height, julia).im
  {
    var s := Pitch(width, julia.zoom);
    assert (x as real + 1.0 - width as real / 2.0) * s == (x as real - width as real / 2.0) * s + s;
    assert (y as real + 1.0 - height as real / 2.0) * s == (y as real - height as real / 2.0) * s + s;
  }

  /** `get_color`: blank on black for the sentinel, otherwise the sixteen-entry palette. */
  function GetColor(iterations: nat): (cell: Cell)
    ensures cell.glyph == Blank <==> iterations == MaxIterations
  {
    if iterations == MaxIterations then InteriorCell
    else
      match iterations % 16
      case 0 => Fg(FullBlock, Black)
      case 1 => Fg(FullBlock, Blue)
      case 2 => Fg(FullBlock, Cyan)
      case 3 => Fg(FullBlock, Green)
      case 4 => Fg(FullBlock, Magenta)
      case 5 => Fg(FullBlock, Purple)
      case 6 => Fg(FullBlock, Red)
      case 7 => Fg(FullBlock, Yellow)
      case 8 => Fg(DarkShade, Blue)
      case 9 => Fg(DarkShade, Cyan)
      case 10 => Fg(DarkShade, Green)
      case 11 => Fg(DarkShade, Magenta)
      case 12 => Fg(MediumShade, Blue)
      case 13 => Fg(MediumShade, Cyan)
      case 14 => Fg(LightShade, Blue)
      case _ => Fg(LightShade, Cyan)
  }

  /** Away from the sentinel the cell depends only on `iterations % 16`. */
  lemma GetColorPeriodic(i: nat, j: nat)
    requires i != MaxIterations && j != MaxIterations && i % 16 == j % 16
    ensures GetColor(i) == GetColor(j)
  {
  }

  /** The palette is the Rainbow scheme that src/utils.rs kept, whatever its intensity byte. */
  lemma GetColorIsUtilsRainbow(iterations: nat, intensity: Utils.U8)
    ensures GetColor(iterations) == Utils.GetColor(iterations, Utils.Rainbow, intensity)
  {
  }

  /** The variables the main loop carries from one pass to the next. */
  datatype LoopState = LoopState(current: JuliaSet, next: JuliaSet, transitionStart: real)

  /** `(elapsed / TRANSITION_TIME).min(1.0)`. */
  function Progress(elapsed: real): (p: real)
    ensures p <= 1.0
    ensures p == 1.0 <==> elapsed >= TransitionTime
    ensures elapsed >= 0.0 ==> p >= 0.0
    ensures 0.0 <= elapsed <= TransitionTime ==> p == elapsed / TransitionTime
  {
    Min(elapsed / TransitionTime, 1.0)
  }

  /**
   * One pass of the main loop as written: measure progress, roll over when it reached
   * 1, then render `current.lerp(next, progress)` with the progress measured before
   * the rollover.
   */
  function LoopStep(s: LoopState, now: real, drawn: JuliaSet): (r: (LoopState, JuliaSet))
    ensures r.0 == s || r.0 == LoopState(s.next, drawn, now)
    ensures now <= s.transitionStart ==> r == (s, s.current)
  {
    var progress := Progress(now - s.transitionStart);
    var s' := if progress >= 1.0 then LoopState(s.next, drawn, now) else s;
    (s', Lerp(s'.current, s'.next, progress))
  }

  /** One pass of the main loop, reassigning the loop variables as the source does. */
  method Tick(s: LoopState, now: real, drawn: JuliaSet) returns (s': LoopState, rendered: JuliaSet)
    ensures (s', rendered) == LoopStep(s, now, drawn)
    ensures now - s.transitionStart >= TransitionTime
            ==> s'.current == s.next && s'.next == drawn && s'.transitionStart == now
    ensures now - s.transitionStart < TransitionTime ==> s' == s
  {
    var current, next, transitionStart := s.current, s.next, s.transitionStart;
    var elapsed := now - transitionStart;
    var transitionProgress := Min(elapsed / TransitionTime, 1.0);
    if transitionProgress >= 1.0 {
      current := next;
      next := drawn;
      transitionStart := now;
    }
    rendered := Lerp(current, next, transitionProgress);
    s' := LoopState(current, next, transitionStart);
  }

  /**
   * Rollover happens exactly when ten seconds have passed. It then hands `next` over to
   * `current`, draws a new target and restarts the clock; otherwise nothing changes.
   */
  lemma LoopStepRollover(s: LoopState, now: real, drawn: JuliaSet)
    ensures var (s', _) := LoopStep(s, now, drawn);
            if now - s.transitionStart >= TransitionTime
            then s' == LoopState(s.next, drawn, now)
            else s' == s
  {
  }

  /** Before rollover the pass renders the interpolation between the two sets it holds. */
  lemma LoopStepBeforeRollover(s: LoopState, now: real, drawn: JuliaSet)
    requires s.transitionStart <= now < s.transitionStart + TransitionTime
    ensures LoopStep(s, now, drawn).1 == Lerp(s.current, s.next, (now - s.transitionStart) / TransitionTime)
    ensures now == s.transitionStart ==> LoopStep(s, now, drawn).1 == s.current
  {
  }

  /**
   * The rollover pass renders the set just drawn: after the hand-over it interpolates
   * from the old `next` to the new target with the stale progress 1. The set the
   * finished transition was approaching is skipped for one frame.
   */
  lemma RolloverFrameShowsDrawnSet(s: LoopState, now: real, drawn: JuliaSet)
    requires now - s.transitionStart >= TransitionTime
    ensures LoopStep(s, now, drawn).1 == drawn
    ensures drawn != s.next ==> LoopStep(s, now, drawn).1 != Lerp(s.current, s.next, 1.0)
  {
  }

  /** A concrete pass: at exactly ten seconds the frame jumps to the newly drawn set. */
  lemma RolloverJumpExample()
    ensures var a := New(0.0, 0.0, 1.0, 0.0, 0.0);
            var b := New(0.3, 0.0, 1.0, 0.0, 0.0);
            var d := New(-0.7, 0.2, 1.5, 0.1, 0.0);
            LoopStep(LoopState(a, b, 0.0), 10.0, d).1 == d && d != b
  {
    RolloverFrameShowsDrawnSet(LoopState(New(0.0, 0.0, 1.0, 0.0, 0.0), New(0.3, 0.0, 1.0, 0.0, 0.0), 0.0),
                               10.0, New(-0.7, 0.2, 1.5, 0.1, 0.0));
  }

  /**
   * The pass with the progress measured again after a rollover, from the restarted
   * clock. It changes the loop state as the source does and renders the same set
   * before rollover, but at rollover it renders the set the finished transition
   * reached, so the picture moves continuously from one transition into the next.
   */
  function LoopStepContinuous(s: LoopState, now: real, drawn: JuliaSet): (r: (LoopState, JuliaSet))
    ensures r.0 == LoopStep(s, now, drawn).0
    ensures now - s.transitionStart < TransitionTime ==> r.1 == LoopStep(s, now, drawn).1
    ensures now - s.transitionStart >= TransitionTime ==> r.1 == s.next == Lerp(s.current, s.next, 1.0)
  {
    var s' := if Progress(now - s.transitionStart) >= 1.0 then LoopState(s.next, drawn, now) else s;
    (s', Lerp(s'.current, s'.next, Progress(now - s'.transitionStart)))
  }
}
