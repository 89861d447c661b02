/**
 * src/app/state.rs: the application state of the current generation. It holds the
 * fractal being left and the one being approached, when that transition started, how
 * long it lasts, the colour scheme and whether the help overlay is shown.
 *
 * The clock and the random generator are not modelled: `Instant::now()` becomes a
 * timestamp `now` in seconds and every `FractalParameters::random()` a value passed in.
 */
module State {
  import opened ComplexMath
  import opened Parameters
  import Colors

  /** `MIN_TRANSITION_TIME` and `MAX_TRANSITION_TIME` (src/utils/mod.rs), in seconds. */
  const MinTransitionTime: real := 5.0
  const MaxTransitionTime: real := 20.0

  /** Transition time at start-up, in seconds. */
  const InitialTransitionTime: real := 10.0

  /** The duration `update_transition_time` assigns for a complexity score. */
  function TransitionTimeFor(complexity: real): (t: real)
    ensures complexity == 0.0 ==> t == MinTransitionTime
    ensures complexity == 1.0 ==> t == MaxTransitionTime
    ensures 0.0 <= complexity <= 1.0 ==> MinTransitionTime <= t <= MaxTransitionTime
  {
    FractionBetween(Clamp01(complexity), MaxTransitionTime - MinTransitionTime);
    MinTransitionTime + complexity * (MaxTransitionTime - MinTransitionTime)
  }

  /** More complex fractals are shown for strictly longer. */
  lemma TransitionTimeIncreasing(c1: real, c2: real)
    requires c1 < c2
    ensures TransitionTimeFor(c1) < TransitionTimeFor(c2)
    ensures TransitionTimeFor(c2) - TransitionTimeFor(c1) == (c2 - c1) * (MaxTransitionTime - MinTransitionTime)
  {
  }

  class AppState {
    var currentFractal: FractalParameters
    var nextFractal: FractalParameters
    var transitionStart: real
    var transitionTime: real
    var colorScheme: Colors.ColorScheme
    var showHelp: bool

    /** The transition time lies within the configured bounds. */
    ghost predicate Valid()
      reads this
    {
      MinTransitionTime <= transitionTime <= MaxTransitionTime
    }

    /** `AppState::new`: two drawn fractals, a 10-second transition, Rainbow, help hidden. */
    constructor (now: real, first: FractalParameters, second: FractalParameters)
      ensures currentFractal == first && nextFractal == second
      ensures transitionStart == now && transitionTime == InitialTransitionTime
      ensures colorScheme == Colors.Rainbow && !showHelp
      ensures Valid()
    {
      currentFractal := first;
      nextFractal := second;
      transitionStart := now;
      transitionTime := InitialTransitionTime;
      colorScheme := Colors.Rainbow;
      showHelp := false;
    }

    /** `next_color_scheme`: advance the scheme one step around the cycle; nothing else moves. */
    method NextColorScheme()
      modifies this
      ensures colorScheme == Colors.Next(old(colorScheme))
      ensures currentFractal == old(currentFractal) && nextFractal == old(nextFractal)
      ensures transitionStart == old(transitionStart) && transitionTime == old(transitionTime)
      ensures showHelp == old(showHelp)
      ensures old(Valid()) ==> Valid()
    {
      colorScheme := Colors.Next(colorScheme);
    }

    /**
     * `start_new_transition`: the fractal approached becomes the one left, a freshly
     * drawn one is approached, the clock restarts, and the duration follows `complexity`.
     */
    method StartNewTransition(complexity: real, now: real, drawn: FractalParameters)
      modifies this
      ensures currentFractal == old(nextFractal) && nextFractal == drawn
      ensures transitionStart == now
      ensures transitionTime == TransitionTimeFor(complexity)
      ensures colorScheme == old(colorScheme) && showHelp == old(showHelp)
      ensures 0.0 <= complexity <= 1.0 ==> Valid()
    {
      currentFractal := nextFractal;
      nextFractal := drawn;
      transitionStart := now;
      UpdateTransitionTime(complexity);
    }

    /** `update_transition_time`: 5 seconds plus `complexity` times 15; nothing else moves. */
    method UpdateTransitionTime(complexity: real)
      modifies this
      ensures transitionTime == TransitionTimeFor(complexity)
      ensures currentFractal == old(currentFractal) && nextFractal == old(nextFractal)
      ensures transitionStart == old(transitionStart)
      ensures colorScheme == old(colorScheme) && showHelp == old(showHelp)
      ensures 0.0 <= complexity <= 1.0 ==> Valid()
    {
      transitionTime := MinTransitionTime + complexity * (MaxTransitionTime - MinTransitionTime);
    }

    /** `toggle_help`: flip the overlay flag; nothing else moves. */
    method ToggleHelp()
      modifies this
      ensures showHelp == !old(showHelp)
      ensures currentFractal == old(currentFractal) && nextFractal == old(nextFractal)
      ensures transitionStart == old(transitionStart) && transitionTime == old(transitionTime)
      ensures colorScheme == old(colorScheme)
      ensures old(Valid()) ==> Valid()
    {
      showHelp := !showHelp;
    }

    /** `(elapsed / transition_time).min(1.0)`: how far the transition has got. */
    function Progress(elapsed: real): (p: real)
      reads this
      requires transitionTime != 0.0
      ensures p <= 1.0
      ensures transitionTime > 0.0 ==> (p == 1.0 <==> elapsed >= transitionTime)
      ensures transitionTime > 0.0 && elapsed >= 0.0 ==> 0.0 <= p
      ensures elapsed == 0.0 ==> p == 0.0
    {
      Min(elapsed / transitionTime, 1.0)
    }

    /** `current_fractal_interpolated`: the fractal to draw `elapsed` seconds into the transition. */
    function CurrentFractalInterpolated(elapsed: real): (f: FractalParameters)
      reads this
      requires transitionTime != 0.0
      ensures elapsed == 0.0 ==> f == currentFractal
      ensures transitionTime > 0.0 && elapsed >= transitionTime ==> f == nextFractal
      ensures currentFractal == nextFractal ==> f == currentFractal
      ensures transitionTime > 0.0 && elapsed >= 0.0 && currentFractal.zoom > 0.0 && nextFractal.zoom > 0.0
              ==> f.zoom > 0.0
    {
      var p := Progress(elapsed);
      assert transitionTime > 0.0 && elapsed >= 0.0 ==> 0.0 <= p <= 1.0;
      LerpZoomBetween(currentFractal, nextFractal, Clamp01(p));
      Lerp(currentFractal, nextFractal, p)
    }

    /** `is_transition_complete`: inclusive, so the last instant of the transition is complete. */
    function IsTransitionComplete(elapsed: real): (done: bool)
      reads this
      ensures transitionTime > 0.0 ==> (done <==> Progress(elapsed) == 1.0)
      ensures Valid() && done ==> elapsed >= MinTransitionTime
      ensures Valid() && elapsed >= MaxTransitionTime ==> done
    {
      elapsed >= transitionTime
    }

    /**
     * Completion and interpolation agree: the transition counts as complete exactly when
     * progress has reached 1, and from then on the drawn fractal is the one approached.
     */
    lemma CompleteIffArrived(elapsed: real)
      requires transitionTime > 0.0
      ensures IsTransitionComplete(elapsed) <==> Progress(elapsed) == 1.0
      ensures IsTransitionComplete(elapsed) ==> CurrentFractalInterpolated(elapsed) == nextFractal
      ensures IsTransitionComplete(transitionTime)
      ensures elapsed < transitionTime ==> !IsTransitionComplete(elapsed)
    {
    }
  }
}
