# Julia-set terminal screensaver: a Dafny model of its core

The screensaver draws an animated Julia set in the terminal. Each character cell is
mapped to a point z of the complex plane. The recurrence z ← z² + c runs until
|z|² > 4 or 100 steps have passed, and the step count picks the glyph and colours of
the cell. Every few seconds the picture glides by linear interpolation to a new,
randomly drawn set. The newest generation measures how "complex" a set looks, using
the spread of 100 sampled counts, and shows complex sets for longer.

The code comes in three generations, and each is modelled separately because they
really differ:

- `src/main.rs`, the single-file first version. It has its own `JuliaSet`, a clamping
  lerp, a Rainbow-only palette and a 10-second rollover in the main loop. Modelled in
  module `Main`.
- `src/julia_set.rs` and `src/utils.rs`, the middle version. `JuliaSet` keeps its
  clamping lerp and its polar `random`. Its colour schemes have a monochrome ladder
  driven by an intensity byte. Modelled in modules `JuliaSets` and `Utils`.
- `src/fractal/*.rs`, `src/app/state.rs` and `src/ui/colors.rs`, the current version.
  It has `FractalParameters` with an unclamped lerp, the complexity sampler, the
  `AppState` transition controller and six-band gradients. Modelled in modules
  `Parameters`, `Julia`, `State` and `Colors`.

Shared specification modules:

- `ComplexMath`: complex arithmetic over the reals, plus `f64::min` and `clamp`.
- `EscapeTime`: the orbit and the escape count. All three escape loops are proved
  against it.
- `Viewport`: the closed form of the grid-to-plane map. Cells are square, with pitch
  3/(zoom·width), and the grid is centred on the offsets.
- `Cells`: a glyph plus an optional foreground and background colour. This token stands
  for the ANSI string that the `colored` crate builds.

Every `f64` is a Dafny `real`, so the lerp endpoint and identity facts hold exactly
here, while in the program they hold up to rounding. `f64::sqrt` is a function
parameter that is only assumed non-negative on non-negative inputs. Clock readings and
random draws are passed in as arguments.

## Model

| member | source | states |
|---|---|---|
| ComplexMath.Min | src/app/state.rs:49 | `f64::min` on non-NaN operands: the result is one of the two operands and at most both |
| ComplexMath.Clamp01 | src/julia_set.rs:37 | `t.clamp(0.0, 1.0)`: the result lies in [0, 1], is t inside it, 0 at or below 0 and 1 at or above 1 |
| ComplexMath.Mix | src/julia_set.rs:38-45 | the blend a·(1 − t) + b·t moves from a by t times the distance to b: a at t = 0, b at t = 1, a when a = b |
| ComplexMath.MixBetween | src/julia_set.rs:38-45 | for t in [0, 1] the blend lies between its two ends |
| EscapeTime.EscapeCount | src/fractal/julia.rs:7-17 | the count is at most 100; every orbit point before it has \|z\|² ≤ 4; below 100 the point reached has \|z\|² > 4 |
| EscapeTime.EscapeCountUnique | src/fractal/julia.rs:11-16 | the exit condition fixes the count: two counts that both satisfy it are equal |
| EscapeTime.EscapedStartCountsZero | src/fractal/julia.rs:11 | a start point with \|z\|² > 4 gets count 0 |
| EscapeTime.SentinelIffBounded | src/fractal/julia.rs:11-16 | the count is 100 exactly when all of the first 100 orbit points stay in the disc |
| EscapeTime.OneStepEscape | src/fractal/julia.rs:11-13 | a start inside the disc whose first image is outside it gets count 1 |
| EscapeTime.LargeConstantEscapesAtOnce | src/fractal/julia.rs:11-13 | from the origin, a constant with \|c\|² > 4 gets count 1 |
| Julia.CalculateIterations | src/fractal/julia.rs:7-17 | the while-loop returns the escape count of z under c |
| Julia.MapPointToComplex | src/fractal/julia.rs:19-24 | cell (x, y) lands at offset + (x − width/2, y − height/2)·3/(zoom·width) |
| Viewport.CentreIsOffset | src/fractal/julia.rs:19-24 | the centre cell of an even grid lands exactly on the offsets |
| Viewport.LeftEdge | src/fractal/julia.rs:21 | column 0 lands at real part −1.5/zoom + x_offset |
| Viewport.RealPartIncreasing | src/fractal/julia.rs:21 | for zoom > 0 the real part rises strictly with the column, by one pitch per column |
| Julia.CentreOf80By24 | src/fractal/julia.rs:19-24 | with zoom 1 and zero offsets, cell (40, 12) of an 80×24 grid maps to 0 |
| Julia.MapJuliaToComplex | src/fractal/julia.rs:27-32 | the compatibility mapper puts each cell at the same closed-form point |
| Julia.MapJuliaAgrees | src/fractal/julia.rs:27-32 | it equals `map_point_to_complex` on a record with the same fields |
| Julia.SampleStep | src/fractal/julia.rs:39-40 | the grid step max(extent/10, 1) is at least 1, and at most the extent unless the extent is below 10 |
| Julia.SampleX | src/fractal/julia.rs:39 | the sample column fits in u16, and lies inside the grid once width ≥ 10 |
| Julia.SampleY | src/fractal/julia.rs:40 | the sample row fits in u16, and lies inside the grid once height ≥ 10 |
| Julia.NarrowGridSamplesOutside | src/fractal/julia.rs:39 | below 10 columns the sample column 9 lies outside the grid |
| Julia.SampleCount | src/fractal/julia.rs:42-44 | each sampled count is at most 100 |
| Julia.SampleCounts | src/fractal/julia.rs:38-45 | exactly 100 counts are collected, each at most 100 |
| Julia.ComplexityScore | src/fractal/julia.rs:47-66 | the reduction of the counts always lies in [0, 1] |
| Julia.MeasureComplexity | src/fractal/julia.rs:34-67 | the for-loop collects the 100 sampled counts in order and returns their score, which lies in [0, 1] |
| Julia.Mean | src/fractal/julia.rs:47 | the mean is non-negative, and 100 times the mean is the sum of the counts |
| Julia.MeanBounds | src/fractal/julia.rs:47 | the mean of 100 counts capped at 100 is at most 100, and the mean of a constant sample is that constant |
| Julia.Variance | src/fractal/julia.rs:53-58 | the population variance is never negative, so the fallback `variance <= 0` fires only at exactly 0 |
| Julia.SumSqDevZeroIffAllAtMean | src/fractal/julia.rs:53-58 | at a mean of sum/100, the squared deviations are ≤ 0 exactly when every count equals the mean |
| Julia.DegenerateIffConstant | src/fractal/julia.rs:60-62 | on 100 counts the fallback `variance <= 0` fires exactly when all counts are equal, and the score is then 0.5 |
| Julia.MeasuredScoreInUnit | src/fractal/julia.rs:60-66 | the measured score is in [0, 1], and 0.5 when all samples agree |
| Julia.DegenerateViewportScoresHalf | src/fractal/julia.rs:42-43 | with a zero width, height or zoom the score is 0.5 |
| Parameters.Random | src/fractal/parameters.rs:12-24 | with draws in range: zoom in [0.5, 1.5), so zoom > 0; offsets in [−0.5, 0.5); \|c\|² ≤ 1.28 |
| Parameters.Lerp | src/fractal/parameters.rs:26-36 | t = 0 gives self, t = 1 gives other, and lerp(a, a, t) = a for every t |
| Parameters.LerpIsAffine | src/fractal/parameters.rs:26-36 | for every t, including t outside [0, 1], each field moves by t times its distance to the target |
| Parameters.LerpExtrapolates | src/fractal/parameters.rs:26-36 | there is no clamp: t = 2 and t = −1 give points beyond the two ends |
| Parameters.LerpZoomBetween | src/fractal/parameters.rs:32 | for t in [0, 1] the zoom lies between the two zooms, and it is positive when both are |
| JuliaSets.New | src/julia_set.rs:12-19 | the five arguments are stored as they are |
| JuliaSets.NewRoundTrip | src/julia_set.rs:12-19 | rebuilding a set from its own fields gives the same set |
| JuliaSets.Random | src/julia_set.rs:21-34 | with draws in range (cos² + sin² = 1): \|c\|² = r² ∈ [0.09, 0.64), zoom in [0.5, 2.0), offsets in [−0.5, 0.5) |
| JuliaSets.Lerp | src/julia_set.rs:36-47 | t ≤ 0 gives self, t ≥ 1 gives other, and lerp(a, a, t) = a |
| JuliaSets.LerpIsClampedParametersLerp | src/julia_set.rs:36-47 | the result is the unclamped componentwise lerp at clamp(t, 0, 1); inside [0, 1] that lerp at t |
| JuliaSets.LerpKeepsZoomPositive | src/julia_set.rs:36-47 | for every t the zoom lies between the two zooms, so it is positive when both are |
| State.TransitionTimeFor | src/app/state.rs:39-42 | complexity 0 gives 5 s, complexity 1 gives 20 s, and complexity in [0, 1] gives a time in [5, 20] |
| State.TransitionTimeIncreasing | src/app/state.rs:40 | a higher complexity gives a strictly longer time, 15 s per unit |
| State.AppState.constructor | src/app/state.rs:17-26 | starts with the two drawn fractals, the given start time, 10 s, Rainbow and help hidden |
| State.AppState.NextColorScheme | src/app/state.rs:28-30 | the scheme advances by `ColorScheme::next`, so five calls restore it (Colors.NextHasPeriodFive); all other fields are unchanged |
| State.AppState.StartNewTransition | src/app/state.rs:32-37 | the new current is the old next, next is the drawn set, the start is now, the time follows the complexity; scheme and help unchanged |
| State.AppState.UpdateTransitionTime | src/app/state.rs:39-42 | the time is 5 + complexity·15, which lies in [5, 20] for complexity in [0, 1]; all other fields unchanged |
| State.AppState.ToggleHelp | src/app/state.rs:44-46 | `show_help` flips, so two calls restore it; all other fields are unchanged |
| State.AppState.Progress | src/app/state.rs:49 | progress never exceeds 1; it is 1 exactly when elapsed ≥ transition time; it is 0 at elapsed 0 |
| State.AppState.CurrentFractalInterpolated | src/app/state.rs:48-51 | elapsed 0 gives the current fractal; elapsed ≥ transition time gives the next one; zoom stays positive |
| State.AppState.IsTransitionComplete | src/app/state.rs:53-55 | for a positive time it holds exactly when progress is 1; with the time in [5, 20] it never holds before 5 s and always holds from 20 s |
| State.AppState.CompleteIffArrived | src/app/state.rs:53-55 | the inclusive test `elapsed >= transition_time` holds exactly when progress is 1, and then the next fractal is drawn |
| Colors.Next | src/ui/colors.rs:14-22 | the next scheme always differs from the current one |
| Colors.NextIsBijection | src/ui/colors.rs:14-22 | `Prev` undoes `next` on both sides, so `next` is a bijection |
| Colors.NextHasPeriodFive | src/ui/colors.rs:14-22 | five steps restore the scheme, and the first five steps visit all five schemes |
| Colors.NoShorterPeriod | src/ui/colors.rs:14-22 | one to four steps never restore the scheme |
| Colors.BaseGlyph | src/ui/colors.rs:30-37 | the glyph picked by `iterations % 4` is never blank |
| Colors.BaseGlyphMatchesTable | src/ui/colors.rs:30-37 | residues 0, 1, 2, 3 give █, ▓, ▒, ░ |
| Colors.Band | src/ui/colors.rs:68-80 | six bands: band 5 exactly above 8, band 0 exactly at 1 or below |
| Colors.ColorGradient | src/ui/colors.rs:65-128 | every gradient cell keeps the glyph and has a foreground |
| Colors.GradientIsLadderRung | src/ui/colors.rs:65-128 | the if-chain on the raw count equals the rung of the count's band (the rungs are the same arms, indexed), for each of the four ladders |
| Colors.LadderRungsDistinct | src/ui/colors.rs:65-128 | the six rungs of each ladder are different cells |
| Colors.GradientEqualIffSameBand | src/ui/colors.rs:65-128 | two counts get the same cell exactly when they are in the same band |
| Colors.GradientEnds | src/ui/colors.rs:68-80 | above 8 the cell is bright white on a background; at 1 or below it is black on black |
| Colors.UnknownTypeIsGray | src/ui/colors.rs:112 | an unrecognised colour type falls through to the gray ladder |
| Colors.GetColor | src/ui/colors.rs:25-63 | the cell is blank exactly for the sentinel count 100 |
| Colors.SentinelIsInterior | src/ui/colors.rs:26-28 | count 100 is a blank on black in every scheme |
| Colors.GlyphByResidue | src/ui/colors.rs:30-37 | below the sentinel, every scheme uses the glyph of `iterations % 4` |
| Colors.RainbowColour | src/ui/colors.rs:40-57 | the foreground is the `% 16` palette arm (also written as a sequence for indexing); it is black exactly at residue 0; residues 8 to 15 use only blue, cyan, green and magenta |
| Colors.RainbowByResidue | src/ui/colors.rs:40-57 | Rainbow draws the `% 4` glyph in the palette colour at `% 16`, with no background |
| Colors.RainbowPeriodic | src/ui/colors.rs:40-57 | below the sentinel, Rainbow cells repeat every 16 counts |
| Colors.GradientType | src/ui/colors.rs:58-61 | each monochrome scheme passes one of "blue", "green", "magenta", "gray", whose top rung has a background |
| Colors.GradientTypesDistinct | src/ui/colors.rs:58-61 | the four monochrome schemes climb four different ladders |
| Colors.MonochromeByBand | src/ui/colors.rs:58-61 | Blues, Greens, Purples and Grays draw the blue, green, magenta and gray ladders at the count's band |
| Utils.Next | src/utils.rs:19-27 | the next scheme always differs from the current one |
| Utils.NextAdvancesOrdinal | src/utils.rs:19-27 | `next` moves one place forward in declaration order, wrapping after the last |
| Utils.NextPeriod | src/utils.rs:19-27 | k steps restore the scheme exactly when k is a multiple of 5 |
| Utils.NextVisitsAll | src/utils.rs:19-27 | every scheme is reached from every other within four steps |
| Utils.CalculateJulia | src/utils.rs:30-40 | the while-loop returns the escape count: ≤ 100, and below 100 only after \|z\|² > 4 |
| Utils.MapToComplex | src/utils.rs:42-47 | cell (x, y) lands at offset + (x − width/2, y − height/2)·3/(zoom·width) |
| Utils.OffsetsAddedVerbatim | src/utils.rs:44-45 | the point is the zero-offset point shifted by (x_offset, y_offset) |
| Utils.CentreIsOrigin | src/utils.rs:42-47 | with zero offsets, the centre cell of an even grid maps to 0 |
| Utils.BaseGlyph | src/utils.rs:56-64 | the glyph picked by `iterations % 4` is never blank |
| Utils.GetColor | src/utils.rs:49-156 | count 100 is a blank on black in every scheme |
| Utils.RainbowCell | src/utils.rs:67-84 | each residue mod 16 gets a foreground and no background, with the glyph falling from full block (0-7) to dark (8-11), medium (12-13) and light shade (14-15) |
| Utils.RainbowByResidue | src/utils.rs:67-84 | Rainbow cells depend only on `iterations % 16`, not on the intensity: 8 full blocks, 4 dark, 2 medium, 2 light shades |
| Utils.MonochromeGlyph | src/utils.rs:85-154 | monochrome cells use the `% 4` glyph or a blank; they are blank on black exactly when intensity ≤ 15 (Blues), ≤ 2 (Greens), ≤ 1 (Purples, Grays) |
| Utils.MonochromeTop | src/utils.rs:85-154 | above intensity 90 every monochrome scheme draws bright white on a background |
| Main.New | src/main.rs:25-32 | the five arguments are stored as they are |
| Main.Lerp | src/main.rs:51-62 | t ≤ 0 gives self, t ≥ 1 gives other, and lerp(a, a, t) = a |
| Main.LerpAgreesWithLater | src/main.rs:51-62 | for every t it computes the same set as the later `JuliaSet::lerp` |
| Main.LerpIsAffineInside | src/main.rs:51-62 | inside [0, 1] each field moves by t times its distance to the target |
| Main.CalculateJulia | src/main.rs:66-76 | the while-loop returns the escape count: in [0, 100], and 0 for a start with \|z\|² > 4 (EscapeTime.EscapedStartCountsZero) |
| Main.MapToComplex | src/main.rs:79-84 | cell (x, y) lands at offset + (x − width/2, y − height/2)·3/(zoom·width) |
| Main.MapToComplexSlopes | src/main.rs:79-84 | the map is affine, with slope 3/(zoom·width) per column and the same slope per row |
| Main.GetColor | src/main.rs:87-114 | the cell is blank exactly for count 100 |
| Main.GetColorPeriodic | src/main.rs:96-113 | below 100 the cell depends only on `iterations % 16` |
| Main.GetColorIsUtilsRainbow | src/main.rs:87-114 | the palette equals the Rainbow scheme of src/utils.rs |
| Main.Progress | src/main.rs:167 | progress min(elapsed/10, 1) never exceeds 1, and equals 1 exactly when elapsed ≥ 10 |
| Main.LoopStep | src/main.rs:165-177 | a pass either keeps the loop state or hands over to (old next, drawn set, now); a clock at or before the start renders the current set |
| Main.Tick | src/main.rs:165-177 | the pass rolls over exactly when elapsed ≥ 10: current becomes the old next, next becomes the drawn set, the start becomes now; otherwise nothing changes |
| Main.LoopStepRollover | src/main.rs:170-174 | rollover happens exactly when 10 s have passed; otherwise the loop state is unchanged |
| Main.LoopStepBeforeRollover | src/main.rs:176-177 | before rollover the pass renders lerp(current, next, elapsed/10), which is current at elapsed 0 |
| Main.RolloverFrameShowsDrawnSet | src/main.rs:166-177 | at rollover the pass renders the newly drawn set, not the set the transition reached |
| Main.RolloverJumpExample | src/main.rs:166-177 | a concrete pass at 10 s renders the new draw instead of the old target |
| Main.LoopStepContinuous | src/main.rs:166-177 | with progress re-measured after the reset, the state change is unchanged and the rollover frame is the set reached |

## Left out

- Terminal I/O is not modelled: raw mode, the alternate screen, cursor moves, `write!`/`flush`, key polling, `thread::sleep` and the render loops. The screen size is an argument.
- Randomness is not modelled. `rand::thread_rng` draws become arguments constrained to their ranges. `JuliaSet::random` needs `cos`/`sin`, which are only required to satisfy cos² + sin² = 1. The `random` of src/main.rs (lines 34-48) is not modelled.
- The clock is not modelled: `Instant::now()` and `elapsed()` become real timestamps and elapsed seconds.
- Floating-point rounding, NaN and infinities are not modelled, so `variance.is_nan()` cannot fire. For a zero width, height or zoom, `measure_complexity` is modelled by its IEEE outcome (NaN or infinite points, every count 0, score 0.5).
- Julia.MapPointToComplex, Julia.MapJuliaToComplex, Utils.MapToComplex and Main.MapToComplex require a non-zero width, height and zoom, because the real division they model is undefined there.
- State.AppState.Progress and State.AppState.CurrentFractalInterpolated require a non-zero transition time, because `elapsed / 0.0` is IEEE-specific. With complexity in [0, 1] the time is at least 5 s.
- Utils.GetColor takes the intensity byte as an argument. The `f32` computation of that byte from the count (src/utils.rs:55) is left out because its value depends on `f32` rounding and the saturating cast.
- Julia.ComplexityScore: `f64::sqrt` is a parameter assumed only non-negative on non-negative inputs, so the score's exact value above the fallback is not pinned down.
- The `println!` in `update_transition_time` is left out, and so is the unused `hue` in the `get_color` of src/main.rs.
- ANSI escape strings are left out. A cell is a glyph plus colour tokens named after the `colored` methods called, with `purple()` kept apart from `magenta()`. In the `colored` crate both set the same ANSI colour, so Rainbow residues 4 and 5 (and 11) look alike on screen although the model gives them different tokens.
- src/ui/mod.rs only re-exports; src/utils/mod.rs only re-exports and declares the two constants, 5 s and 20 s, which appear in module State.
- The main loop is modelled one pass at a time. The unbounded `loop` and its `q` exit are not modelled.

## Findings

| source | as written | input that shows it | evidently intended | confidence | as-written member | corrected member |
|---|---|---|---|---|---|---|
| src/main.rs:166-177 | on the rollover pass, `transition_progress` is 1.0 from before the reset, so the pass renders `lerp(old next, new draw, 1.0)`, which is the new draw; the next pass is back near the old next | start 0 s, now 10 s: the frame shows the newly drawn set for one pass, then jumps back | the rollover frame shows the set the finished transition reached, so the animation is continuous | high that the code does this; not executed | Main.RolloverFrameShowsDrawnSet | Main.LoopStepContinuous |
