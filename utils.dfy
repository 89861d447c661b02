/**
 * src/utils.rs: the middle generation's helpers. It has its own colour-scheme enum,
 * escape loop and mapper over the `JuliaSet` record, and a `get_color` whose Rainbow
 * branch fixes the glyph per palette entry and whose monochrome ladders are driven by
 * an `intensity` byte.
 */
module Utils {
  import opened ComplexMath
  import opened EscapeTime
  import opened Viewport
  import opened Cells
  import JuliaSets


  /** A `u8`. */
  type U8 = x: int | 0 <= x < 0x100

  datatype ColorScheme = Rainbow | Blues | Greens | Purples | Grays

  /** `ColorScheme::next`. */
  function Next(s: ColorScheme): (n: ColorScheme)
    ensures n != s
  {
    match s
    case Rainbow => Blues
    case Blues => Greens
    case Greens => Purples
    case Purples => Grays
    case Grays => Rainbow
  }

  /** Index of a scheme in declaration order. */
  function Ordinal(s: ColorScheme): (k: nat)
    ensures k < 5
  {
    match s
    case Rainbow => 0
    case Blues => 1
    case Greens => 2
    case Purples => 3
    case Grays => 4
  }

  /** `Next` moves one place forward in declaration order, wrapping after the last. */
  lemma NextAdvancesOrdinal(s: ColorScheme)
    ensures Ordinal(Next(s)) == (Ordinal(s) + 1) % 5
  {
  }

  /** `Next` applied `k` times. */
  function NextN(s: ColorScheme, k: nat): ColorScheme {
    if k == 0 then s else Next(NextN(s, k - 1))
  }

  /** `k` steps move `k` places forward, modulo 5. */
  lemma {:induction false} NextNOrdinal(s: ColorScheme, k: nat)
    ensures Ordinal(NextN(s, k)) == (Ordinal(s) + k) % 5
  {
    if k > 0 {
      NextNOrdinal(s, k - 1);
      NextAdvancesOrdinal(NextN(s, k - 1));
    }
  }

  /** Period 5: `k` steps return to the start exactly when `k` is a multiple of 5. */
  lemma NextPeriod(s: ColorScheme, k: nat)
    ensures NextN(s, k) == s <==> k % 5 == 0
  {
    NextNOrdinal(s, k);
  }

  /** Every scheme is reached from every other within four steps. */
  lemma NextVisitsAll(s: ColorScheme, t: ColorScheme)
    ensures exists k :: 0 <= k < 5 && NextN(s, k) == t
  {
    var k := (Ordinal(t) - Ordinal(s) + 5) % 5;
    NextNOrdinal(s, k);
    assert Ordinal(NextN(s, k)) == Ordinal(t);
  }

  /** `calculate_julia`: the escape loop, as in the other generations. */
  method CalculateJulia(z: Complex, c: Complex) returns (i: nat)
    ensures IsEscapeCount(z, c, i)
    ensures i == EscapeCount(z, c)
  {
    var w := z;
    i := 0;
    while i < MaxIterations && NormSqr(w) <= Bailout
      invariant i <= MaxIterations
      invariant w == Orbit(z, c, i)
      invariant forall k :: 0 <= k < i ==> NormSqr(Orbit(z, c, k)) <= Bailout
    {
      w := Add(Mul(w, w), c);
      i := i + 1;
    }
    EscapeCountUnique(z, c, i, EscapeCount(z, c));
  }

  /** `map_to_complex`: the point of cell (x, y) for the viewport of a `JuliaSet`. */
  function MapToComplex(x: U16, y: U16, width: U16, height: U16, julia: JuliaSets.JuliaSet): (p: Complex)
    requires width > 0 && height > 0 && julia.zoom != 0.0
    ensures IsCellPoint(p, x, y, width, height, julia.zoom, julia.xOffset, julia.yOffset)
  {
    var aspectRatio := height as real / width as real;
    var re := (x as real / width as real - 0.5) * 3.0 / julia.zoom + julia.xOffset;
    var im := (y as real / height as real - 0.5) * 3.0 * aspectRatio / julia.zoom + julia.yOffset;
    RealAxisScale(x, width, julia.zoom);
    ImagAxisScale(y, width, height, julia.zoom);
    Complex(re, im)
  }

  /** The offsets are added as they are: the point is the un-offset point shifted by them. */
  lemma OffsetsAddedVerbatim(x: U16, y: U16, width: U16, height: U16, julia: JuliaSets.JuliaSet)
    requires width > 0 && height > 0 && julia.zoom != 0.0
    ensures MapToComplex(x, y, width, height, julia)
         == Add(MapToComplex(x, y, width, height, julia.(xOffset := 0.0, yOffset := 0.0)),
                Complex(julia.xOffset, julia.yOffset))
  {
  }

  /** With no offsets the centre cell of an even grid is the origin, at any zoom. */
  lemma CentreIsOrigin(x: U16, y: U16, width: U16, height: U16, julia: JuliaSets.JuliaSet)
    requires width > 0 && height > 0 && julia.zoom != 0.0
    requires 2 * x == width && 2 * y == height
    requires julia.xOffset == 0.0 && julia.yOffset == 0.0
    ensures MapToComplex(x, y, width, height, julia) == Complex(0.0, 0.0)
  {
    CentreIsOffset(MapToComplex(x, y, width, height, julia), x, y, width, height, julia.zoom, 0.0, 0.0);
  }

  /** Glyph chosen by `iterations % 4`. */
  function BaseGlyph(iterations: nat): (g: Glyph)
    ensures g != Blank
  {
    match iterations % 4
    case 0 => FullBlock
    case 1 => DarkShade
    case 2 => MediumShade
    case _ => LightShade
  }

  /** The Rainbow branch: each of the sixteen residues has its own glyph and colour. */
  function RainbowCell(iterations: nat): (cell: Cell)
    ensures cell.glyph == RainbowGlyph(iterations % 16)
    ensures cell.fg.Some? && cell.bg == None
  {
    match iterations % 16
    case 0 => Fg(FullBlock, Black)
    case 1 => Fg(FullBlock, Blue)
    case 2 => Fg(FullBlock, Cyan)
    case 3 => Fg(FullBlock, Green)
    case 4 => Fg(FullBlock, Magenta)
    case 5 => Fg(FullBlock, Purple)
    case 6 => Fg(FullBlock, Red)
    case 7 => Fg(FullBlock, Yellow)
    case 8 => Fg(DarkShade, Blue)
    case 9 => Fg(DarkShade, Cyan)
    case 10 => Fg(DarkShade, Green)
    case 11 => Fg(DarkShade, Magenta)
    case 12 => Fg(MediumShade, Blue)
    case 13 => Fg(MediumShade, Cyan)
    case 14 => Fg(LightShade, Blue)
    case _ => Fg(LightShade, Cyan)
  }

  /**
   * The Rainbow glyph falls with the residue: eight full blocks, four dark shades,
   * two medium shades, two light shades.
   */
  function RainbowGlyph(r: nat): Glyph
    requires r < 16
  {
    if r < 8 then FullBlock else if r < 12 then DarkShade else if r < 14 then MediumShade else LightShade
  }

  /**
   * `get_color`. The intensity byte, which the source derives from the count through
   * `f32` arithmetic, is taken as an argument.
   */
  function GetColor(iterations: nat, scheme: ColorScheme, intensity: U8): (cell: Cell)
    ensures iterations == MaxIterations ==> cell == InteriorCell
  {
    if iterations == MaxIterations then InteriorCell
    else
      var g := BaseGlyph(iterations);
      match scheme
      case Rainbow => RainbowCell(iterations)
      case Blues =>
        if intensity > 90 then FgBg(g, BrightWhite, BrightBlue)
        else if intensity > 75 then FgBg(g, White, Blue)
        else if intensity > 60 then Fg(g, BrightBlue)
        else if intensity > 45 then Fg(g, Blue)
        else if intensity > 30 then FgBg(g, BrightBlack, BrightBlack)
        else if intensity > 15 then FgBg(g, Black, Black)
        else InteriorCell
      case Greens =>
        if intensity > 6 then FgBg(g, BrightWhite, BrightGreen)
        else if intensity > 5 then FgBg(g, White, Green)
        else if intensity > 4 then Fg(g, BrightGreen)
        else if intensity > 3 then Fg(g, Green)
        else if intensity > 2 then Bg(Blank, BrightBlack)
        else InteriorCell
      case Purples =>
        if intensity > 7 then FgBg(g, BrightWhite, BrightMagenta)
        else if intensity > 6 then FgBg(g, White, Magenta)
        else if intensity > 5 then Fg(g, BrightMagenta)
        else if intensity > 4 then Fg(g, Magenta)
        else if intensity > 3 then FgBg(g, BrightMagenta, BrightBlack)
        else if intensity > 1 then FgBg(g, Black, Black)
        else InteriorCell
      case Grays =>
        if intensity > 7 then FgBg(g, BrightWhite, White)
        else if intensity > 6 then Fg(g, BrightWhite)
        else if intensity > 5 then Fg(g, White)
        else if intensity > 4 then Fg(g, BrightBlack)
        else if intensity > 3 then FgBg(g, Black, BrightBlack)
        else if intensity > 1 then FgBg(g, Black, Black)
        else InteriorCell
  }

  /** Rainbow cells repeat every 16 counts and, below the sentinel, ignore the intensity. */
  lemma RainbowByResidue(iterations: nat, intensity: U8)
    requires iterations != MaxIterations
    ensures GetColor(iterations, Rainbow, intensity).fg.Some?
    ensures GetColor(iterations, Rainbow, intensity).glyph == RainbowGlyph(iterations % 16)
    ensures forall j: nat, k: U8 {:trigger GetColor(j, Rainbow, k)} ::
              j != MaxIterations && j % 16 == iterations % 16
              ==> GetColor(j, Rainbow, k) == GetColor(iterations, Rainbow, intensity)
  {
  }

  /**
   * The monochrome schemes draw the `% 4` glyph, except on their lowest rungs, where
   * the cell is blank: a low intensity looks like a point that never escaped.
   */
  lemma MonochromeGlyph(iterations: nat, scheme: ColorScheme, intensity: U8)
    requires iterations != MaxIterations && scheme != Rainbow
    ensures var cell := GetColor(iterations, scheme, intensity);
            cell.glyph == Blank || cell.glyph == BaseGlyph(iterations)
    ensures scheme == Blues ==> (GetColor(iterations, scheme, intensity) == InteriorCell <==> intensity <= 15)
    ensures scheme == Greens ==> (GetColor(iterations, scheme, intensity) == InteriorCell <==> intensity <= 2)
    ensures scheme in {Purples, Grays} ==> (GetColor(iterations, scheme, intensity) == InteriorCell <==> intensity <= 1)
  {
  }

  /** Above its top threshold every monochrome scheme uses a bright-white glyph on a background. */
  lemma MonochromeTop(iterations: nat, scheme: ColorScheme, intensity: U8)
    requires iterations != MaxIterations && scheme != Rainbow
    requires intensity > 90
    ensures GetColor(iterations, scheme, intensity).fg == Some(BrightWhite)
    ensures GetColor(iterations, scheme, intensity).bg.Some?
  {
  }
}
