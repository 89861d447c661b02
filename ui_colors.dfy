/**
 * src/ui/colors.rs: the colour schemes of the current generation, the cell chosen for
 * an iteration count, and the six-band gradients of the monochrome schemes.
 */
module Colors {
  import opened Cells
  import EscapeTime

  datatype ColorScheme = Rainbow | Blues | Greens | Purples | Grays

  const AllSchemes: set<ColorScheme> := {Rainbow, Blues, Greens, Purples, Grays}

  /** `ColorScheme::next`: the scheme the `c` key switches to. */
  function Next(s: ColorScheme): (n: ColorScheme)
    ensures n != s
  {
    match s
    case Rainbow => Blues
    case Blues => Greens
    case Greens => Purples
    case Purples => Grays
    case Grays => Rainbow
  }

  /** The scheme `Next` comes from: its inverse. */
  function Prev(s: ColorScheme): (p: ColorScheme)
    ensures p != s
  {
    match s
    case Rainbow => Grays
    case Blues => Rainbow
    case Greens => Blues
    case Purples => Greens
    case Grays => Purples
  }

  /** `Next` applied `k` times. */
  function NextN(s: ColorScheme, k: nat): ColorScheme {
    if k == 0 then s else Next(NextN(s, k - 1))
  }

  /** `Next` is a bijection: `Prev` undoes it on both sides, so it is injective and onto. */
  lemma NextIsBijection(s: ColorScheme, t: ColorScheme)
    ensures Prev(Next(s)) == s && Next(Prev(s)) == s
    ensures Next(s) == Next(t) ==> s == t
    ensures Next(Prev(t)) == t
  {
  }

  /** Five steps come back to the start, and the first five visit every scheme. */
  lemma NextHasPeriodFive(s: ColorScheme)
    ensures NextN(s, 5) == s
    ensures {NextN(s, 0), NextN(s, 1), NextN(s, 2), NextN(s, 3), NextN(s, 4)} == AllSchemes
  {
  }

  /** No shorter positive number of steps comes back to the start. */
  lemma NoShorterPeriod(s: ColorScheme, k: nat)
    requires 0 < k < 5
    ensures NextN(s, k) != s
  {
    assert NextN(s, 4) == Next(Next(Next(Next(s))));
  }

  /** Glyph for a count: `iterations % 4` picks "█", "▓", "▒" or "░". */
  function BaseGlyph(iterations: nat): (g: Glyph)
    ensures g != Blank
  {
    match iterations % 4
    case 0 => FullBlock
    case 1 => DarkShade
    case 2 => MediumShade
    case _ => LightShade
  }

  /** The glyph ladder as a table indexed by `iterations % 4`. */
  const GlyphTable: seq<Glyph> := [FullBlock, DarkShade, MediumShade, LightShade]

  lemma BaseGlyphMatchesTable(iterations: nat)
    ensures BaseGlyph(iterations) == GlyphTable[iterations % 4]
  {
  }

  /** Rainbow foreground, chosen by `iterations % 16`. */
  function RainbowColour(iterations: nat): (colour: Colour)
    ensures colour == RainbowTable[iterations % 16]
    ensures colour == Black <==> iterations % 16 == 0
    ensures iterations % 16 >= 8 ==> colour in {Blue, Cyan, Green, Magenta}
  {
    match iterations % 16
    case 0 => Black
    case 1 => Blue
    case 2 => Cyan
    case 3 => Green
    case 4 => Magenta
    case 5 => Purple
    case 6 => Red
    case 7 => Yellow
    case 8 => Blue
    case 9 => Cyan
    case 10 => Green
    case 11 => Magenta
    case 12 => Blue
    case 13 => Cyan
    case 14 => Blue
    case _ => Cyan
  }

  /** The same sixteen arms written as a sequence, so lemmas can index the palette. */
  const RainbowTable: seq<Colour> :=
    [Black, Blue, Cyan, Green, Magenta, Purple, Red, Yellow,
     Blue, Cyan, Green, Magenta, Blue, Cyan, Blue, Cyan]

  /** A foreground and an optional background, one rung of a gradient ladder. */
  datatype Paint = Paint(fg: Colour, bg: Option<Colour>)

  /**
   * Which of the six rungs a count lands on: 0 for counts up to 1, then 2, 3-4, 5-6,
   * 7-8, and 5 for everything above 8.
   */
  function Band(iterations: nat): (b: nat)
    ensures b <= 5
    ensures b == 5 <==> iterations > 8
    ensures b == 0 <==> iterations <= 1
  {
    if iterations > 8 then 5
    else if iterations > 6 then 4
    else if iterations > 4 then 3
    else if iterations > 2 then 2
    else if iterations > 1 then 1
    else 0
  }

  /**
   * The arms of `color_gradient` written as a sequence of six rungs, darkest first, so
   * that lemmas can compare rungs by index; any other colour type gets the gray one.
   */
  function Ladder(colorType: string): (l: seq<Paint>)
    ensures |l| == 6
  {
    if colorType == "blue" then
      [Paint(Black, Some(Black)), Paint(BrightBlack, Some(BrightBlack)), Paint(Blue, None),
       Paint(BrightBlue, None), Paint(White, Some(Blue)), Paint(BrightWhite, Some(BrightBlue))]
    else if colorType == "green" then
      [Paint(Black, Some(Black)), Paint(BrightBlack, Some(BrightBlack)), Paint(Green, None),
       Paint(BrightGreen, None), Paint(White, Some(Green)), Paint(BrightWhite, Some(BrightGreen))]
    else if colorType == "magenta" then
      [Paint(Black, Some(Black)), Paint(BrightBlack, Some(BrightBlack)), Paint(Magenta, None),
       Paint(BrightMagenta, None), Paint(White, Some(Magenta)), Paint(BrightWhite, Some(BrightMagenta))]
    else
      [Paint(Black, Some(Black)), Paint(Black, Some(BrightBlack)), Paint(BrightBlack, None),
       Paint(White, None), Paint(BrightWhite, None), Paint(BrightWhite, Some(White))]
  }

  /** `color_gradient`: the if-chain on the raw count, for one of the four colour types. */
  function ColorGradient(iterations: nat, g: Glyph, colorType: string): (cell: Cell)
    ensures cell.glyph == g && cell.fg.Some?
  {
    if colorType == "blue" then
      if iterations > 8 then FgBg(g, BrightWhite, BrightBlue)
      else if iterations > 6 then FgBg(g, White, Blue)
      else if iterations > 4 then Fg(g, BrightBlue)
      else if iterations > 2 then Fg(g, Blue)
      else if iterations > 1 then FgBg(g, BrightBlack, BrightBlack)
      else FgBg(g, Black, Black)
    else if colorType == "green" then
      if iterations > 8 then FgBg(g, BrightWhite, BrightGreen)
      else if iterations > 6 then FgBg(g, White, Green)
      else if iterations > 4 then Fg(g, BrightGreen)
      else if iterations > 2 then Fg(g, Green)
      else if iterations > 1 then FgBg(g, BrightBlack, BrightBlack)
      else FgBg(g, Black, Black)
    else if colorType == "magenta" then
      if iterations > 8 then FgBg(g, BrightWhite, BrightMagenta)
      else if iterations > 6 then FgBg(g, White, Magenta)
      else if iterations > 4 then Fg(g, BrightMagenta)
      else if iterations > 2 then Fg(g, Magenta)
      else if iterations > 1 then FgBg(g, BrightBlack, BrightBlack)
      else FgBg(g, Black, Black)
    else
      if iterations > 8 then FgBg(g, BrightWhite, White)
      else if iterations > 6 then Fg(g, BrightWhite)
      else if iterations > 4 then Fg(g, White)
      else if iterations > 2 then Fg(g, BrightBlack)
      else if iterations > 1 then FgBg(g, Black, BrightBlack)
      else FgBg(g, Black, Black)
  }

  /** The if-chain on the raw count reads the rung of the count's band. */
  lemma GradientIsLadderRung(iterations: nat, g: Glyph, colorType: string)
    ensures var p := Ladder(colorType)[Band(iterations)];
            ColorGradient(iterations, g, colorType) == Cell(g, Some(p.fg), p.bg)
  {
  }

  /** The six rungs of every ladder are different cells. */
  lemma LadderRungsDistinct(colorType: string, i: nat, j: nat)
    requires i < 6 && j < 6 && i != j
    ensures Ladder(colorType)[i] != Ladder(colorType)[j]
  {
  }

  /** Two counts get the same gradient cell exactly when they fall in the same band. */
  lemma GradientEqualIffSameBand(i: nat, j: nat, g: Glyph, colorType: string)
    ensures ColorGradient(i, g, colorType) == ColorGradient(j, g, colorType) <==> Band(i) == Band(j)
  {
    GradientIsLadderRung(i, g, colorType);
    GradientIsLadderRung(j, g, colorType);
    if Band(i) != Band(j) {
      LadderRungsDistinct(colorType, Band(i), Band(j));
    }
  }

  /** The ends of every ladder: above 8 the brightest rung, at 1 or below black on black. */
  lemma GradientEnds(iterations: nat, g: Glyph, colorType: string)
    ensures iterations <= 1 ==> ColorGradient(iterations, g, colorType) == FgBg(g, Black, Black)
    ensures iterations > 8 ==> ColorGradient(iterations, g, colorType).fg == Some(BrightWhite)
    ensures iterations > 8 ==> ColorGradient(iterations, g, colorType).bg.Some?
  {
  }

  /** A colour type other than the three named ones falls through to the gray ladder. */
  lemma UnknownTypeIsGray(iterations: nat, g: Glyph, colorType: string)
    requires colorType != "blue" && colorType != "green" && colorType != "magenta"
    ensures ColorGradient(iterations, g, colorType) == ColorGradient(iterations, g, "gray")
  {
  }

  /** The colour type each monochrome scheme passes to `color_gradient`. */
  function GradientType(scheme: ColorScheme): (colorType: string)
    requires scheme != Rainbow
    ensures colorType in {"blue", "green", "magenta", "gray"}
    ensures Ladder(colorType)[5].bg.Some?
  {
    match scheme
    case Blues => "blue"
    case Greens => "green"
    case Purples => "magenta"
    case Grays => "gray"
  }

  /** The four monochrome schemes climb four different ladders. */
  lemma GradientTypesDistinct(s1: ColorScheme, s2: ColorScheme)
    requires s1 != Rainbow && s2 != Rainbow && s1 != s2
    ensures Ladder(GradientType(s1)) != Ladder(GradientType(s2))
  {
    assert Ladder(GradientType(s1))[5] != Ladder(GradientType(s2))[5];
  }

  /** `get_color`: the cell drawn for an iteration count under a scheme. */
  function GetColor(iterations: nat, scheme: ColorScheme): (cell: Cell)
    ensures cell.glyph == Blank <==> iterations == EscapeTime.MaxIterations
  {
    if iterations == EscapeTime.MaxIterations then InteriorCell
    else
      var g := BaseGlyph(iterations);
      match scheme
      case Rainbow => Fg(g, RainbowColour(iterations))
      case Blues => ColorGradient(iterations, g, "blue")
      case Greens => ColorGradient(iterations, g, "green")
      case Purples => ColorGradient(iterations, g, "magenta")
      case Grays => ColorGradient(iterations, g, "gray")
  }

  /** Points that never escaped are a blank on black, whatever the scheme. */
  lemma SentinelIsInterior(scheme: ColorScheme)
    ensures GetColor(EscapeTime.MaxIterations, scheme) == InteriorCell
  {
  }

  /** Every escaped count is drawn with the glyph the table gives for `iterations % 4`. */
  lemma GlyphByResidue(iterations: nat, scheme: ColorScheme)
    requires iterations != EscapeTime.MaxIterations
    ensures GetColor(iterations, scheme).glyph == GlyphTable[iterations % 4]
  {
  }

  /** Rainbow: the glyph from `% 4`, the foreground from the table at `% 16`, no background. */
  lemma RainbowByResidue(iterations: nat)
    requires iterations != EscapeTime.MaxIterations
    ensures GetColor(iterations, Rainbow) == Fg(GlyphTable[iterations % 4], RainbowTable[iterations % 16])
  {
  }

  /** Away from the sentinel, Rainbow cells repeat with period 16. */
  lemma RainbowPeriodic(i: nat, j: nat)
    requires i != EscapeTime.MaxIterations && j != EscapeTime.MaxIterations
    requires i % 16 == j % 16
    ensures GetColor(i, Rainbow) == GetColor(j, Rainbow)
  {
    RainbowByResidue(i);
    RainbowByResidue(j);
    assert i % 4 == j % 4 by {
      assert i % 16 % 4 == i % 4 && j % 16 % 4 == j % 4;
    }
  }

  /** The monochrome schemes draw the ladder rung of the count's band. */
  lemma MonochromeByBand(iterations: nat, scheme: ColorScheme)
    requires iterations != EscapeTime.MaxIterations && scheme != Rainbow
    ensures var p := Ladder(GradientType(scheme))[Band(iterations)];
            GetColor(iterations, scheme) == Cell(GlyphTable[iterations % 4], Some(p.fg), p.bg)
  {
    GradientIsLadderRung(iterations, BaseGlyph(iterations), GradientType(scheme));
  }
}
