/**
 * What the `colored` crate produces for one terminal cell, as a token instead of an
 * ANSI string: the glyph, an optional foreground and an optional background colour.
 * The colour names are the crate methods the source calls (`purple()` is kept apart
 * from `magenta()` because the source names it separately).
 */
module Cells {

  datatype Option<T> = None | Some(value: T)

  /** The glyphs the colour code writes: "█", "▓", "▒", "░" and a blank. */
  datatype Glyph = FullBlock | DarkShade | MediumShade | LightShade | Blank

  datatype Colour =
    | Black | Red | Green | Yellow | Blue | Magenta | Purple | Cyan | White
    | BrightBlack | BrightBlue | BrightGreen | BrightMagenta | BrightWhite

  datatype Cell = Cell(glyph: Glyph, fg: Option<Colour>, bg: Option<Colour>)

  /** `" ".on_black()`: the cell drawn for points that never escaped. */
  const InteriorCell: Cell := Cell(Blank, None, Some(Black))

  /** `s.<fg>()`: a glyph with a foreground only. */
  function Fg(g: Glyph, fg: Colour): Cell {
    Cell(g, Some(fg), None)
  }

  /** `s.<fg>().on_<bg>()`: a glyph with both colours. */
  function FgBg(g: Glyph, fg: Colour, bg: Colour): Cell {
    Cell(g, Some(fg), Some(bg))
  }

  /** `s.on_<bg>()`: a glyph with a background only. */
  function Bg(g: Glyph, bg: Colour): Cell {
    Cell(g, None, Some(bg))
  }
}
