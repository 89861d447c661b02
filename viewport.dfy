/**
 * The grid-to-plane mapping that every generation of the mapper computes, stated in
 * closed form: cell (x, y) of a width-by-height grid lands at the offsets plus the
 * cell's distance from the grid centre times one common pitch, so cells are square in
 * the complex plane and the grid centre sits on the offsets.
 */
module Viewport {
  import opened ComplexMath

  /** Terminal coordinates and sizes are `u16`. */
  type U16 = x: int | 0 <= x < 0x1_0000

  /** Width of the visible real interval at zoom 1. */
  const Span: real := 3.0

  /** Distance in the complex plane between neighbouring cells, on both axes. */
  function Pitch(width: nat, zoom: real): real
    requires width > 0 && zoom != 0.0
  {
    Span / (zoom * width as real)
  }

  /** `p` is the point of cell (x, y) on the grid centred on (xOffset, yOffset). */
  ghost predicate IsCellPoint(p: Complex, x: nat, y: nat, width: nat, height: nat,
                              zoom: real, xOffset: real, yOffset: real)
    requires width > 0 && zoom != 0.0
  {
    && p.re == xOffset + (x as real - width as real / 2.0) * Pitch(width, zoom)
    && p.im == yOffset + (y as real - height as real / 2.0) * Pitch(width, zoom)
  }

  /** `(x/width - 0.5) * 3 / zoom` is the centred cell distance times the pitch. */
  lemma RealAxisScale(x: nat, width: nat, zoom: real)
    requires width > 0 && zoom != 0.0
    ensures (x as real / width as real - 0.5) * 3.0 / zoom
         == (x as real - width as real / 2.0) * Pitch(width, zoom)
  {
    CentredFraction(x as real, width as real);
  }

  lemma CentredFraction(v: real, n: real)
    requires n > 0.0
    ensures v / n - 0.5 == (v - n / 2.0) / n
  {
    assert (n / 2.0) / n == 0.5;
    assert (v - n / 2.0) / n == v / n - (n / 2.0) / n;
  }

  /** The aspect ratio height/width turns the row scale into the same pitch. */
  lemma ImagAxisScale(y: nat, width: nat, height: nat, zoom: real)
    requires width > 0 && height > 0 && zoom != 0.0
    ensures (y as real / height as real - 0.5) * 3.0 * (height as real / width as real) / zoom
         == (y as real - height as real / 2.0) * Pitch(width, zoom)
  {
    var w, h := width as real, height as real;
    CentredFraction(y as real, h);
    assert (y as real - h / 2.0) / h * (h / w) == (y as real - h / 2.0) / w;
  }

  /** The centre cell of an even-sized grid lands exactly on the offsets. */
  lemma CentreIsOffset(p: Complex, x: nat, y: nat, width: nat, height: nat,
                       zoom: real, xOffset: real, yOffset: real)
    requires width > 0 && zoom != 0.0
    requires IsCellPoint(p, x, y, width, height, zoom, xOffset, yOffset)
    requires 2 * x == width && 2 * y == height
    ensures p == Complex(xOffset, yOffset)
  {
  }

  /** Column 0 lands on the left edge of the viewport, `-1.5/zoom` from the offset. */
  lemma LeftEdge(p: Complex, y: nat, width: nat, height: nat, zoom: real, xOffset: real, yOffset: real)
    requires width > 0 && zoom != 0.0
    requires IsCellPoint(p, 0, y, width, height, zoom, xOffset, yOffset)
    ensures p.re == -1.5 / zoom + xOffset
  {
    var w := width as real;
    assert p.re == xOffset - w / 2.0 * (3.0 / (zoom * w));
    assert w / 2.0 * (3.0 / (zoom * w)) == 1.5 / zoom;
  }

  /** With a positive zoom the real part grows strictly with the column, by the pitch per column. */
  lemma RealPartIncreasing(p: Complex, q: Complex, x1: nat, x2: nat, y: nat, width: nat, height: nat,
                           zoom: real, xOffset: real, yOffset: real)
    requires width > 0 && zoom > 0.0
    requires IsCellPoint(p, x1, y, width, height, zoom, xOffset, yOffset)
    requires IsCellPoint(q, x2, y, width, height, zoom, xOffset, yOffset)
    requires x1 < x2
    ensures q.re - p.re == (x2 - x1) as real * Pitch(width, zoom)
    ensures p.re < q.re
  {
    var s := Pitch(width, zoom);
    assert s > 0.0;
    assert q.re - p.re == (x2 as real - x1 as real) * s;
    assert (x2 as real - x1 as real) * s > 0.0;
  }
}
