/**
 * The aspect-preserving viewport that two of the example programs compute on every
 * framebuffer resize: a square of side min(width, height), centred in the framebuffer.
 */
module Viewports {
  import opened CArith

  /** A viewport rectangle as passed to the viewport call: origin, then extent. */
  datatype Rect = Rect(x: int, y: int, width: int, height: int)

  /** The rectangle lies inside a `fw` x `fh` framebuffer. */
  predicate Inside(r: Rect, fw: int, fh: int)
  {
    0 <= r.x && 0 <= r.y && 0 <= r.width && 0 <= r.height
    && r.x + r.width <= fw && r.y + r.height <= fh
  }

  function Min(a: int, b: int): (m: int)
  {
    if a <= b then a else b
  }

  /**
   * The viewport of the chapter-1 "further studies" tutorial: three conditional
   * expressions for the origin and the side of the square.
   */
  function AspectViewport(width: int, height: int): (r: Rect)
    ensures r.width == r.height
    ensures r.width == Min(width, height)
    ensures r.x == 0 || r.y == 0
  {
    var x := if width > height then Div(width - height, 2) else 0;
    var y := if height > width then Div(height - width, 2) else 0;
    var size := if width >= height then height else width;
    Rect(x, y, size, size)
  }

  /**
   * The viewport of the lines example: side = min(width, height), origin at
   * ((width - side) / 2, (height - side) / 2).
   */
  function SquareViewport(width: int, height: int): (r: Rect)
    ensures r.width == r.height == Min(width, height)
  {
    var side := Min(width, height);
    Rect(Div(width - side, 2), Div(height - side, 2), side, side)
  }

  /** The side is the height when the framebuffer is at least as wide as high, else the width. */
  lemma AspectSide(width: int, height: int)
    ensures width >= height ==> AspectViewport(width, height).width == height
    ensures width < height ==> AspectViewport(width, height).width == width
  {
  }

  /** The horizontal offset is half the excess width, and zero when there is none; likewise vertically. */
  lemma AspectOrigin(width: int, height: int)
    ensures AspectViewport(width, height).x == if width > height then (width - height) / 2 else 0
    ensures AspectViewport(width, height).y == if height > width then (height - width) / 2 else 0
  {
  }

  /** For framebuffer dimensions that are not negative the square fits inside the framebuffer. */
  lemma AspectInside(width: int, height: int)
    requires width >= 0 && height >= 0
    ensures Inside(AspectViewport(width, height), width, height)
  {
  }

  /** The square is centred: the margins left and right (below and above) differ by at most one pixel. */
  lemma AspectCentred(width: int, height: int)
    ensures var r := AspectViewport(width, height);
      0 <= (width - r.width - r.x) - r.x <= 1 && 0 <= (height - r.height - r.y) - r.y <= 1
  {
  }

  /** A square framebuffer is covered exactly. */
  lemma AspectOfSquare(side: int)
    ensures AspectViewport(side, side) == Rect(0, 0, side, side)
  {
  }

  /** The lines example's origin is the centred one, and its square fits the framebuffer. */
  lemma SquareInside(width: int, height: int)
    requires width >= 0 && height >= 0
    ensures Inside(SquareViewport(width, height), width, height)
    ensures var r := SquareViewport(width, height);
      0 <= (width - r.width - r.x) - r.x <= 1 && 0 <= (height - r.height - r.y) - r.y <= 1
  {
  }

  /** The two programs compute the same viewport for every pair of dimensions. */
  lemma SameViewport(width: int, height: int)
    ensures AspectViewport(width, height) == SquareViewport(width, height)
  {
  }
}
