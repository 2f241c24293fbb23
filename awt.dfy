/**
  The integer geometry values the tab-strip strategies exchange with the
  widget toolkit: rectangles, sizes and insets, all in pixels.
*/
module Awt {

  /** A rectangle given by its top-left corner and its size. */
  datatype Rectangle = Rectangle(x: int, y: int, width: int, height: int) {

    /** The right edge. The toolkit computes it in floating point and the
        strategies cast it back to an integer; for integer rectangles that
        round trip is exact, so it is written here as an integer sum. */
    function MaxX(): int { x + width }

    /** The bottom edge, computed like MaxX. */
    function MaxY(): int { y + height }
  }

  /** A width and a height. */
  datatype Dimension = Dimension(width: int, height: int)

  /** The zero size, what `new Dimension()` produces. */
  const EmptyDimension := Dimension(0, 0)

  /** The margins on the four sides of a container. */
  datatype Insets = Insets(top: int, left: int, bottom: int, right: int)
}
