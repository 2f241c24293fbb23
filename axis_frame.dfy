/**
  An orientation-independent view of tab-strip geometry. A tab strip lays its
  tabs out along a primary axis (x for a horizontal strip, y for a vertical
  one) and has a constant thickness along the perpendicular, fixed axis. The
  functions here convert between screen coordinates and that strip frame;
  the strategy contracts are stated in the strip frame, so that the same
  sentence describes all four orientations.
*/
module AxisFrame {
  import opened Awt

  /** A rectangle in strip coordinates: `start` and `length` along the
      primary axis, `fixedStart` and `fixedLength` across it. */
  datatype AxisRect = AxisRect(start: int, fixedStart: int, length: int, fixedLength: int) {

    /** Where the rectangle ends along the primary axis. */
    function End(): int { start + length }
  }

  /** Insets in strip coordinates: `lead` and `trail` bound the primary axis
      (before the first tab and after the last), `fixedLead` and
      `fixedTrail` bound the fixed axis. */
  datatype AxisInsets = AxisInsets(lead: int, trail: int, fixedLead: int, fixedTrail: int)

  /** The screen rectangle that a strip-frame rectangle denotes. */
  function ToScreen(horizontal: bool, a: AxisRect): Rectangle
  {
    if horizontal then Rectangle(a.start, a.fixedStart, a.length, a.fixedLength)
    else Rectangle(a.fixedStart, a.start, a.fixedLength, a.length)
  }

  /** The strip-frame reading of a screen rectangle; it is the inverse of
      ToScreen. */
  function ToAxes(horizontal: bool, r: Rectangle): (a: AxisRect)
    ensures ToScreen(horizontal, a) == r
  {
    if horizontal then AxisRect(r.x, r.y, r.width, r.height)
    else AxisRect(r.y, r.x, r.height, r.width)
  }

  /** A size measured along the primary axis. */
  function AlongPrimary(horizontal: bool, d: Dimension): int
  {
    if horizontal then d.width else d.height
  }

  /** A size measured along the fixed axis. */
  function AlongFixed(horizontal: bool, d: Dimension): int
  {
    if horizontal then d.height else d.width
  }

  /** The strip-frame reading of a container's insets. */
  function InsetsToAxes(horizontal: bool, i: Insets): AxisInsets
  {
    if horizontal then AxisInsets(i.left, i.right, i.top, i.bottom)
    else AxisInsets(i.top, i.bottom, i.left, i.right)
  }

  /** Mirroring across the main diagonal: x and y change places, and so do
      width and height. */
  function TransposeRect(r: Rectangle): Rectangle
  {
    Rectangle(r.y, r.x, r.height, r.width)
  }

  /** Mirroring a size across the main diagonal. */
  function TransposeDim(d: Dimension): Dimension
  {
    Dimension(d.height, d.width)
  }

  /** Mirroring insets across the main diagonal: top and left change
      places, and so do bottom and right. */
  function TransposeInsets(i: Insets): Insets
  {
    Insets(i.left, i.top, i.right, i.bottom)
  }

  /** Mirroring turns a horizontal strip into a vertical one with the same
      strip-frame reading, for rectangles, sizes and insets alike. */
  lemma TransposeKeepsAxes(horizontal: bool, r: Rectangle, d: Dimension, i: Insets)
    ensures ToAxes(!horizontal, TransposeRect(r)) == ToAxes(horizontal, r)
    ensures AlongPrimary(!horizontal, TransposeDim(d)) == AlongPrimary(horizontal, d)
    ensures AlongFixed(!horizontal, TransposeDim(d)) == AlongFixed(horizontal, d)
    ensures InsetsToAxes(!horizontal, TransposeInsets(i)) == InsetsToAxes(horizontal, i)
  {
  }
}
