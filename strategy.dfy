/**
  The geometry of a single row (or column) of tab headers. A strategy is
  one of four orientations; Top and Bottom share the horizontal formulas,
  Left and Right the vertical ones, and each orientation adds its own
  placement of the strip, of the "more tabs" indicator and of the content
  area. Every operation is a pure function of the strategy and the inputs
  of the current layout pass.
*/
module SingleRowLayoutStrategy {
  import opened Awt
  import opened AxisFrame

  datatype Option<T> = None | Some(value: T)

  /** Where the strip sits relative to the content area. */
  datatype Orientation = Top | Bottom | Left | Right {

    /** Top and Bottom lay tabs out along x; Left and Right along y. */
    predicate IsHorizontal() { Top? || Bottom? }
  }

  /** What a strategy reads from the tabbed pane it lays out. */
  datatype Tabs = Tabs(
    size: Dimension,              // the pane's width and height
    headerFitSize: Dimension,     // the size every tab header is fitted to
    selectionTabVShift: int,      // the offset of the selected tab across the strip
    toolbarInset: int,            // the gap before a horizontal toolbar
    effectiveBorder: Insets,      // the border drawn around the content
    hideTabs: bool,               // whether the strip is hidden
    sideComponentVertical: bool)  // whether the side component is a vertical toolbar

  /** A strategy: an orientation bound to the pane and to the icon of the
      "more tabs" indicator. Both are fixed when the strategy is built. */
  datatype Strategy = Strategy(orientation: Orientation, tabs: Tabs, moreIcon: Dimension)

  /** The inputs of one layout pass. */
  datatype PassInfo = PassInfo(
    insets: Insets,
    hToolbar: Option<Dimension>,  // minimum size of the horizontal toolbar, if there is one
    vToolbar: Option<Dimension>,  // preferred size of the vertical toolbar, if there is one
    position: int,                // where the next tab would start on the primary axis
    lastGhostVisible: bool,
    lastGhost: Rectangle,         // the placeholder after the last tab
    moreRectAxisSize: int,        // the indicator's size along the primary axis
    layoutSize: Dimension,        // the size the strip is laid out in
    compPosition: int,            // where the content starts on the fixed axis
    moreRect: Option<Rectangle>)  // the indicator's rectangle, if one was placed

  /** The container calls that laying out the content area amounts to. */
  datatype CompLayout =
      /** The content bounds of the pass, moved by `dx`, `dy` and resized by
          `dw`, `dh`. */
    | ShiftedComp(dx: int, dy: int, dw: int, dh: int)
      /** The content placed at `x`, `y`, followed by a toolbar. */
    | CompAt(x: int, y: int, toolbar: ToolbarLayout)

  /** Where a toolbar beside a top strip goes. */
  datatype ToolbarLayout =
    | NoToolbar
      /** A horizontal toolbar in the tab row, at `bounds`. */
    | HToolbarAt(bounds: Rectangle)
      /** A vertical toolbar of the given width, left of the content; its
          bounds depend on where the container put the content, see
          VToolbarBounds. */
    | VToolbarLeftOfComp(width: int)

  /** How much narrower than the strip the Right strategy draws its tabs. */
  function TabNarrowing(o: Orientation): int
  {
    if o.Right? then 1 else 0
  }

  /** The placeholder's extent when it is shown, else nothing. */
  function GhostExtent(data: PassInfo): int
  {
    if data.lastGhostVisible then data.lastGhost.width else 0
  }

  /** The indicator's size along the primary axis: the icon's extent there
      plus six pixels of padding horizontally, four vertically. */
  function MoreRectAxisSize(s: Strategy): (r: int)
    ensures r - AlongPrimary(s.orientation.IsHorizontal(), s.moreIcon)
            == if s.orientation.IsHorizontal() then 6 else 4
  {
    match s.orientation
    case Top | Bottom => s.moreIcon.width + 6
    case Left | Right => s.moreIcon.height + 4
  }

  /** The first tab starts right after the leading inset of the primary
      axis. */
  function StartPosition(o: Orientation, data: PassInfo): (r: int)
    ensures r == InsetsToAxes(o.IsHorizontal(), data.insets).lead
  {
    match o
    case Top | Bottom => data.insets.left
    case Left | Right => data.insets.top
  }

  /** The length available to tabs: the segment that begins at the start
      position ends at the trailing inset of the primary axis, or, for a
      horizontal strip with a toolbar, that toolbar's minimum width before
      it. */
  function ToFitLength(s: Strategy, data: PassInfo): (r: int)
    ensures var h := s.orientation.IsHorizontal();
            StartPosition(s.orientation, data) + r
            + InsetsToAxes(h, data.insets).trail
            + (if h && data.hToolbar.Some? then data.hToolbar.value.width else 0)
            == AlongPrimary(h, s.tabs.size)
  {
    match s.orientation
    case Top | Bottom =>
      if data.hToolbar.Some? then
        s.tabs.size.width - data.insets.left - data.insets.right - data.hToolbar.value.width
      else
        s.tabs.size.width - data.insets.left - data.insets.right
    case Left | Right => s.tabs.size.height - data.insets.top - data.insets.bottom
  }

  /** A tab advances the position by its preferred extent along the primary
      axis. */
  function LengthIncrement(o: Orientation, labelPrefSize: Dimension): (r: int)
    ensures r == AlongPrimary(o.IsHorizontal(), labelPrefSize)
  {
    match o
    case Top | Bottom => labelPrefSize.width
    case Left | Right => labelPrefSize.height
  }

  /** The far edge of a rectangle along the primary axis. */
  function MaxPosition(o: Orientation, bounds: Rectangle): (r: int)
    ensures r == ToAxes(o.IsHorizontal(), bounds).End()
  {
    match o
    case Top | Bottom => bounds.MaxX()
    case Left | Right => bounds.MaxY()
  }

  /** The strip's thickness: the header height for a horizontal strip, the
      header width for a vertical one. */
  function FixedFitLength(s: Strategy): (r: int)
    ensures r == AlongFixed(s.orientation.IsHorizontal(), s.tabs.headerFitSize)
  {
    match s.orientation
    case Top | Bottom => s.tabs.headerFitSize.height
    case Left | Right => s.tabs.headerFitSize.width
  }

  /** The rectangle of one tab label: it covers `length` from `position` on
      the primary axis and `fixedFitLength` from `fixedPos` across it, the
      Right strategy one pixel less across. */
  function LayoutRec(o: Orientation, position: int, fixedPos: int, length: int, fixedFitLength: int): (r: Rectangle)
    ensures ToAxes(o.IsHorizontal(), r)
            == AxisRect(position, fixedPos, length, fixedFitLength - TabNarrowing(o))
  {
    match o
    case Top | Bottom => Rectangle(position, fixedPos, length, fixedFitLength)
    case Left => Rectangle(fixedPos, position, fixedFitLength, length)
    case Right => Rectangle(fixedPos, position, fixedFitLength - 1, length)
  }

  /** Where the strip sits on the fixed axis. Top and Left put it at the
      leading inset; Bottom ends it one pixel before the bottom inset of the
      pane; Right ends it exactly at the right inset of the layout size. */
  function FixedPosition(s: Strategy, data: PassInfo): (r: int)
    ensures var i := InsetsToAxes(s.orientation.IsHorizontal(), data.insets);
            (s.orientation.Top? || s.orientation.Left?) ==> r == i.fixedLead
    ensures var i := InsetsToAxes(true, data.insets);
            s.orientation.Bottom? ==>
              r + FixedFitLength(s) + 1 + i.fixedTrail == AlongFixed(true, s.tabs.size)
    ensures var i := InsetsToAxes(false, data.insets);
            s.orientation.Right? ==>
              r + FixedFitLength(s) + i.fixedTrail == AlongFixed(false, data.layoutSize)
  {
    match s.orientation
    case Top => data.insets.top
    case Bottom => s.tabs.size.height - data.insets.bottom - s.tabs.headerFitSize.height - 1
    case Left => data.insets.left
    case Right => data.layoutSize.width - s.tabs.headerFitSize.width - data.insets.right
  }

  /** The rectangle of the "more tabs" indicator. In every orientation it is
      one pixel shorter than the pass's axis size along the strip and one
      pixel thinner than the strip. Top puts it right after the position the
      tabs reached (and after the placeholder when one is shown); Bottom
      ends it one pixel past the right inset; Left and Right end it two
      pixels before the bottom inset; Top and Left shift it across by the
      selection shift, Bottom aligns it with the strip, and Right aligns
      its far side with the layout width. */
  function MoreRect(s: Strategy, data: PassInfo): (r: Rectangle)
    ensures var a := ToAxes(s.orientation.IsHorizontal(), r);
            a.length == data.moreRectAxisSize - 1 && a.fixedLength == FixedFitLength(s) - 1
    ensures s.orientation.Top? ==>
              r.x == data.position + GhostExtent(data)
              && r.y == data.insets.top + s.tabs.selectionTabVShift
    ensures s.orientation.Bottom? ==>
              r.MaxX() == s.tabs.size.width - data.insets.right + 1
              && r.y == FixedPosition(s, data)
    ensures s.orientation.Left? ==> r.x == data.insets.left + s.tabs.selectionTabVShift
    ensures s.orientation.Right? ==> r.x + s.tabs.headerFitSize.width == data.layoutSize.width
    ensures s.orientation.Right? ==> r.x == FixedPosition(s, data) + data.insets.right
    ensures !s.orientation.IsHorizontal() ==>
              r.MaxY() == s.tabs.size.height - data.insets.bottom - 2
  {
    var t := s.tabs;
    match s.orientation
    case Top =>
      Rectangle(data.position + GhostExtent(data),
                data.insets.top + t.selectionTabVShift,
                data.moreRectAxisSize - 1, t.headerFitSize.height - 1)
    case Bottom =>
      Rectangle(t.size.width - data.insets.right - data.moreRectAxisSize + 2,
                FixedPosition(s, data),
                data.moreRectAxisSize - 1, t.headerFitSize.height - 1)
    case Left =>
      Rectangle(data.insets.left + t.selectionTabVShift,
                t.size.height - data.insets.bottom - data.moreRectAxisSize - 1,
                t.headerFitSize.width - 1, data.moreRectAxisSize - 1)
    case Right =>
      Rectangle(data.layoutSize.width - t.headerFitSize.width,
                t.size.height - data.insets.bottom - data.moreRectAxisSize - 1,
                t.headerFitSize.width - 1, data.moreRectAxisSize - 1)
  }

  /** Tab labels are stretched to fill the strip only in a horizontal
      strip. */
  function CanBeStretched(o: Orientation): (r: bool)
    ensures r <==> o.IsHorizontal()
  {
    match o
    case Top | Bottom => true
    case Left | Right => false
  }

  /** Stretched labels have their text centred only in a horizontal
      strip. */
  function IsToCenterTextWhenStretched(o: Orientation): (r: bool)
    ensures r <==> o.IsHorizontal()
  {
    match o
    case Top | Bottom => true
    case Left | Right => false
  }

  /** The side component shares the tab row only for a top strip whose side
      component is not a vertical toolbar. */
  function IsSideComponentOnTabs(s: Strategy): (r: bool)
    ensures r <==> s.orientation.Top? && !s.tabs.sideComponentVertical
  {
    match s.orientation
    case Top => !s.tabs.sideComponentVertical
    case Bottom | Left | Right => false
  }

  /** How much the content area shrinks for the strip. It never shrinks
      along the primary axis; across it, Top and Left give up nothing,
      Bottom gives up the strip and a one-pixel seam, Right the strip
      alone. */
  function CompSizeDelta(s: Strategy): (r: Dimension)
    ensures AlongPrimary(s.orientation.IsHorizontal(), r) == 0
    ensures (s.orientation.Top? || s.orientation.Left?) ==> r == EmptyDimension
    ensures s.orientation.Bottom? ==>
              AlongFixed(true, r) == -(FixedFitLength(s) + 1)
    ensures s.orientation.Right? ==>
              AlongFixed(false, r) == -FixedFitLength(s)
  {
    match s.orientation
    case Top | Left => EmptyDimension
    case Bottom => Dimension(0, -(s.tabs.headerFitSize.height + 1))
    case Right => Dimension(-s.tabs.headerFitSize.width, 0)
  }

  /** The left edge of a horizontal toolbar in a top strip: the toolbar
      inset after the indicator when one was placed, else after the
      position the tabs reached. */
  function ToolbarX(s: Strategy, data: PassInfo): (x: int)
    ensures data.moreRect.Some? ==> x - s.tabs.toolbarInset == data.moreRect.value.MaxX()
    ensures data.moreRect.None? ==> x - s.tabs.toolbarInset == data.position
  {
    match data.moreRect
    case Some(more) => more.MaxX() + s.tabs.toolbarInset
    case None => data.position + s.tabs.toolbarInset
  }

  /** The toolbar beside a top strip. A horizontal toolbar takes precedence
      over a vertical one; it sits one pixel below the top inset, is as
      tall as the strip, starts at ToolbarX and ends at the pane width
      minus the LEFT inset. */
  function TopToolbar(s: Strategy, data: PassInfo): (t: ToolbarLayout)
    requires s.orientation.Top?
    ensures data.hToolbar.Some? ==>
              t.HToolbarAt?
              && t.bounds.x == ToolbarX(s, data)
              && t.bounds.y == data.insets.top + 1
              && t.bounds.MaxX() == s.tabs.size.width - data.insets.left
              && t.bounds.height == FixedFitLength(s)
    ensures data.hToolbar.None? && data.vToolbar.Some? ==>
              t == VToolbarLeftOfComp(data.vToolbar.value.width)
    ensures data.hToolbar.None? && data.vToolbar.None? ==> t == NoToolbar
  {
    if data.hToolbar.Some? then
      var toolbarX := ToolbarX(s, data);
      HToolbarAt(Rectangle(toolbarX, data.insets.top + 1,
                           s.tabs.size.width - data.insets.left - toolbarX,
                           s.tabs.headerFitSize.height))
    else if data.vToolbar.Some? then
      VToolbarLeftOfComp(data.vToolbar.value.width)
    else
      NoToolbar
  }

  /** The bounds of a vertical toolbar once the container has placed the
      content at `compBounds`: as tall as the content, level with it, and
      ending one pixel before it. */
  function VToolbarBounds(width: int, compBounds: Rectangle): (r: Rectangle)
    ensures r.MaxX() + 1 == compBounds.x
    ensures r.y == compBounds.y && r.height == compBounds.height && r.width == width
  {
    Rectangle(compBounds.x - width - 1, compBounds.y, width, compBounds.height)
  }

  /** The container calls that lay out the content area. A hidden strip
      leaves the content bounds untouched. Otherwise Bottom and Right shrink
      the content by CompSizeDelta and the border on the strip's side,
      Left moves it past the strip, the border and a seam, and Top places it
      a seam below the strip, right of a vertical toolbar if there is
      one. */
  function LayoutComp(s: Strategy, data: PassInfo): (c: CompLayout)
    ensures s.tabs.hideTabs ==> c == ShiftedComp(0, 0, 0, 0)
    ensures !s.tabs.hideTabs && s.orientation.Bottom? ==>
              c == ShiftedComp(0, 0, 0, CompSizeDelta(s).height - s.tabs.effectiveBorder.top)
    ensures !s.tabs.hideTabs && s.orientation.Right? ==>
              c == ShiftedComp(0, 0, CompSizeDelta(s).width - s.tabs.effectiveBorder.left, 0)
    ensures !s.tabs.hideTabs && s.orientation.Left? ==>
              c == ShiftedComp(FixedFitLength(s) + s.tabs.effectiveBorder.right + 1, 0, 0, 0)
    ensures !s.tabs.hideTabs && s.orientation.Top? ==>
              c.CompAt?
              && c.y == data.compPosition + FixedFitLength(s) + 1
              && c.x == (if data.vToolbar.Some? then data.vToolbar.value.width + 1 else 0)
              && c.toolbar == TopToolbar(s, data)
  {
    var t := s.tabs;
    if t.hideTabs then
      ShiftedComp(0, 0, 0, 0)
    else
      match s.orientation
      case Top =>
        var x := if data.vToolbar.Some? then data.vToolbar.value.width + 1 else 0;
        var y := data.compPosition + t.headerFitSize.height + 1;
        CompAt(x, y, TopToolbar(s, data))
      case Bottom =>
        ShiftedComp(0, 0, 0, -(t.headerFitSize.height + t.effectiveBorder.top + 1))
      case Left =>
        ShiftedComp(t.headerFitSize.width + t.effectiveBorder.right + 1, 0, 0, 0)
      case Right =>
        ShiftedComp(0, 0, -(t.headerFitSize.width + t.effectiveBorder.left), 0)
  }
}
