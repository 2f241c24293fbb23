/**
  How the four orientations relate when the pane and the pass are mirrored
  across the main diagonal. A tab is laid out the same way in all four
  (Right one pixel narrower). Left agrees with Top on the strip itself, but
  not on the indicator's start and padding, the toolbar, the side component,
  the content layout or label stretching. Right agrees with Bottom on the start and available
  length (without a toolbar), and the lemmas below state every offset by
  which the rest differs. The indicators of Left and Right differ only in x.
*/
module OrientationSymmetry {
  import opened Awt
  import opened AxisFrame
  import opened SingleRowLayoutStrategy

  /** The pane mirrored across the main diagonal. */
  function TransposeTabs(t: Tabs): Tabs
  {
    t.(size := TransposeDim(t.size),
       headerFitSize := TransposeDim(t.headerFitSize),
       effectiveBorder := TransposeInsets(t.effectiveBorder))
  }

  /** The same pane and icon, mirrored, under another orientation. */
  function Mirrored(s: Strategy, o: Orientation): Strategy
  {
    Strategy(o, TransposeTabs(s.tabs), TransposeDim(s.moreIcon))
  }

  /** The pass inputs mirrored across the main diagonal. */
  function TransposePass(data: PassInfo): PassInfo
  {
    data.(insets := TransposeInsets(data.insets), layoutSize := TransposeDim(data.layoutSize))
  }

  /** The per-tab operations of a vertical strip are those of a horizontal
      one read through the mirror; Bottom lays a tab out exactly as Top, and
      Right exactly as Left but one pixel narrower. */
  lemma TabGeometryMirrors(position: int, fixedPos: int, length: int, fixedFitLength: int,
                           labelPrefSize: Dimension, bounds: Rectangle)
    ensures LayoutRec(Bottom, position, fixedPos, length, fixedFitLength)
            == LayoutRec(Top, position, fixedPos, length, fixedFitLength)
    ensures LayoutRec(Left, position, fixedPos, length, fixedFitLength)
            == TransposeRect(LayoutRec(Top, position, fixedPos, length, fixedFitLength))
    ensures LayoutRec(Right, position, fixedPos, length, fixedFitLength)
            == LayoutRec(Left, position, fixedPos, length, fixedFitLength).(width := fixedFitLength - 1)
    ensures LengthIncrement(Left, TransposeDim(labelPrefSize)) == LengthIncrement(Top, labelPrefSize)
    ensures MaxPosition(Left, TransposeRect(bounds)) == MaxPosition(Top, bounds)
  {
  }

  /** Through the mirror, a left strip has the same start, thickness,
      strip position, content delta and indicator band across the strip as
      a top strip, and the same available length when there is no
      horizontal toolbar. It differs in these ways: it never subtracts a
      toolbar; its indicator is anchored at the far end of the strip instead
      of following the tabs, with two pixels less padding; its side
      component is never on the tabs; its labels are never stretched and
      their text never centred; and it shifts the content instead of
      placing it. */
  lemma LeftMirrorsTop(top: Strategy, data: PassInfo)
    requires top.orientation.Top?
    ensures var left := Mirrored(top, Left);
            var leftData := TransposePass(data);
            StartPosition(Left, leftData) == StartPosition(Top, data)
            && (data.hToolbar.None? ==> ToFitLength(left, leftData) == ToFitLength(top, data))
            && FixedFitLength(left) == FixedFitLength(top)
            && FixedPosition(left, leftData) == FixedPosition(top, data)
            && CompSizeDelta(left) == CompSizeDelta(top)
            && MoreRectAxisSize(left) + 2 == MoreRectAxisSize(top)
            && (data.hToolbar.Some? ==>
                  ToFitLength(left, leftData) == ToFitLength(top, data) + data.hToolbar.value.width)
            && !IsSideComponentOnTabs(left)
            && CanBeStretched(Top) && !CanBeStretched(Left)
            && IsToCenterTextWhenStretched(Top) && !IsToCenterTextWhenStretched(Left)
            && (!top.tabs.hideTabs ==> LayoutComp(left, leftData).ShiftedComp? && LayoutComp(top, data).CompAt?)
    ensures var leftMore := ToAxes(false, MoreRect(Mirrored(top, Left), TransposePass(data)));
            var topMore := ToAxes(true, MoreRect(top, data));
            leftMore.fixedStart == topMore.fixedStart
            && leftMore.fixedLength == topMore.fixedLength
            && leftMore.length == topMore.length
            && topMore.start == data.position + GhostExtent(data)
            && leftMore.start == top.tabs.size.width - data.insets.right - data.moreRectAxisSize - 1
  {
    TransposeKeepsAxes(true, MoreRect(top, data), top.tabs.headerFitSize, data.insets);
  }

  /** A right strip computes, through the mirror, almost what a bottom strip
      computes when the strip is laid out in the whole pane: the same start,
      and the same available length when there is no horizontal toolbar
      (only Bottom subtracts one). Its labels are never stretched and their
      text never centred. The strip sits one pixel further out, the
      content gives up one pixel less, the indicator's padding is two pixels
      smaller, the indicator ends three pixels earlier along the strip, and
      across the strip it sits the bottom inset plus one pixel further
      out. */
  lemma RightMirrorsBottom(bottom: Strategy, data: PassInfo)
    requires bottom.orientation.Bottom?
    requires data.layoutSize == bottom.tabs.size
    ensures var right := Mirrored(bottom, Right);
            var rightData := TransposePass(data);
            StartPosition(Right, rightData) == StartPosition(Bottom, data)
            && (data.hToolbar.None? ==> ToFitLength(right, rightData) == ToFitLength(bottom, data))
            && FixedPosition(right, rightData) == FixedPosition(bottom, data) + 1
            && AlongFixed(false, CompSizeDelta(right)) == AlongFixed(true, CompSizeDelta(bottom)) + 1
            && MoreRectAxisSize(right) + 2 == MoreRectAxisSize(bottom)
            && CanBeStretched(Bottom) && !CanBeStretched(Right)
            && IsToCenterTextWhenStretched(Bottom) && !IsToCenterTextWhenStretched(Right)
            && (data.hToolbar.Some? ==>
                  ToFitLength(right, rightData) == ToFitLength(bottom, data) + data.hToolbar.value.width)
    ensures var right := Mirrored(bottom, Right);
            !bottom.tabs.hideTabs ==>
              LayoutComp(right, TransposePass(data)).dw == LayoutComp(bottom, data).dh + 1
    ensures var rightMore := ToAxes(false, MoreRect(Mirrored(bottom, Right), TransposePass(data)));
            var bottomMore := ToAxes(true, MoreRect(bottom, data));
            rightMore.End() + 3 == bottomMore.End()
            && rightMore.length == bottomMore.length
            && rightMore.fixedLength == bottomMore.fixedLength
            && rightMore.fixedStart == bottomMore.fixedStart + data.insets.bottom + 1
  {
    TransposeKeepsAxes(true, MoreRect(bottom, data), bottom.tabs.headerFitSize, data.insets);
  }

  /** Left and Right place the indicator at the same height with the same
      size; only its x differs, by how far the right strip sits from the
      left inset. */
  lemma LeftRightMoreRectDifferOnlyInX(tabs: Tabs, moreIcon: Dimension, data: PassInfo)
    ensures var left := MoreRect(Strategy(Left, tabs, moreIcon), data);
            var right := MoreRect(Strategy(Right, tabs, moreIcon), data);
            right.(x := left.x) == left
            && right.x - left.x
               == data.layoutSize.width - tabs.headerFitSize.width - data.insets.left - tabs.selectionTabVShift
  {
  }
}
