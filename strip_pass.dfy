/**
  A strip of tabs as the strategy operations lay it out when chained: the
  first tab at the start position, each following tab where the previous
  one ended (the position advanced by its length increment), every tab at
  the strip's fixed position with the strip's thickness. The lemmas show
  that the tabs tile the primary axis without gaps or overlap, that they
  share their geometry across the strip, and that the top strip's "more
  tabs" indicator starts where the last tab ends, or after the placeholder
  when one is shown.
*/
module StripPass {
  import opened Awt
  import opened AxisFrame
  import opened SingleRowLayoutStrategy

  /** How far a run of tabs advances the position. */
  function Advance(o: Orientation, prefSizes: seq<Dimension>): int
  {
    if prefSizes == [] then 0
    else LengthIncrement(o, prefSizes[0]) + Advance(o, prefSizes[1..])
  }

  /** The label rectangles of tabs with the given preferred sizes, the
      first starting at `position`: one per tab. */
  function TabRecs(s: Strategy, data: PassInfo, position: int, prefSizes: seq<Dimension>): (recs: seq<Rectangle>)
    ensures |recs| == |prefSizes|
    decreases |prefSizes|
  {
    if prefSizes == [] then []
    else
      var length := LengthIncrement(s.orientation, prefSizes[0]);
      [LayoutRec(s.orientation, position, FixedPosition(s, data), length, FixedFitLength(s))]
      + TabRecs(s, data, position + length, prefSizes[1..])
  }

  /** The unrolling of TabRecs: the first tab at `position`, the rest
      from where it ends. */
  lemma TabRecsUnfold(s: Strategy, data: PassInfo, position: int, prefSizes: seq<Dimension>)
    requires prefSizes != []
    ensures var recs := TabRecs(s, data, position, prefSizes);
            var length := LengthIncrement(s.orientation, prefSizes[0]);
            ToAxes(s.orientation.IsHorizontal(), recs[0]).start == position
            && MaxPosition(s.orientation, recs[0]) == position + length
            && recs[1..] == TabRecs(s, data, position + length, prefSizes[1..])
  {
  }

  /** Every tab covers its own length increment along the strip and the
      strip's band across it: all tabs share the fixed position and the
      thickness (one pixel less for Right). */
  lemma {:induction false} TabRecsBand(s: Strategy, data: PassInfo, position: int, prefSizes: seq<Dimension>, i: nat)
    requires i < |prefSizes|
    ensures var a := ToAxes(s.orientation.IsHorizontal(), TabRecs(s, data, position, prefSizes)[i]);
            a.length == LengthIncrement(s.orientation, prefSizes[i])
            && a.fixedStart == FixedPosition(s, data)
            && a.fixedLength == FixedFitLength(s) - TabNarrowing(s.orientation)
    decreases i
  {
    var recs := TabRecs(s, data, position, prefSizes);
    var length := LengthIncrement(s.orientation, prefSizes[0]);
    assert recs[1..] == TabRecs(s, data, position + length, prefSizes[1..]);
    if i > 0 {
      TabRecsBand(s, data, position + length, prefSizes[1..], i - 1);
      assert recs[i] == recs[1..][i - 1];
    }
  }

  /** A non-empty prefix advances by its first tab and then by the rest of
      the prefix. */
  lemma AdvancePrefix(o: Orientation, prefSizes: seq<Dimension>, i: nat)
    requires 0 < i <= |prefSizes|
    ensures Advance(o, prefSizes[..i]) == LengthIncrement(o, prefSizes[0]) + Advance(o, prefSizes[1..][..i - 1])
  {
    var prefix := prefSizes[..i];
    assert prefix[0] == prefSizes[0] && prefix[1..] == prefSizes[1..][..i - 1];
  }

  /** Tab `i` starts where the tabs before it have advanced the position
      to. */
  lemma {:induction false} TabRecsStart(s: Strategy, data: PassInfo, position: int, prefSizes: seq<Dimension>, i: nat)
    requires i < |prefSizes|
    ensures ToAxes(s.orientation.IsHorizontal(), TabRecs(s, data, position, prefSizes)[i]).start
            == position + Advance(s.orientation, prefSizes[..i])
    decreases i
  {
    TabRecsUnfold(s, data, position, prefSizes);
    if i == 0 {
      assert prefSizes[..0] == [];
    } else {
      var length := LengthIncrement(s.orientation, prefSizes[0]);
      var recs := TabRecs(s, data, position, prefSizes);
      TabRecsStart(s, data, position + length, prefSizes[1..], i - 1);
      assert recs[i] == recs[1..][i - 1];
      AdvancePrefix(s.orientation, prefSizes, i);
    }
  }

  /** Every tab rectangle in closed form: tab `i` is the label rectangle at
      the position the tabs before it advanced to, as long as its own
      increment, in the strip's band. */
  lemma TabRecsAt(s: Strategy, data: PassInfo, position: int, prefSizes: seq<Dimension>, i: nat)
    requires i < |prefSizes|
    ensures TabRecs(s, data, position, prefSizes)[i]
            == LayoutRec(s.orientation, position + Advance(s.orientation, prefSizes[..i]),
                         FixedPosition(s, data), LengthIncrement(s.orientation, prefSizes[i]),
                         FixedFitLength(s))
  {
    TabRecsStart(s, data, position, prefSizes, i);
    TabRecsBand(s, data, position, prefSizes, i);
  }

  /** The last tab ends where the whole run has advanced the position to. */
  lemma {:induction false} TabRecsEnd(s: Strategy, data: PassInfo, position: int, prefSizes: seq<Dimension>)
    requires prefSizes != []
    ensures MaxPosition(s.orientation, TabRecs(s, data, position, prefSizes)[|prefSizes| - 1])
            == position + Advance(s.orientation, prefSizes)
    decreases |prefSizes|
  {
    TabRecsUnfold(s, data, position, prefSizes);
    if |prefSizes| == 1 {
      assert prefSizes[1..] == [];
    } else {
      var length := LengthIncrement(s.orientation, prefSizes[0]);
      TabRecsEnd(s, data, position + length, prefSizes[1..]);
    }
  }

  /** Consecutive tabs touch: each ends exactly where the next begins, so
      the tabs tile the primary axis without gaps or overlap. */
  lemma {:induction false} TabRecsAdjacent(s: Strategy, data: PassInfo, position: int, prefSizes: seq<Dimension>, i: nat)
    requires i + 1 < |prefSizes|
    ensures var recs := TabRecs(s, data, position, prefSizes);
            MaxPosition(s.orientation, recs[i]) == ToAxes(s.orientation.IsHorizontal(), recs[i + 1]).start
    decreases i
  {
    var length := LengthIncrement(s.orientation, prefSizes[0]);
    TabRecsUnfold(s, data, position, prefSizes);
    TabRecsUnfold(s, data, position + length, prefSizes[1..]);
    if i > 0 {
      TabRecsAdjacent(s, data, position + length, prefSizes[1..], i - 1);
    }
  }

  /** In a top strip whose pass position is where the tabs ended, the
      indicator starts where the last tab ends, or after the placeholder
      when one is shown. */
  lemma TopMoreRectFollowsLastTab(s: Strategy, data: PassInfo, prefSizes: seq<Dimension>)
    requires s.orientation.Top?
    requires prefSizes != []
    requires data.position == StartPosition(Top, data) + Advance(Top, prefSizes)
    ensures var recs := TabRecs(s, data, StartPosition(Top, data), prefSizes);
            MoreRect(s, data).x == MaxPosition(Top, recs[|recs| - 1]) + GhostExtent(data)
  {
    TabRecsEnd(s, data, StartPosition(Top, data), prefSizes);
  }

  /** A pane of 800 by 600 pixels with 30-pixel-high, 40-pixel-wide
      headers. */
  const ExampleTabs := Tabs(Dimension(800, 600), Dimension(40, 30), 0, 0, Insets(0, 0, 0, 0), false, false)

  /** A pass with five-pixel insets, no toolbars, no placeholder, and the
      strip laid out in the whole pane. */
  const ExamplePass := PassInfo(Insets(5, 5, 5, 5), None, None, 0, false, Rectangle(0, 0, 0, 0),
                                0, Dimension(800, 600), 0, None)

  /** Three tabs 100, 120 and 80 pixels wide. */
  const ExampleSizes := [Dimension(100, 30), Dimension(120, 30), Dimension(80, 30)]

  /** In that pane a top strip puts the three tabs at 5, 105 and 225, all at
      y 5 and 30 high, and the indicator, placed where the last tab ends,
      at 305. */
  lemma TopStripExample()
    ensures var s := Strategy(Top, ExampleTabs, Dimension(0, 0));
            var recs := TabRecs(s, ExamplePass, StartPosition(Top, ExamplePass), ExampleSizes);
            recs == [Rectangle(5, 5, 100, 30), Rectangle(105, 5, 120, 30), Rectangle(225, 5, 80, 30)]
            && MoreRect(s, ExamplePass.(position := MaxPosition(Top, recs[2]))).x == 305
  {
  }

  /** In the same pane a right strip 40 pixels wide sits at x 755 and puts
      the indicator at x 760. */
  lemma RightStripExample()
    ensures var s := Strategy(Right, ExampleTabs, Dimension(0, 0));
            FixedPosition(s, ExamplePass) == 755 && MoreRect(s, ExamplePass).x == 760
  {
  }
}
