# Single-row tab strip layout strategies

This project models the geometry of a single row or column of tab headers
in the IntelliJ platform's tabbed pane. The Java class `SingleRowLayoutStrategy`
has two intermediate classes: `Horizontal` covers Top and Bottom, and
`Vertical` covers Left and Right. Each orientation computes integer pixel
geometry:

- where the first tab starts and how much length the tabs may use;
- how far each tab advances the position and where a rectangle ends along the strip;
- the strip's thickness and where it sits across the primary axis;
- the rectangle of each tab label and of the "more tabs" indicator;
- how much the content area shrinks;
- the arguments the strategy hands to the container when it lays out the content and a toolbar.

Files:

- `awt.dfy` (module `Awt`): integer rectangles, sizes and insets.
- `axis_frame.dfy` (module `AxisFrame`): an orientation-independent strip frame.
  It has a primary axis (the direction the tabs follow) and a fixed axis (across the strip).
  `ToAxes` and `ToScreen` convert between the strip frame and screen coordinates.
  The strategy contracts are written in this frame, so one sentence covers all four orientations.
- `strategy.dfy` (module `SingleRowLayoutStrategy`): the strategy itself.
  - The class hierarchy becomes an `Orientation` datatype.
  - `Strategy` is a value that holds the orientation, the pane metrics the Java object reads through `myTabs`, and the "more" icon size it reads through `myLayout`.
  - `PassInfo` holds the inputs of one layout pass.
  - There is one function per Java method. `layoutComp` becomes `LayoutComp`, which returns the arguments of the container calls as a `CompLayout` value.
- `orientation_symmetry.dfy` (module `OrientationSymmetry`): how the orientations relate.
  Each lemma compares two orientations on inputs mirrored across the diagonal.
  - All four lay out a tab the same way, except that Right's tab is one pixel narrower.
  - Left agrees with Top on the start, thickness, strip position, content delta and indicator band.
    It also agrees on the available length when there is no horizontal toolbar.
    It differs in five ways, each stated by the lemma:
    - it never subtracts the toolbar;
    - its indicator sits at the far end of the strip rather than after the tabs, with two pixels less padding;
    - its side component is never on the tabs;
    - its labels are never stretched and their text never centred;
    - it shifts the content instead of placing it.
  - Right agrees with Bottom on the start, and on the available length without a toolbar, when the strip is laid out in the whole pane.
    The lemma states each other difference exactly:
    - it never subtracts the toolbar;
    - its labels are never stretched and their text never centred;
    - its strip sits one pixel further out;
    - its content gives up one pixel less;
    - its indicator has two pixels less padding and ends three pixels earlier along the strip;
    - across the strip, its indicator sits the bottom inset plus one pixel further out.
  - The indicators of Left and Right differ only in x.
- `strip_pass.dfy` (module `StripPass`): the tab rectangles that result when the operations are chained.
  The first tab starts at the start position, and each later tab starts where the previous one ended.
  The lemmas prove three things about this chain:
  - the tabs tile the primary axis with no gap and no overlap;
  - all the tabs share the strip's band across the axis;
  - the top strip's indicator starts where the last tab ends, or after the placeholder when one is shown.
  The module also states and proves two concrete scenarios (an 800×600 pane with Top and Right strips).

Three details of the code that the model keeps as written:

- The available length subtracts the horizontal toolbar's minimum width for every horizontal orientation (`Horizontal.getToFitLength`), so Bottom subtracts it as well as Top.
- A horizontal toolbar in a top strip ends at the pane width minus the *left* inset (line 136). `TopToolbar` states that edge exactly as written.
- A right strip's indicator ignores the right inset. Its x is the strip's fixed position plus the right inset (lines 291 and 295), so with a 5-pixel inset it sits 5 pixels beyond the strip's own x. `MoreRect` states this.

## Model

| member | source | states |
|---|---|---|
| SingleRowLayoutStrategy.MoreRectAxisSize | platform-api/src/com/intellij/ui/tabs/impl/singleRow/SingleRowLayoutStrategy.java:64-66 | the indicator's size along the strip is the icon's extent along the primary axis plus 6 pixels horizontally, or plus 4 vertically (lines 196-198) |
| SingleRowLayoutStrategy.StartPosition | platform-api/src/com/intellij/ui/tabs/impl/singleRow/SingleRowLayoutStrategy.java:92-94 | the first tab starts at the leading inset of the primary axis: the left inset horizontally, the top inset vertically (lines 209-211) |
| SingleRowLayoutStrategy.ToFitLength | platform-api/src/com/intellij/ui/tabs/impl/singleRow/SingleRowLayoutStrategy.java:68-74 | start + available length + trailing inset + (for a horizontal strip with a toolbar, the toolbar's minimum width) equals the pane's extent along the primary axis; a vertical strip has no toolbar term (lines 213-215) |
| SingleRowLayoutStrategy.LengthIncrement | platform-api/src/com/intellij/ui/tabs/impl/singleRow/SingleRowLayoutStrategy.java:76-78 | a tab advances by its preferred extent along the primary axis: width horizontally, height vertically (lines 217-219) |
| SingleRowLayoutStrategy.MaxPosition | platform-api/src/com/intellij/ui/tabs/impl/singleRow/SingleRowLayoutStrategy.java:80-82 | the result is the rectangle's end along the primary axis: x+width horizontally, y+height vertically (lines 221-223) |
| SingleRowLayoutStrategy.FixedFitLength | platform-api/src/com/intellij/ui/tabs/impl/singleRow/SingleRowLayoutStrategy.java:84-86 | the strip's thickness is the header height horizontally and the header width vertically (lines 225-227) |
| SingleRowLayoutStrategy.LayoutRec | platform-api/src/com/intellij/ui/tabs/impl/singleRow/SingleRowLayoutStrategy.java:88-90 | in the strip frame, a tab covers `length` from `position` along the strip and `fixedFitLength` from `fixedPos` across it; Right's tab is one pixel thinner (lines 251-253, 286-288) |
| SingleRowLayoutStrategy.FixedPosition | platform-api/src/com/intellij/ui/tabs/impl/singleRow/SingleRowLayoutStrategy.java:168-170 | Top and Left place the strip at the leading fixed-axis inset (lines 113-115, 255-257). Bottom ends it one pixel before the pane's bottom inset. Right ends it exactly at the right inset of the layout size (lines 290-292) |
| SingleRowLayoutStrategy.MoreRect | platform-api/src/com/intellij/ui/tabs/impl/singleRow/SingleRowLayoutStrategy.java:117-121 | in every orientation the indicator is axis size − 1 long and strip thickness − 1 thick. Top: x = position, plus the placeholder width only when the placeholder is shown; y = top inset + selection shift. Bottom: right edge = width − right inset + 1; y = the strip's fixed position (lines 172-175). Left: x = left inset + selection shift. Right: x + header width = layout width, so x = the strip's fixed position + right inset. Left and Right: bottom edge = height − bottom inset − 2 (lines 259-264, 290-299) |
| SingleRowLayoutStrategy.CanBeStretched | platform-api/src/com/intellij/ui/tabs/impl/singleRow/SingleRowLayoutStrategy.java:59-62 | true exactly for the horizontal orientations Top and Bottom (false for Left/Right, lines 204-207) |
| SingleRowLayoutStrategy.IsToCenterTextWhenStretched | platform-api/src/com/intellij/ui/tabs/impl/singleRow/SingleRowLayoutStrategy.java:55-57 | true exactly for Top and Bottom (false for Left/Right, lines 192-194) |
| SingleRowLayoutStrategy.IsSideComponentOnTabs | platform-api/src/com/intellij/ui/tabs/impl/singleRow/SingleRowLayoutStrategy.java:104-107 | true exactly for Top when the side component is not vertical; every other orientation inherits the base answer false (lines 46-48) |
| SingleRowLayoutStrategy.CompSizeDelta | platform-api/src/com/intellij/ui/tabs/impl/singleRow/SingleRowLayoutStrategy.java:177-179 | the content never shrinks along the primary axis. Top and Left return the zero delta (lines 148-150, 200-202). Bottom gives up strip height + 1 across the strip. Right gives up the strip width (lines 302-304) |
| SingleRowLayoutStrategy.ToolbarX | platform-api/src/com/intellij/ui/tabs/impl/singleRow/SingleRowLayoutStrategy.java:134 | the toolbar starts one toolbar inset after the indicator's right edge when an indicator was placed, and otherwise one toolbar inset after the pass position |
| SingleRowLayoutStrategy.TopToolbar | platform-api/src/com/intellij/ui/tabs/impl/singleRow/SingleRowLayoutStrategy.java:132-144 | a horizontal toolbar wins over a vertical one. It starts at ToolbarX, one pixel below the top inset, is as tall as the strip, and ends at width − left inset. Otherwise a vertical toolbar of its preferred width goes left of the content. With neither, there is no toolbar |
| SingleRowLayoutStrategy.VToolbarBounds | platform-api/src/com/intellij/ui/tabs/impl/singleRow/SingleRowLayoutStrategy.java:139-141 | the vertical toolbar is level with the placed content and as tall as it, has its preferred width, and ends one pixel before the content's x |
| SingleRowLayoutStrategy.LayoutComp | platform-api/src/com/intellij/ui/tabs/impl/singleRow/SingleRowLayoutStrategy.java:124-146 | hidden tabs give all-zero offsets in every orientation. Otherwise: Top places the content at compPosition + strip + 1, right of a vertical toolbar (width + 1) when there is one, and adds TopToolbar. Bottom: dh = CompSizeDelta.height − border.top, i.e. −(header height + border.top + 1) (lines 160-165). Left: dx = header width + border.right + 1 (lines 238-243). Right: dw = CompSizeDelta.width − border.left, i.e. −(header width + border.left) (lines 274-279) |
| OrientationSymmetry.TabGeometryMirrors | platform-api/src/com/intellij/ui/tabs/impl/singleRow/SingleRowLayoutStrategy.java:251-253 | Bottom's tab rectangle is Top's. Left's is Top's mirrored across the diagonal. Right's is Left's with width fixedFitLength − 1 (lines 88-90, 286-288). Left's increment and max position are Top's read through the mirror |
| OrientationSymmetry.LeftMirrorsTop | platform-api/src/com/intellij/ui/tabs/impl/singleRow/SingleRowLayoutStrategy.java:192-264 | for mirrored inputs, Left has the same start, available length (with no horizontal toolbar), thickness, strip position and content delta as Top, and its indicator has the same band across the strip and the same length. The differences: with a horizontal toolbar Left's available length is larger by the toolbar's width; its indicator's axis size is two pixels smaller; Top's indicator starts at position + placeholder width, Left's at width − right inset − axis size − 1; Left's side component is never on the tabs; Top's labels are stretched with centred text and Left's are not; when the tabs are shown Left shifts the content and Top places it |
| OrientationSymmetry.RightMirrorsBottom | platform-api/src/com/intellij/ui/tabs/impl/singleRow/SingleRowLayoutStrategy.java:268-304 | for mirrored inputs with the layout size equal to the pane, Right's strip sits one pixel further out than Bottom's. Its content gives up one pixel less, both in the delta and in layoutComp's dw versus dh. Its indicator's axis size is two pixels smaller. Its indicator ends three pixels earlier along the strip, with the same size, and starts across the strip the bottom inset plus one pixel further out. With a horizontal toolbar Right's available length is larger by the toolbar's width. Bottom's labels are stretched with centred text and Right's are not |
| OrientationSymmetry.LeftRightMoreRectDifferOnlyInX | platform-api/src/com/intellij/ui/tabs/impl/singleRow/SingleRowLayoutStrategy.java:259-299 | Left's and Right's indicators share y, width and height. Their x differs by layout width − header width − left inset − selection shift |
| StripPass.TabRecs | platform-api/src/com/intellij/ui/tabs/impl/singleRow/SingleRowLayoutStrategy.java:76-90 | chaining the operations gives exactly one label rectangle per tab |
| StripPass.TabRecsBand | platform-api/src/com/intellij/ui/tabs/impl/singleRow/SingleRowLayoutStrategy.java:84-90 | each tab's rectangle is as long as the tab's increment, and lies in the strip's band across the axis: at the fixed position, with the fixed fit length, or one pixel less for Right. So every tab shares the strip's thickness |
| StripPass.TabRecsAt | platform-api/src/com/intellij/ui/tabs/impl/singleRow/SingleRowLayoutStrategy.java:76-90 | tab i is exactly LayoutRec at the start position plus the increments of the tabs before it, with its own increment as length, at the strip's fixed position and with its fixed fit length |
| StripPass.TabRecsStart | platform-api/src/com/intellij/ui/tabs/impl/singleRow/SingleRowLayoutStrategy.java:76-78 | tab i starts at the start position plus the increments of the tabs before it |
| StripPass.TabRecsAdjacent | platform-api/src/com/intellij/ui/tabs/impl/singleRow/SingleRowLayoutStrategy.java:80-82 | each tab's max position is exactly where the next tab starts, so there are no gaps and no overlaps |
| StripPass.TabRecsEnd | platform-api/src/com/intellij/ui/tabs/impl/singleRow/SingleRowLayoutStrategy.java:221-223 | the last tab's max position is the start plus the sum of all the increments |
| StripPass.TopMoreRectFollowsLastTab | platform-api/src/com/intellij/ui/tabs/impl/singleRow/SingleRowLayoutStrategy.java:117-118 | when the pass position is where the tabs ended, Top's indicator starts at the last tab's end, plus the placeholder width when the placeholder is shown |
| StripPass.TopStripExample | platform-api/src/com/intellij/ui/tabs/impl/singleRow/SingleRowLayoutStrategy.java:113-121 | in an 800×600 pane with 5-pixel insets and 30-pixel headers, tabs of 100, 120 and 80 pixels land at x 5, 105 and 225, and the indicator lands at 305 |
| StripPass.RightStripExample | platform-api/src/com/intellij/ui/tabs/impl/singleRow/SingleRowLayoutStrategy.java:290-299 | in the same pane with a 40-pixel-wide right strip, the strip sits at x 755 and the indicator at x 760 |

## Left out

- `platform/vcs-impl/src/com/intellij/openapi/vcs/impl/ModuleVcsDetector.java` is not part of this model. It registers listeners and maps module roots to version-control systems entirely through IDE managers whose code is not available here.
- `createShapeTransform` (lines 40, 109-111, 181-184, 246-249, 282-284) is left out. It only builds `ShapeTransform` objects whose classes are not available here.
- The toolkit effects of `layoutComp` are left out: `LayoutComp` models only the arguments passed to the container's `layoutComp` and `layout` calls. The container's own calls, and where it finally places the content, are not modelled. Top's vertical toolbar depends on the content bounds the container returns, so `VToolbarBounds` takes those bounds as a parameter.
- The pane metrics are plain inputs of `Tabs`: header fit size, selection shift, toolbar inset, effective border, hidden tabs, vertical side component, and the pane size. The "more" icon size is an input of `Strategy`. The classes that compute these values are not part of this model.
- `getWidth()`/`getHeight()` and `getSize()` of the pane are one value, `Tabs.size`.
- `getFixedFitLength` and `getCompSizeDelta` ignore their pass argument in the source, so the model drops that argument.
- `PassInfo.lastGhost` is always a rectangle. A missing placeholder is represented by `lastGhostVisible` being false, and the model never reads `lastGhost` in that case. A visible but missing placeholder (a null dereference in Java) is not modelled.
- `Rectangle.MaxX`/`MaxY` are integer sums. The toolkit computes them in floating point and casts them back, which is exact for the values modelled here.
- All arithmetic uses unbounded integers. Java's 32-bit overflow, and the saturating cast of the floating-point edge, are not modelled, and the source does no clamping.
- `StripPass` chains the strategy operations the way their signatures are meant to be combined. The real layout driver is not part of this model, including its overflow handling, its insertion of the placeholder, and its choice of which tabs are visible.
- Determinism and idempotence hold by construction: every operation is a Dafny function of its arguments.
