/** The seam geometry of CLImage360Stitch: from the calibration overlap table to
    the rectangles each of the two blenders is configured with, in the local
    scale mode (`prepare_local_scale_blender_parameters`) and the global one
    (`prepare_global_scale_blender_parameters`). These functions are the
    specification the imperative methods of module Stitch are proved against.

    The left blender stitches the secondary image's right edge (input 0) to the
    main image's left edge (input 1); the right blender stitches the main
    image's right edge (input 0) to the secondary image's left edge (input 1).
    Slot 0 of the secondary row of the table is the rectangle the code calls
    `scnd_right`, slot 1 the one it calls `scnd_left`. */
module SeamGeometry {
  import opened Align
  import opened XCamTypes
  import opened Sizing

  /** The four overlap rectangles once snapped to the seam alignment. */
  datatype Seams = Seams(mainLeft: Rect, scndLeft: Rect, mainRight: Rect, scndRight: Rect)

  /** What one blender is given: a valid area and a merge area per input, and
      the merge window in the output. */
  datatype BlenderConfig = BlenderConfig(
    validArea0: Rect, validArea1: Rect, mergeWindow: Rect, mergeArea0: Rect, mergeArea1: Rect)

  /** Everything one pass derives: the snapped seams, the three midpoints and
      the two blender configurations. */
  datatype Layout = Layout(
    seams: Seams, mainMid: int, scndMid: int, outMid: int, left: BlenderConfig, right: BlenderConfig)

  function End(r: Rect): int
  {
    r.posX + r.width
  }

  /** Snapping of one seam: the main rectangle's position goes to the nearest
      aligned column (rounded towards zero instead when it lies more than half
      an alignment step left of column 0) and its width up to an aligned
      width; the companion moves by the same amount, is snapped the same way,
      and takes the main rectangle's width. */
  function SnapSeam(main: Rect, companion: Rect, k: nat): (r: (Rect, Rect))
    ensures IsAroundAligned(r.0.posX, main.posX, k)
    ensures main.posX + Half(k) >= 0 ==> IsNearestAligned(r.0.posX, main.posX, k)
    ensures IsCeilAligned(r.0.width, main.width, k)
    ensures r.0.posY == main.posY && r.0.height == main.height
    ensures IsAroundAligned(r.1.posX, companion.posX + (r.0.posX - main.posX), k)
    ensures companion.posX + (r.0.posX - main.posX) + Half(k) >= 0
            ==> IsNearestAligned(r.1.posX, companion.posX + (r.0.posX - main.posX), k)
    ensures r.1.width == r.0.width
    ensures r.1.posY == companion.posY && r.1.height == companion.height
  {
    var m := main.(posX := AlignAround(main.posX, k), width := AlignUp(main.width, k));
    var c := companion.(posX := AlignAround(companion.posX + (m.posX - main.posX), k), width := m.width);
    (m, c)
  }

  /** Both seams snapped; the secondary slots are crossed over. */
  function SnapSeams(t: OverlapTable, k: nat): Seams
  {
    var (mainLeft, scndLeft) := SnapSeam(t.main0, t.scnd1, k);
    var (mainRight, scndRight) := SnapSeam(t.main1, t.scnd0, k);
    Seams(mainLeft, scndLeft, mainRight, scndRight)
  }

  /** The reused local `area`: `pos_y` 0 and `height` the output height. */
  function ValidArea(posX: int, width: int, outHeight: nat): Rect
  {
    Rect(posX, 0, width, outHeight)
  }

  /** The reused local `out_merge_window`. Its `pos_y` is assigned 0 and then
      the output height, and its `height` is never assigned, so it keeps the
      default 0. */
  function MergeWindow(posX: int, width: int, outHeight: nat): Rect
  {
    Rect(posX, outHeight, width, 0)
  }

  /** The seams of a layout are those of the table, with the crossing of the
      secondary slots. */
  ghost predicate SeamsOf(l: Layout, t: OverlapTable, k: nat)
  {
    && (l.seams.mainLeft, l.seams.scndLeft) == SnapSeam(t.main0, t.scnd1, k)
    && (l.seams.mainRight, l.seams.scndRight) == SnapSeam(t.main1, t.scnd0, k)
  }

  /** Stitching is horizontal: every valid area spans the full output height
      from row 0; the merge windows carry the quirk described at MergeWindow. */
  ghost predicate VerticalFields(l: Layout, outHeight: nat)
  {
    && l.left.validArea0.posY == 0 && l.left.validArea0.height == outHeight
    && l.left.validArea1.posY == 0 && l.left.validArea1.height == outHeight
    && l.right.validArea0.posY == 0 && l.right.validArea0.height == outHeight
    && l.right.validArea1.posY == 0 && l.right.validArea1.height == outHeight
    && l.left.mergeWindow.posY == outHeight && l.left.mergeWindow.height == 0
    && l.right.mergeWindow.posY == outHeight && l.right.mergeWindow.height == 0
  }

  /** Each blender samples exactly the snapped overlap rectangles. */
  ghost predicate MergeAreasAreSeams(l: Layout)
  {
    && l.left.mergeArea0 == l.seams.scndLeft && l.left.mergeArea1 == l.seams.mainLeft
    && l.right.mergeArea0 == l.seams.mainRight && l.right.mergeArea1 == l.seams.scndRight
  }

  /** The valid areas of each image run from one of its seams to its midpoint,
      so the two valid areas of an image meet at that midpoint and do not
      overlap: [mainLeft.posX, mainMid) + [mainMid, End(mainRight)) in the main
      image, [scndRight.posX, scndMid) + [scndMid, End(scndLeft)) in the
      secondary one. */
  ghost predicate ValidAreasMeetAtMids(l: Layout)
  {
    && l.left.validArea1.posX == l.seams.mainLeft.posX && End(l.left.validArea1) == l.mainMid
    && l.right.validArea0.posX == l.mainMid && End(l.right.validArea0) == End(l.seams.mainRight)
    && l.right.validArea1.posX == l.seams.scndRight.posX && End(l.right.validArea1) == l.scndMid
    && l.left.validArea0.posX == l.scndMid && End(l.left.validArea0) == End(l.seams.scndLeft)
  }

  /** Every emitted column and width, and every midpoint, is a multiple of the
      seam alignment. */
  ghost predicate AllAligned(l: Layout, k: nat)
  {
    && IsMultiple(l.mainMid, k) && IsMultiple(l.scndMid, k) && IsMultiple(l.outMid, k)
    && ConfigAligned(l.left, k) && ConfigAligned(l.right, k)
  }

  ghost predicate ConfigAligned(c: BlenderConfig, k: nat)
  {
    && RectAligned(c.validArea0, k) && RectAligned(c.validArea1, k)
    && RectAligned(c.mergeWindow, k)
    && RectAligned(c.mergeArea0, k) && RectAligned(c.mergeArea1, k)
  }

  ghost predicate RectAligned(r: Rect, k: nat)
  {
    IsMultiple(r.posX, k) && IsMultiple(r.width, k)
  }

  /** `prepare_local_scale_blender_parameters`: both input widths are measured,
      and each merge window's width is the seam width plus `delta_width`, which
      may be negative, so that it runs from the secondary image's seam,
      translated by its midpoint, to the main image's seam, translated by the
      output midpoint. */
  function LocalLayout(t: OverlapTable, k: nat, in0Width: nat, in1Width: nat, outWidth: nat, outHeight: nat)
    : (l: Layout)
    ensures SeamsOf(l, t, k)
    ensures IsFloorAligned(l.mainMid, in0Width / 2, k)
    ensures IsFloorAligned(l.scndMid, in1Width / 2, k)
    ensures IsFloorAligned(l.outMid, outWidth / 2, k)
    ensures VerticalFields(l, outHeight)
    ensures MergeAreasAreSeams(l)
    ensures ValidAreasMeetAtMids(l)
    ensures l.left.mergeWindow.posX == l.seams.scndLeft.posX - l.scndMid
    ensures End(l.left.mergeWindow) == l.outMid - (l.mainMid - l.seams.mainLeft.posX) + l.seams.mainLeft.width
    ensures l.right.mergeWindow.posX == l.outMid + (l.seams.mainRight.posX - l.mainMid)
    ensures End(l.right.mergeWindow)
            == 2 * l.outMid - (l.scndMid - l.seams.scndRight.posX) + l.seams.scndRight.width
  {
    var s := SnapSeams(t, k);
    var mainMid := AlignDown(in0Width / 2, k);
    var scndMid := AlignDown(in1Width / 2, k);
    var outMid := AlignDown(outWidth / 2, k);
    var leftDelta := outMid - (mainMid - s.mainLeft.posX) - (s.scndLeft.posX - scndMid);
    var rightDelta := outMid - (scndMid - s.scndRight.posX) - (s.mainRight.posX - mainMid);
    var left := BlenderConfig(
      ValidArea(scndMid, s.scndLeft.posX + s.scndLeft.width - scndMid, outHeight),
      ValidArea(s.mainLeft.posX, mainMid - s.mainLeft.posX, outHeight),
      MergeWindow(s.scndLeft.posX - scndMid, s.mainLeft.width + leftDelta, outHeight),
      s.scndLeft, s.mainLeft);
    var right := BlenderConfig(
      ValidArea(mainMid, s.mainRight.posX + s.mainRight.width - mainMid, outHeight),
      ValidArea(s.scndRight.posX, scndMid - s.scndRight.posX, outHeight),
      MergeWindow(outMid + (s.mainRight.posX - mainMid), s.mainRight.width + rightDelta, outHeight),
      s.mainRight, s.scndRight);
    Layout(s, mainMid, scndMid, outMid, left, right)
  }

  /** The secondary midpoint of the global mode before clamping: the column of
      the secondary image solved for so that the secondary strip right of it
      starts at output column 0, just as the main image's left seam is placed
      at `out_mid - (main_mid - main_left.pos_x)`. */
  function GlobalScndMidUnclamped(s: Seams, mainMid: int, outMid: int): int
  {
    s.scndLeft.posX + (mainMid - s.mainLeft.posX) - outMid
  }

  /** `prepare_global_scale_blender_parameters`: the secondary midpoint is solved
      for and clamped so that it never falls inside the right seam of the
      secondary image, and the merge windows keep the aligned seam widths. */
  function GlobalLayout(t: OverlapTable, k: nat, in0Width: nat, outWidth: nat, outHeight: nat)
    : (l: Layout)
    ensures SeamsOf(l, t, k)
    ensures IsFloorAligned(l.mainMid, in0Width / 2, k)
    ensures IsFloorAligned(l.outMid, outWidth / 2, k)
    ensures l.scndMid >= End(l.seams.scndRight)
    ensures l.scndMid >= GlobalScndMidUnclamped(l.seams, l.mainMid, l.outMid)
    ensures l.scndMid == End(l.seams.scndRight) || l.scndMid == GlobalScndMidUnclamped(l.seams, l.mainMid, l.outMid)
    ensures l.right.validArea1.width >= l.seams.scndRight.width
    ensures VerticalFields(l, outHeight)
    ensures MergeAreasAreSeams(l)
    ensures ValidAreasMeetAtMids(l)
    ensures l.left.mergeWindow.posX == l.outMid - (l.mainMid - l.seams.mainLeft.posX)
    ensures l.left.mergeWindow.width == l.seams.mainLeft.width
    ensures l.right.mergeWindow.posX == l.outMid + (l.seams.mainRight.posX - l.mainMid)
    ensures l.right.mergeWindow.width == l.seams.mainRight.width
  {
    var s := SnapSeams(t, k);
    var mainMid := AlignDown(in0Width / 2, k);
    var outMid := AlignDown(outWidth / 2, k);
    var unclamped := GlobalScndMidUnclamped(s, mainMid, outMid);
    var scndMid := if unclamped < End(s.scndRight) then End(s.scndRight) else unclamped;
    var left := BlenderConfig(
      ValidArea(scndMid, s.scndLeft.posX + s.scndLeft.width - scndMid, outHeight),
      ValidArea(s.mainLeft.posX, mainMid - s.mainLeft.posX, outHeight),
      MergeWindow(outMid - (mainMid - s.mainLeft.posX), s.mainLeft.width, outHeight),
      s.scndLeft, s.mainLeft);
    var right := BlenderConfig(
      ValidArea(mainMid, s.mainRight.posX + s.mainRight.width - mainMid, outHeight),
      ValidArea(s.scndRight.posX, scndMid - s.scndRight.posX, outHeight),
      MergeWindow(outMid + (s.mainRight.posX - mainMid), s.mainRight.width, outHeight),
      s.mainRight, s.scndRight);
    Layout(s, mainMid, scndMid, outMid, left, right)
  }

  /** The snapped seams are aligned in column and width. */
  lemma SeamsAligned(l: Layout, t: OverlapTable, k: nat)
    requires SeamsOf(l, t, k)
    ensures SeamsAlignedIn(l.seams, k)
  {
  }

  ghost predicate SeamsAlignedIn(s: Seams, k: nat)
  {
    && RectAligned(s.mainLeft, k) && RectAligned(s.scndLeft, k)
    && RectAligned(s.mainRight, k) && RectAligned(s.scndRight, k)
  }

  /** The merge windows of the local mode, as LocalLayout states them. */
  ghost predicate LocalWindows(l: Layout)
  {
    && l.left.mergeWindow.posX == l.seams.scndLeft.posX - l.scndMid
    && End(l.left.mergeWindow) == l.outMid - (l.mainMid - l.seams.mainLeft.posX) + l.seams.mainLeft.width
    && l.right.mergeWindow.posX == l.outMid + (l.seams.mainRight.posX - l.mainMid)
    && End(l.right.mergeWindow)
       == 2 * l.outMid - (l.scndMid - l.seams.scndRight.posX) + l.seams.scndRight.width
  }

  /** The merge windows of the global mode, as GlobalLayout states them. */
  ghost predicate GlobalWindows(l: Layout)
  {
    && l.left.mergeWindow.posX == l.outMid - (l.mainMid - l.seams.mainLeft.posX)
    && l.left.mergeWindow.width == l.seams.mainLeft.width
    && l.right.mergeWindow.posX == l.outMid + (l.seams.mainRight.posX - l.mainMid)
    && l.right.mergeWindow.width == l.seams.mainRight.width
  }

  /** Local mode emits only aligned columns and widths: `delta_width` is a sum
      of aligned terms. */
  lemma LocalLayoutAligned(t: OverlapTable, k: nat, in0Width: nat, in1Width: nat, outWidth: nat, outHeight: nat)
    ensures AllAligned(LocalLayout(t, k, in0Width, in1Width, outWidth, outHeight), k)
  {
    var l := LocalLayout(t, k, in0Width, in1Width, outWidth, outHeight);
    SeamsAligned(l, t, k);
    assert LocalWindows(l);
    LocalShapeAligned(l, k);
  }

  /** Global mode emits only aligned columns and widths: the clamped secondary
      midpoint is itself a sum of aligned terms. */
  lemma GlobalLayoutAligned(t: OverlapTable, k: nat, in0Width: nat, outWidth: nat, outHeight: nat)
    ensures AllAligned(GlobalLayout(t, k, in0Width, outWidth, outHeight), k)
  {
    var l := GlobalLayout(t, k, in0Width, outWidth, outHeight);
    SeamsAligned(l, t, k);
    assert GlobalWindows(l);
    GlobalShapeAligned(l, k);
  }

  /** Any layout of the local shape over aligned midpoints and seams is
      aligned throughout. */
  lemma LocalShapeAligned(l: Layout, k: nat)
    requires IsMultiple(l.mainMid, k) && IsMultiple(l.scndMid, k) && IsMultiple(l.outMid, k)
    requires SeamsAlignedIn(l.seams, k)
    requires MergeAreasAreSeams(l) && ValidAreasMeetAtMids(l) && LocalWindows(l)
    ensures AllAligned(l, k)
  {
    var s := l.seams;
    ValidAreasAligned(l, k);
    // left window: from the secondary seam to the main seam, moved to the output
    MultipleSum(s.scndLeft.posX, l.scndMid, l.left.mergeWindow.posX, k);
    var mainLeftOffset := l.mainMid - s.mainLeft.posX;
    MultipleSum(l.mainMid, s.mainLeft.posX, mainLeftOffset, k);
    var leftStart := l.outMid - mainLeftOffset;
    MultipleSum(l.outMid, mainLeftOffset, leftStart, k);
    var leftEnd := leftStart + s.mainLeft.width;
    MultipleSum(leftStart, s.mainLeft.width, leftEnd, k);
    MultipleSum(leftEnd, l.left.mergeWindow.posX, l.left.mergeWindow.width, k);
    // right window
    var mainRightOffset := s.mainRight.posX - l.mainMid;
    MultipleSum(s.mainRight.posX, l.mainMid, mainRightOffset, k);
    MultipleSum(l.outMid, mainRightOffset, l.right.mergeWindow.posX, k);
    var twiceOutMid := l.outMid + l.outMid;
    MultipleSum(l.outMid, l.outMid, twiceOutMid, k);
    var scndRightOffset := l.scndMid - s.scndRight.posX;
    MultipleSum(l.scndMid, s.scndRight.posX, scndRightOffset, k);
    var rightStart := twiceOutMid - scndRightOffset;
    MultipleSum(twiceOutMid, scndRightOffset, rightStart, k);
    var rightEnd := rightStart + s.scndRight.width;
    MultipleSum(rightStart, s.scndRight.width, rightEnd, k);
    MultipleSum(rightEnd, l.right.mergeWindow.posX, l.right.mergeWindow.width, k);
  }

  /** Any layout of the global shape over aligned seams and main and output
      midpoints is aligned throughout, the clamped secondary midpoint
      included. */
  lemma GlobalShapeAligned(l: Layout, k: nat)
    requires IsMultiple(l.mainMid, k) && IsMultiple(l.outMid, k)
    requires l.scndMid == End(l.seams.scndRight) || l.scndMid == GlobalScndMidUnclamped(l.seams, l.mainMid, l.outMid)
    requires SeamsAlignedIn(l.seams, k)
    requires MergeAreasAreSeams(l) && ValidAreasMeetAtMids(l) && GlobalWindows(l)
    ensures AllAligned(l, k)
  {
    var s := l.seams;
    var mainLeftOffset := l.mainMid - s.mainLeft.posX;
    MultipleSum(l.mainMid, s.mainLeft.posX, mainLeftOffset, k);
    if l.scndMid == End(s.scndRight) {
      MultipleSum(s.scndRight.posX, s.scndRight.width, l.scndMid, k);
    } else {
      var scndAtMainMid := s.scndLeft.posX + mainLeftOffset;
      MultipleSum(s.scndLeft.posX, mainLeftOffset, scndAtMainMid, k);
      MultipleSum(scndAtMainMid, l.outMid, l.scndMid, k);
    }
    ValidAreasAligned(l, k);
    MultipleSum(l.outMid, mainLeftOffset, l.left.mergeWindow.posX, k);
    var mainRightOffset := s.mainRight.posX - l.mainMid;
    MultipleSum(s.mainRight.posX, l.mainMid, mainRightOffset, k);
    MultipleSum(l.outMid, mainRightOffset, l.right.mergeWindow.posX, k);
  }

  /** The valid areas run between aligned seam edges and aligned midpoints,
      so they are aligned in both modes. */
  lemma ValidAreasAligned(l: Layout, k: nat)
    requires IsMultiple(l.mainMid, k) && IsMultiple(l.scndMid, k)
    requires SeamsAlignedIn(l.seams, k) && ValidAreasMeetAtMids(l)
    ensures RectAligned(l.left.validArea0, k) && RectAligned(l.left.validArea1, k)
    ensures RectAligned(l.right.validArea0, k) && RectAligned(l.right.validArea1, k)
  {
    var s := l.seams;
    var scndLeftEnd := End(s.scndLeft);
    MultipleSum(s.scndLeft.posX, s.scndLeft.width, scndLeftEnd, k);
    MultipleSum(scndLeftEnd, l.scndMid, l.left.validArea0.width, k);
    MultipleSum(l.mainMid, s.mainLeft.posX, l.left.validArea1.width, k);
    var mainRightEnd := End(s.mainRight);
    MultipleSum(s.mainRight.posX, s.mainRight.width, mainRightEnd, k);
    MultipleSum(mainRightEnd, l.mainMid, l.right.validArea0.width, k);
    MultipleSum(l.scndMid, s.scndRight.posX, l.right.validArea1.width, k);
  }

  /** In both modes the output between the two merge windows is the main
      image's strip between its two seams, shifted by outMid - mainMid; so the
      windows are disjoint exactly when the snapped main seams are. The two
      modes agree on everything but the secondary midpoint and the windows'
      outer ends. */
  lemma ModesShareCentre(t: OverlapTable, k: nat, in0Width: nat, in1Width: nat, outWidth: nat, outHeight: nat)
    ensures var lo := LocalLayout(t, k, in0Width, in1Width, outWidth, outHeight);
            var gl := GlobalLayout(t, k, in0Width, outWidth, outHeight);
            && lo.seams == gl.seams && lo.mainMid == gl.mainMid && lo.outMid == gl.outMid
            && End(lo.left.mergeWindow) == End(gl.left.mergeWindow)
                 == lo.outMid + (End(lo.seams.mainLeft) - lo.mainMid)
            && lo.right.mergeWindow.posX == gl.right.mergeWindow.posX
                 == lo.outMid + (lo.seams.mainRight.posX - lo.mainMid)
            && ((End(lo.left.mergeWindow) <= lo.right.mergeWindow.posX) <==>
                (End(lo.seams.mainLeft) <= lo.seams.mainRight.posX))
  {
  }

  /** Local mode lays five pieces end to end over the output columns
      [0, 2 * out_mid), left to right: the secondary image's strip [scndMid,
      scndLeft.posX), the left merge window, the main image's strip
      [End(mainLeft), mainRight.posX) shifted by out_mid - main_mid, the right
      merge window, and the secondary image's strip [End(scndRight), scndMid).
      Each window starts where the piece before it ends, and each strip between
      the windows and the output's edges is exactly as wide as the image strip
      it shows. Nothing keeps a piece from having a negative width, so the
      pieces tile the output exactly when the three image strips are in order
      and neither window is negative (LocalNegativeWindow shows a table where
      they do not). */
  lemma LocalTiles(t: OverlapTable, k: nat, in0Width: nat, in1Width: nat, outWidth: nat, outHeight: nat)
    ensures var l := LocalLayout(t, k, in0Width, in1Width, outWidth, outHeight);
            var lw, rw, s := l.left.mergeWindow, l.right.mergeWindow, l.seams;
            && lw.posX - 0 == s.scndLeft.posX - l.scndMid
            && End(lw) == End(s.mainLeft) + (l.outMid - l.mainMid)
            && rw.posX == s.mainRight.posX + (l.outMid - l.mainMid)
            && rw.posX - End(lw) == s.mainRight.posX - End(s.mainLeft)
            && 2 * l.outMid - End(rw) == l.scndMid - End(s.scndRight)
            && ((0 <= lw.posX <= End(lw) <= rw.posX <= End(rw) <= 2 * l.outMid) <==>
                (&& l.scndMid <= s.scndLeft.posX && 0 <= lw.width
                 && End(s.mainLeft) <= s.mainRight.posX
                 && 0 <= rw.width && End(s.scndRight) <= l.scndMid))
  {
  }

  /** A 128-column output and inputs over which every seam is 16 wide and lies
      on its own side of its image's midpoint 64: main seams at columns 0 and
      96, secondary slot 0 (`scnd_right`) at 16 and slot 1 (`scnd_left`) at
      96. */
  function NarrowTable(): OverlapTable
  {
    var r := Rect(0, 0, 16, 64);
    OverlapTable(r, r.(posX := 96), r.(posX := 16), r.(posX := 96))
  }

  /** The snapping of NarrowTable leaves every rectangle where it is. */
  lemma NarrowSeams()
    ensures SnapSeams(NarrowTable(), 4)
            == Seams(Rect(0, 0, 16, 64), Rect(96, 0, 16, 64),
                     Rect(96, 0, 16, 64), Rect(16, 0, 16, 64))
  {
    var r := Rect(0, 0, 16, 64);
    assert IsMultiple(0, 4) && IsMultiple(16, 4) && IsMultiple(96, 4);
    SnapSeamPinned(r, r.(posX := 96), 4, r, r.(posX := 96));
    SnapSeamPinned(r.(posX := 96), r.(posX := 16), 4, r.(posX := 96), r.(posX := 16));
  }

  /** Local mode over NarrowTable, all widths 128 and an alignment of 16: the
      left merge window is -16 columns wide and the right one 0, so no merge
      window bounds a positive width, and the secondary strip [0, 32) overlaps
      the shifted main strip, which starts at output column 16. */
  lemma LocalNegativeWindow(t: OverlapTable, width: nat)
    requires t == NarrowTable() && width == 128
    ensures var l := LocalLayout(t, 4, width, width, width, 64);
            && l.mainMid == 64 && l.scndMid == 64 && l.outMid == 64
            && l.left.mergeWindow == Rect(32, 64, -16, 0)
            && l.right.mergeWindow == Rect(96, 64, 0, 0)
            && l.seams.scndLeft.posX - l.scndMid == 32
            && End(l.seams.mainLeft) + (l.outMid - l.mainMid) == 16
  {
    var l := LocalLayout(t, 4, width, width, width, 64);
    LocalWindowRules(l, t, width);
    assert width / 2 == 64;
    NarrowSeams();
    assert SeamsOf(l, t, 4);
    NarrowMidPinned();
    LocalNarrowWindows(l);
  }

  /** The window rules of LocalLayout, restated on a bound layout. */
  lemma LocalWindowRules(l: Layout, t: OverlapTable, width: nat)
    requires l == LocalLayout(t, 4, width, width, width, 64)
    ensures VerticalFields(l, 64)
    ensures l.left.mergeWindow.posX == l.seams.scndLeft.posX - l.scndMid
    ensures End(l.left.mergeWindow) == l.outMid - (l.mainMid - l.seams.mainLeft.posX) + l.seams.mainLeft.width
    ensures l.right.mergeWindow.posX == l.outMid + (l.seams.mainRight.posX - l.mainMid)
    ensures End(l.right.mergeWindow)
            == 2 * l.outMid - (l.scndMid - l.seams.scndRight.posX) + l.seams.scndRight.width
  {
  }

  lemma NarrowMidPinned()
    ensures AlignDown(64, 4) == 64
  {
    assert IsMultiple(64, 4);
    AlignCharacterised(64, 64, 4);
  }

  /** The arithmetic of LocalNegativeWindow, on any layout that has its seams,
      its midpoints and the local mode's window rules. */
  lemma LocalNarrowWindows(l: Layout)
    requires l.seams == Seams(Rect(0, 0, 16, 64), Rect(96, 0, 16, 64),
                              Rect(96, 0, 16, 64), Rect(16, 0, 16, 64))
    requires l.mainMid == 64 && l.scndMid == 64 && l.outMid == 64
    requires VerticalFields(l, 64)
    requires l.left.mergeWindow.posX == l.seams.scndLeft.posX - l.scndMid
    requires End(l.left.mergeWindow) == l.outMid - (l.mainMid - l.seams.mainLeft.posX) + l.seams.mainLeft.width
    requires l.right.mergeWindow.posX == l.outMid + (l.seams.mainRight.posX - l.mainMid)
    requires End(l.right.mergeWindow)
             == 2 * l.outMid - (l.scndMid - l.seams.scndRight.posX) + l.seams.scndRight.width
    ensures l.left.mergeWindow == Rect(32, 64, -16, 0)
    ensures l.right.mergeWindow == Rect(96, 64, 0, 0)
    ensures l.seams.scndLeft.posX - l.scndMid == 32
    ensures End(l.seams.mainLeft) + (l.outMid - l.mainMid) == 16
  {
  }

  /** The stitched content width measured on the snapped seams: the main
      image between its seams plus the secondary image between its seams. */
  function SnappedContentWidth(s: Seams): int
  {
    s.mainRight.posX - s.mainLeft.posX + s.scndLeft.posX - s.scndRight.posX
  }

  /** What global mode lays out instead of a tiling of [0, 2 * out_mid). The
      main strip between the seams still sits between the two windows,
      shifted by out_mid - main_mid. When `scnd_mid` is not clamped, output
      column 0 starts the secondary strip [scndMid, scndLeft.posX), and the
      secondary strip [End(scndRight), scndMid) after the right window ends
      the content at the snapped content width, which in general is not
      2 * out_mid. When it is clamped, `scnd_mid` is the end of the right
      secondary seam, the strip after the right window is empty, and the left
      window starts right of where the secondary strip would end. */
  lemma GlobalTiles(t: OverlapTable, k: nat, in0Width: nat, outWidth: nat, outHeight: nat)
    ensures var l := GlobalLayout(t, k, in0Width, outWidth, outHeight);
            var lw, rw, s := l.left.mergeWindow, l.right.mergeWindow, l.seams;
            && End(lw) == End(s.mainLeft) + (l.outMid - l.mainMid)
            && rw.posX == s.mainRight.posX + (l.outMid - l.mainMid)
            && (l.scndMid == GlobalScndMidUnclamped(s, l.mainMid, l.outMid) ==>
                  && lw.posX - 0 == s.scndLeft.posX - l.scndMid
                  && End(rw) + (l.scndMid - End(s.scndRight)) == SnappedContentWidth(s))
            && (l.scndMid != GlobalScndMidUnclamped(s, l.mainMid, l.outMid) ==>
                  && l.scndMid == End(s.scndRight)
                  && lw.posX > s.scndLeft.posX - l.scndMid)
  {
  }

  /** The table of the fixed case below: 200-wide full-height overlaps at
      columns 0 and 1720 in both images. */
  function RegressionTable(): OverlapTable
  {
    var r := Rect(0, 0, 200, 1080);
    OverlapTable(r, r.(posX := 1720), r, r.(posX := 1720))
  }

  /** The snapping steps of the fixed case below, each value pinned down by
      its characterisation. */
  lemma RegressionSnaps()
    ensures AlignAround(0, 4) == 0 && AlignAround(1720, 4) == 1728 && AlignAround(8, 4) == 16
    ensures AlignUp(200, 4) == 208
  {
    assert IsMultiple(0, 4) && IsMultiple(1728, 4) && IsMultiple(16, 4) && IsMultiple(208, 4);
    AlignCharacterised(0, 0, 4);
    AlignCharacterised(1728, 1720, 4);
    AlignCharacterised(16, 8, 4);
    AlignCharacterised(208, 200, 4);
  }

  /** Snapping the fixed table to 16 columns: widths go up to 208, the main
      seams move to 0 and 1728, and the secondary seams follow by 0 and 8
      columns. */
  lemma RegressionSeams()
    ensures SnapSeams(RegressionTable(), 4)
            == Seams(Rect(0, 0, 208, 1080), Rect(1728, 0, 208, 1080),
                     Rect(1728, 0, 208, 1080), Rect(16, 0, 208, 1080))
  {
    RegressionSnaps();
  }

  /** A fixed case: a 3840x1080 output, 1920-wide inputs and an alignment of
      16 (k = 4) over RegressionTable. The two merge windows come out 400 and
      416 columns wide. */
  lemma LocalRegression()
    ensures var l := LocalLayout(RegressionTable(), 4, 1920, 1920, 3840, 1080);
            && l.mainMid == 960 && l.scndMid == 960 && l.outMid == 1920
            && l.seams == Seams(Rect(0, 0, 208, 1080), Rect(1728, 0, 208, 1080),
                                Rect(1728, 0, 208, 1080), Rect(16, 0, 208, 1080))
            && l.left.mergeWindow == Rect(768, 1080, 400, 0)
            && l.right.mergeWindow == Rect(2688, 1080, 416, 0)
            && l.left.validArea0 == Rect(960, 0, 976, 1080)
            && l.right.validArea1 == Rect(16, 0, 944, 1080)
  {
    RegressionSeams();
    assert AlignDown(960, 4) == 960 && AlignDown(1920, 4) == 1920;
  }

  /** Global mode over the fixed table on the 3904-wide scratch canvas of a
      3840-wide output: `scnd_mid` is solved as 736 and the windows sit at 992
      and 2720. The strip after the right window would need 976 columns to
      reach 2 * out_mid, and the secondary image supplies 512, so the content
      ends at column 3440 (RegressionResetWidth). */
  lemma GlobalRegression(t: OverlapTable, in0Width: nat, outWidth: nat)
    requires t == RegressionTable() && in0Width == 1920 && outWidth == 3904
    ensures var l := GlobalLayout(t, 4, in0Width, outWidth, 1080);
            && l.mainMid == 960 && l.outMid == 1952 && l.scndMid == 736
            && l.left.mergeWindow == Rect(992, 1080, 208, 0)
            && l.right.mergeWindow == Rect(2720, 1080, 208, 0)
            && 2 * l.outMid - End(l.right.mergeWindow) == 976
            && l.scndMid - End(l.seams.scndRight) == 512
            && SnappedContentWidth(l.seams) == 3440
  {
    var l := GlobalLayout(t, 4, in0Width, outWidth, 1080);
    RegressionSeams();
    RegressionMidMultiples();
    MultipleUnique(l.mainMid, 960, 4);
    MultipleUnique(l.outMid, 1952, 4);
    GlobalRegressionWindows(l);
  }

  lemma RegressionMidMultiples()
    ensures IsMultiple(960, 4) && IsMultiple(1952, 4)
  {
  }

  /** The arithmetic of GlobalRegression, on any layout that has its seams,
      its midpoints and the global mode's placement rules. */
  lemma GlobalRegressionWindows(l: Layout)
    requires l.seams == Seams(Rect(0, 0, 208, 1080), Rect(1728, 0, 208, 1080),
                              Rect(1728, 0, 208, 1080), Rect(16, 0, 208, 1080))
    requires l.mainMid == 960 && l.outMid == 1952
    requires l.scndMid >= End(l.seams.scndRight)
    requires l.scndMid >= GlobalScndMidUnclamped(l.seams, l.mainMid, l.outMid)
    requires l.scndMid == End(l.seams.scndRight) || l.scndMid == GlobalScndMidUnclamped(l.seams, l.mainMid, l.outMid)
    requires VerticalFields(l, 1080)
    requires l.left.mergeWindow.posX == l.outMid - (l.mainMid - l.seams.mainLeft.posX)
    requires l.left.mergeWindow.width == l.seams.mainLeft.width
    requires l.right.mergeWindow.posX == l.outMid + (l.seams.mainRight.posX - l.mainMid)
    requires l.right.mergeWindow.width == l.seams.mainRight.width
    ensures l.scndMid == 736
    ensures l.left.mergeWindow == Rect(992, 1080, 208, 0)
    ensures l.right.mergeWindow == Rect(2720, 1080, 208, 0)
    ensures 2 * l.outMid - End(l.right.mergeWindow) == 976
    ensures l.scndMid - End(l.seams.scndRight) == 512
    ensures SnappedContentWidth(l.seams) == 3440
  {
  }

  /** On the fixed table the reset width is the content end of global mode. */
  lemma RegressionResetWidth(t: OverlapTable)
    requires t == RegressionTable()
    ensures ResetWidth(t, 4) == 3440
    ensures SnappedContentWidth(SnapSeams(t, 4)) == 3440
  {
    RegressionSeams();
    ResetWidthPinned(t, 3440);
  }

  lemma ResetWidthPinned(t: OverlapTable, w: int)
    requires ResetContentWidth(t) == w && w >= 0 && IsMultiple(w, 4)
    ensures ResetWidth(t, 4) == w
  {
    AlignCharacterised(w, w, 4);
  }

  /** A table whose secondary left seam sits two columns off the alignment. */
  function DriftTable(): OverlapTable
  {
    var r := Rect(0, 0, 200, 1080);
    OverlapTable(r, r.(posX := 1728), r.(posX := 16), r.(posX := 1730))
  }

  /** Snapping moves the off-alignment seam from 1730 back to 1728, so the
      snapped content is 3440 wide, but `reset_buffer_info` rounds up the
      unsnapped sum 3442 and writes 3456, one alignment step past the
      content. */
  lemma ResetPastContent(t: OverlapTable)
    requires t == DriftTable()
    ensures SnappedContentWidth(SnapSeams(t, 4)) == 3440
    ensures ResetContentWidth(t) == 3442
    ensures ResetWidth(t, 4) == 3456
  {
    DriftSeams();
    ResetStepPinned();
  }

  lemma ResetStepPinned()
    ensures AlignUp(3442, 4) == 3456
  {
    assert IsMultiple(3456, 4);
    AlignCharacterised(3456, 3442, 4);
  }

  lemma DriftSeams()
    ensures SnapSeams(DriftTable(), 4)
            == Seams(Rect(0, 0, 208, 1080), Rect(1728, 0, 208, 1080),
                     Rect(1728, 0, 208, 1080), Rect(16, 0, 208, 1080))
  {
    var r := Rect(0, 0, 200, 1080);
    assert IsMultiple(0, 4) && IsMultiple(208, 4) && IsMultiple(1728, 4) && IsMultiple(16, 4);
    SnapSeamPinned(r, r.(posX := 1730), 4, Rect(0, 0, 208, 1080), Rect(1728, 0, 208, 1080));
    SnapSeamPinned(r.(posX := 1728), r.(posX := 16), 4, Rect(1728, 0, 208, 1080), Rect(16, 0, 208, 1080));
  }

  /** A seam's snapped pair is the one meeting SnapSeam's characterisation. */
  lemma SnapSeamPinned(main: Rect, companion: Rect, k: nat, m: Rect, c: Rect)
    requires m.posY == main.posY && m.height == main.height
    requires IsAroundAligned(m.posX, main.posX, k) && IsCeilAligned(m.width, main.width, k)
    requires c.posY == companion.posY && c.height == companion.height && c.width == m.width
    requires IsAroundAligned(c.posX, companion.posX + (m.posX - main.posX), k)
    ensures SnapSeam(main, companion, k) == (m, c)
  {
    AlignCharacterised(m.posX, main.posX, k);
    AlignCharacterised(m.width, main.width, k);
    AlignCharacterised(c.posX, companion.posX + (m.posX - main.posX), k);
  }
}
