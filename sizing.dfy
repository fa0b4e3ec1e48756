/** Buffer sizing of the stitcher: the output buffer-pool info, the scratch
    buffer of the global scale mode, and the logical width the scratch buffer is
    given back after the global pass. */
module Sizing {
  import opened Align
  import opened XCamTypes

  /** 16: the tiling granularity every buffer height and the scratch width
      use, 2^TileShift. */
  const TileAlignment: int := 16
  const TileShift: nat := 4

  /** XCAM_BLENDER_GLOBAL_SCALE_EXT_WIDTH: extra columns of the scratch buffer. */
  const GlobalScaleExtWidth: nat := 64

  lemma TileAlignmentIsPow2()
    ensures Pow2(TileShift) == TileAlignment
  {
  }

  /** A multiple of 2^TileShift leaves no remainder modulo 16. */
  lemma TileMultipleMod(v: int)
    requires IsMultiple(v, TileShift)
    ensures v % TileAlignment == 0
  {
    MultipleIsMod(v, TileShift);
    TileAlignmentIsPow2();
  }

  /** `XCAM_MAX (16, XCAM_BLENDER_ALIGNED_WIDTH)` for an alignment of 2^k, as
      an exponent: the larger of the two powers of two, so a multiple of it is
      a multiple of both. */
  function PoolWidthShift(k: nat): (s: nat)
    ensures s >= TileShift && s >= k && (s == TileShift || s == k)
    ensures Pow2(s) >= TileAlignment && Pow2(s) >= Pow2(k)
    ensures Pow2(s) == TileAlignment || Pow2(s) == Pow2(k)
  {
    TileAlignmentIsPow2();
    var s := if TileShift >= k then TileShift else k;
    Pow2Monotonic(k, s);
    Pow2Monotonic(TileShift, s);
    s
  }

  /** `prepare_buffer_pool_video_info`, given the stored output size and the
      seam alignment 2^k: refuses an unset (zero) size and otherwise fills in
      `output` with the input's format, the output size, and that size padded
      to the pool alignments. */
  function PrepareBufferPoolVideoInfo(rule: PlaneRule, outputWidth: nat, outputHeight: nat, k: nat,
                                      input: VideoBufferInfo, output: VideoBufferInfo)
    : (r: (XCamReturn, VideoBufferInfo))
    ensures r.0 == ErrorParam <==> outputWidth == 0 || outputHeight == 0
    ensures r.0 == ErrorParam || r.0 == NoError
    ensures r.0 == ErrorParam ==> r.1 == output
    ensures r.0 == NoError ==>
              && r.1.format == input.format
              && r.1.width == outputWidth && r.1.height == outputHeight
              && r.1.alignedWidth % TileAlignment == 0 && IsMultiple(r.1.alignedWidth, k)
              && outputWidth <= r.1.alignedWidth < outputWidth + Pow2(PoolWidthShift(k))
              && r.1.alignedHeight % TileAlignment == 0
              && outputHeight <= r.1.alignedHeight < outputHeight + TileAlignment
              && InitLaidOut(rule, r.1)
  {
    if outputWidth == 0 || outputHeight == 0 then
      (ErrorParam, output)
    else
      var m := PoolWidthShift(k);
      var aw := AlignUp(outputWidth, m);
      var ah := AlignUp(outputHeight, TileShift);
      MultipleWeaken(aw, m, k);
      MultipleWeaken(aw, m, TileShift);
      TileMultipleMod(aw);
      TileMultipleMod(ah);
      TileAlignmentIsPow2();
      (NoError, Init(rule, input.format, outputWidth, outputHeight, aw, ah))
  }

  /** The video info `create_scale_input_buffer` gives its pool: the output
      width plus the scale margin, rounded up to 16, and the output height. */
  function ScaleInputInfo(rule: PlaneRule, output: VideoBufferInfo): (r: VideoBufferInfo)
    ensures r.format == output.format
    ensures r.width % TileAlignment == 0
    ensures output.width + GlobalScaleExtWidth <= r.width < output.width + GlobalScaleExtWidth + TileAlignment
    ensures r.alignedWidth == r.width
    ensures r.height == output.height
    ensures r.alignedHeight % TileAlignment == 0
    ensures output.height <= r.alignedHeight < output.height + TileAlignment
    ensures InitLaidOut(rule, r)
  {
    var presetWidth := AlignUp(output.width + GlobalScaleExtWidth, TileShift);
    var alignedHeight := AlignUp(output.height, TileShift);
    AlignFixesAligned(presetWidth, TileShift);
    TileMultipleMod(presetWidth);
    TileMultipleMod(alignedHeight);
    TileAlignmentIsPow2();
    Init(rule, output.format, presetWidth, output.height,
         AlignUp(presetWidth, TileShift), alignedHeight)
  }

  /** The unaligned width of the stitched content in `reset_buffer_info`: the
      table cells as stored, with no swap of the secondary slots. */
  function ResetContentWidth(t: OverlapTable): int
  {
    t.main1.posX - t.main0.posX + t.scnd1.posX - t.scnd0.posX
  }

  /** The logical width `reset_buffer_info` writes: the content width rounded up
      to the seam alignment. The C++ keeps it in a `uint32_t`, so a negative
      content width is excluded. */
  function ResetWidth(t: OverlapTable, k: nat): (w: nat)
    requires ResetContentWidth(t) >= 0
    ensures IsCeilAligned(w, ResetContentWidth(t), k)
  {
    AlignUp(ResetContentWidth(t), k)
  }

  /** The info `reset_buffer_info` installs: a fresh info initialised with the
      buffer's format, height and aligned size and the new width. Since init
      derives the plane layout from values that are passed through, a buffer
      laid out by init keeps its strides and offsets. */
  function ResetInfo(rule: PlaneRule, info: VideoBufferInfo, t: OverlapTable, k: nat): (r: VideoBufferInfo)
    requires ResetContentWidth(t) >= 0
    ensures IsCeilAligned(r.width, ResetContentWidth(t), k)
    ensures r.format == info.format && r.height == info.height
    ensures r.alignedWidth == info.alignedWidth && r.alignedHeight == info.alignedHeight
    ensures InitLaidOut(rule, r)
    ensures InitLaidOut(rule, info) ==> r.strides == info.strides && r.offsets == info.offsets
  {
    Init(rule, info.format, ResetWidth(t, k), info.height, info.alignedWidth, info.alignedHeight)
  }

  /** Resetting depends on the overlap table only: doing it twice is doing it
      once, and any two infos get the same width. */
  lemma ResetInfoIdempotent(rule: PlaneRule, info: VideoBufferInfo, other: VideoBufferInfo, t: OverlapTable, k: nat)
    requires ResetContentWidth(t) >= 0
    ensures ResetInfo(rule, ResetInfo(rule, info, t, k), t, k) == ResetInfo(rule, info, t, k)
    ensures ResetInfo(rule, info, t, k).width == ResetInfo(rule, other, t, k).width
  {
  }

  /** A fixed case: for a 3840-wide output the scratch buffer is 3904 wide,
      so on a 16-column alignment the global mode's output midpoint is 1952,
      where the local mode's is 1920. */
  lemma ScratchRegression(rule: PlaneRule, output: VideoBufferInfo)
    requires output.width == 3840
    ensures ScaleInputInfo(rule, output).width == 3904
    ensures AlignDown(3904 / 2, 4) == 1952 && AlignDown(3840 / 2, 4) == 1920
  {
    ScratchWidthPinned();
    MidpointsPinned();
  }

  lemma ScratchWidthPinned()
    ensures AlignUp(3840 + GlobalScaleExtWidth, TileShift) == 3904
  {
    assert IsMultiple(3904, TileShift);
    AlignCharacterised(3904, 3904, TileShift);
  }

  lemma MidpointsPinned()
    ensures AlignDown(1952, 4) == 1952 && AlignDown(1920, 4) == 1920
  {
    assert IsMultiple(1952, 4) && IsMultiple(1920, 4);
    AlignCharacterised(1952, 1952, 4);
    AlignCharacterised(1920, 1920, 4);
  }
}
