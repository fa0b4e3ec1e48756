/** CLImage360Stitch: the stage that configures the left and right seam
    blenders from the calibration overlap table each frame, and in the global
    scale mode swaps in a scratch buffer as the frame's input.

    External collaborators are modelled only as far as the stitcher uses them:
    a buffer is its video info and its attached companion buffer, a blender is
    the last rectangle each setter received, and the buffer pool is an oracle
    that either reserves or refuses. */
module Stitch {
  import opened Align
  import opened XCamTypes
  import opened Sizing
  import opened SeamGeometry

  /** `CLBlenderScaleMode`, fixed when the stitcher is built. */
  datatype ScaleMode = ScaleLocal | ScaleGlobal

  /** How `prepare_parameters` ends: with a return code, or with the assertion
      that the scratch buffer exists failing. */
  datatype PrepareOutcome = Returned(ret: XCamReturn) | AssertionAborted

  /** A `DrmBoBuffer`: its video info, and the buffer `find_typed_attach`
      finds attached to it (null when there is none). */
  class Buffer {
    var info: VideoBufferInfo
    var attachment: Buffer?

    constructor (info: VideoBufferInfo, attachment: Buffer?)
      ensures this.info == info && this.attachment == attachment
    {
      this.info := info;
      this.attachment := attachment;
    }

    method SetVideoInfo(info: VideoBufferInfo)
      modifies this
      ensures this.info == info && attachment == old(attachment)
    {
      this.info := info;
    }

    method FindTypedAttach() returns (b: Buffer?)
      ensures b == attachment
    {
      b := attachment;
    }
  }

  /** A `DrmBoBufferPool`, as an oracle: whether `reserve` succeeds is fixed
      when the pool is made, and a reserved pool hands out fresh buffers of its
      video info. */
  class BufferPool {
    var videoInfo: VideoBufferInfo
    var reserved: nat
    const reserveSucceeds: bool

    constructor (reserveSucceeds: bool)
      ensures this.reserveSucceeds == reserveSucceeds && reserved == 0
    {
      this.reserveSucceeds := reserveSucceeds;
      videoInfo := DefaultInfo;
      reserved := 0;
    }

    method SetVideoInfo(info: VideoBufferInfo)
      modifies this
      ensures videoInfo == info && reserved == old(reserved)
    {
      videoInfo := info;
    }

    method Reserve(count: nat) returns (ok: bool)
      modifies this
      ensures ok == reserveSucceeds && videoInfo == old(videoInfo)
      ensures reserved == if ok then count else old(reserved)
    {
      ok := reserveSucceeds;
      if ok {
        reserved := count;
      }
    }

    method GetBuffer() returns (b: Buffer)
      requires reserved > 0
      ensures fresh(b) && b.info == videoInfo && b.attachment == null
    {
      b := new Buffer(videoInfo, null);
    }
  }

  /** A `CLBlender`, reduced to the rectangles its three setters store:
      a valid area and a merge area per input index (0 or 1) and one merge
      window. */
  class Blender {
    var validAreas: seq<Rect>
    var mergeAreas: seq<Rect>
    var mergeWindow: Rect

    ghost predicate Valid()
      reads this
    {
      |validAreas| == 2 && |mergeAreas| == 2
    }

    /** The configuration as the stitcher sees it. */
    function Config(): BlenderConfig
      reads this
      requires Valid()
    {
      BlenderConfig(validAreas[0], validAreas[1], mergeWindow, mergeAreas[0], mergeAreas[1])
    }

    constructor ()
      ensures Valid()
      ensures Config() == BlenderConfig(DefaultRect, DefaultRect, DefaultRect, DefaultRect, DefaultRect)
    {
      validAreas := [DefaultRect, DefaultRect];
      mergeAreas := [DefaultRect, DefaultRect];
      mergeWindow := DefaultRect;
    }

    method SetInputValidArea(area: Rect, index: nat)
      requires Valid() && index < 2
      modifies this
      ensures Valid()
      ensures validAreas == old(validAreas)[index := area]
      ensures mergeAreas == old(mergeAreas) && mergeWindow == old(mergeWindow)
    {
      validAreas := validAreas[index := area];
    }

    method SetMergeWindow(window: Rect)
      requires Valid()
      modifies this
      ensures Valid()
      ensures mergeWindow == window
      ensures validAreas == old(validAreas) && mergeAreas == old(mergeAreas)
    {
      mergeWindow := window;
    }

    method SetInputMergeArea(area: Rect, index: nat)
      requires Valid() && index < 2
      modifies this
      ensures Valid()
      ensures mergeAreas == old(mergeAreas)[index := area]
      ensures validAreas == old(validAreas) && mergeWindow == old(mergeWindow)
    {
      mergeAreas := mergeAreas[index := area];
    }
  }

  class Image360Stitch {
    const scaleMode: ScaleMode
    /** XCAM_BLENDER_ALIGNED_WIDTH is 2^alignShift. Its value is set in a
        header that is not part of this model, so any power of two is allowed. */
    const alignShift: nat
    var outputWidth: nat
    var outputHeight: nat
    /** `_overlaps[ImageIdxCount][2]` */
    const overlaps: array2<Rect>
    const leftBlender: Blender
    const rightBlender: Blender

    ghost predicate Valid()
      reads this, leftBlender, rightBlender
    {
      && overlaps.Length0 == ImageIdxCount && overlaps.Length1 == 2
      && leftBlender != rightBlender
      && leftBlender.Valid() && rightBlender.Valid()
    }

    /** The overlap table as a value. */
    function Table(): OverlapTable
      reads overlaps
      requires overlaps.Length0 == ImageIdxCount && overlaps.Length1 == 2
    {
      OverlapTable(overlaps[ImageIdxMain, 0], overlaps[ImageIdxMain, 1],
                   overlaps[ImageIdxSecondary, 0], overlaps[ImageIdxSecondary, 1])
    }

    /** The constructor, with the two blenders installed (`set_left_blender`,
        `set_right_blender`). The output size starts unset. */
    constructor (scaleMode: ScaleMode, alignShift: nat, left: Blender, right: Blender)
      requires left != right && left.Valid() && right.Valid()
      ensures Valid() && fresh(overlaps)
      ensures this.scaleMode == scaleMode && this.alignShift == alignShift
      ensures leftBlender == left && rightBlender == right
      ensures outputWidth == 0 && outputHeight == 0
      ensures Table() == OverlapTable(DefaultRect, DefaultRect, DefaultRect, DefaultRect)
    {
      this.scaleMode := scaleMode;
      this.alignShift := alignShift;
      leftBlender, rightBlender := left, right;
      outputWidth, outputHeight := 0, 0;
      overlaps := new Rect[ImageIdxCount, 2]((i, j) => DefaultRect);
    }

    /** `set_output_size`, declared in the class header (not part of this
        model): stores the panorama size. */
    method SetOutputSize(width: nat, height: nat)
      modifies this
      ensures outputWidth == width && outputHeight == height
    {
      outputWidth, outputHeight := width, height;
    }

    /** `prepare_buffer_pool_video_info` as the stage calls it: the size is
        the one stored by SetOutputSize, so a stage whose size was never set
        (the constructor leaves it at 0) is refused. `info` is what `output`
        holds afterwards. */
    method PrepareBufferPoolVideoInfo(rule: PlaneRule, input: VideoBufferInfo, output: VideoBufferInfo)
      returns (ret: XCamReturn, info: VideoBufferInfo)
      ensures ret == ErrorParam <==> outputWidth == 0 || outputHeight == 0
      ensures ret == ErrorParam ==> info == output
      ensures ret == NoError ==> info.width == outputWidth && info.height == outputHeight
      ensures (ret, info) == Sizing.PrepareBufferPoolVideoInfo(rule, outputWidth, outputHeight, alignShift, input, output)
    {
      var outWidth, outHeight := outputWidth, outputHeight;
      ret, info := ErrorParam, output;
      if outWidth == 0 || outHeight == 0 {
        return;
      }
      var alignedWidth := AlignUp(outWidth, PoolWidthShift(alignShift));
      info := Init(rule, input.format, outWidth, outHeight, alignedWidth, AlignUp(outHeight, TileShift));
      ret := NoError;
    }

    /** `set_image_overlap`: writes row `idx` of the table and nothing else. */
    method SetImageOverlap(idx: int, overlap0: Rect, overlap1: Rect) returns (ok: bool)
      requires Valid() && 0 <= idx < ImageIdxCount
      modifies overlaps
      ensures ok
      ensures overlaps[idx, 0] == overlap0 && overlaps[idx, 1] == overlap1
      ensures forall i, j :: 0 <= i < ImageIdxCount && i != idx && 0 <= j < 2 ==>
                overlaps[i, j] == old(overlaps[i, j])
    {
      overlaps[idx, 0] := overlap0;
      overlaps[idx, 1] := overlap1;
      ok := true;
    }

    /** The `(prev_pos ...)` block repeated for each seam in both modes. */
    method AlignStitchingArea(main: Rect, companion: Rect) returns (m: Rect, c: Rect)
      ensures (m, c) == SnapSeam(main, companion, alignShift)
    {
      m, c := main, companion;
      var prevPos := m.posX;
      m := m.(posX := AlignAround(m.posX, alignShift));
      m := m.(width := AlignUp(m.width, alignShift));
      c := c.(posX := c.posX + (m.posX - prevPos));
      c := c.(posX := AlignAround(c.posX, alignShift));
      c := c.(width := m.width);
    }

    /** `prepare_local_scale_blender_parameters` */
    method PrepareLocalScaleBlenderParameters(input0: Buffer, input1: Buffer, output: Buffer)
      returns (ret: XCamReturn)
      requires Valid()
      requires input0.info.height == input1.info.height
      requires input0.info.width <= output.info.width && input1.info.width <= output.info.width
      modifies leftBlender, rightBlender
      ensures Valid() && ret == NoError
      ensures var l := LocalLayout(Table(), alignShift, input0.info.width, input1.info.width,
                                   output.info.width, output.info.height);
              leftBlender.Config() == l.left && rightBlender.Config() == l.right
    {
      ret := NoError;
      var in0Info, in1Info, outInfo := input0.info, input1.info, output.info;

      var mainLeft := overlaps[ImageIdxMain, 0];
      var mainRight := overlaps[ImageIdxMain, 1];
      var scndLeft := overlaps[ImageIdxSecondary, 1];
      var scndRight := overlaps[ImageIdxSecondary, 0];

      var mainMid := AlignDown(in0Info.width / 2, alignShift);
      var scndMid := AlignDown(in1Info.width / 2, alignShift);
      var outMid := AlignDown(outInfo.width / 2, alignShift);
      var area, outMergeWindow := DefaultRect, DefaultRect;
      outMergeWindow := outMergeWindow.(posY := 0);
      area := area.(posY := outMergeWindow.posY);
      outMergeWindow := outMergeWindow.(posY := outInfo.height);
      area := area.(height := outMergeWindow.posY);

      mainLeft, scndLeft := AlignStitchingArea(mainLeft, scndLeft);
      mainRight, scndRight := AlignStitchingArea(mainRight, scndRight);
      ghost var l := LocalLayout(Table(), alignShift, in0Info.width, in1Info.width, outInfo.width, outInfo.height);
      assert l.seams == Seams(mainLeft, scndLeft, mainRight, scndRight);
      assert l.mainMid == mainMid && l.scndMid == scndMid && l.outMid == outMid;

      // left blender
      area := area.(posX := scndMid);
      area := area.(width := scndLeft.posX + scndLeft.width - scndMid);
      assert area == l.left.validArea0;
      leftBlender.SetInputValidArea(area, 0);

      area := area.(posX := mainLeft.posX);
      area := area.(width := mainMid - mainLeft.posX);
      assert area == l.left.validArea1;
      leftBlender.SetInputValidArea(area, 1);

      var deltaWidth := outMid - (mainMid - mainLeft.posX) - (scndLeft.posX - scndMid);
      outMergeWindow := outMergeWindow.(width := mainLeft.width + deltaWidth);
      outMergeWindow := outMergeWindow.(posX := scndLeft.posX - scndMid);
      assert outMergeWindow == l.left.mergeWindow;
      leftBlender.SetMergeWindow(outMergeWindow);
      leftBlender.SetInputMergeArea(scndLeft, 0);
      leftBlender.SetInputMergeArea(mainLeft, 1);
      assert leftBlender.Config() == l.left;

      // right blender
      area := area.(posX := mainMid);
      area := area.(width := mainRight.posX + mainRight.width - mainMid);
      assert area == l.right.validArea0;
      rightBlender.SetInputValidArea(area, 0);

      area := area.(posX := scndRight.posX);
      area := area.(width := scndMid - scndRight.posX);
      assert area == l.right.validArea1;
      rightBlender.SetInputValidArea(area, 1);

      deltaWidth := outMid - (scndMid - scndRight.posX) - (mainRight.posX - mainMid);
      outMergeWindow := outMergeWindow.(width := mainRight.width + deltaWidth);
      outMergeWindow := outMergeWindow.(posX := outMid + (mainRight.posX - mainMid));
      assert outMergeWindow == l.right.mergeWindow;
      rightBlender.SetMergeWindow(outMergeWindow);
      rightBlender.SetInputMergeArea(mainRight, 0);
      rightBlender.SetInputMergeArea(scndRight, 1);
    }

    /** `prepare_global_scale_blender_parameters`; `output` is the scratch buffer. */
    method PrepareGlobalScaleBlenderParameters(input0: Buffer, input1: Buffer, output: Buffer)
      returns (ret: XCamReturn)
      requires Valid()
      requires input0.info.height == input1.info.height
      requires input0.info.width <= output.info.width && input1.info.width <= output.info.width
      modifies leftBlender, rightBlender
      ensures Valid() && ret == NoError
      ensures var l := GlobalLayout(Table(), alignShift, input0.info.width,
                                    output.info.width, output.info.height);
              leftBlender.Config() == l.left && rightBlender.Config() == l.right
    {
      ret := NoError;
      var in0Info, outInfo := input0.info, output.info;

      var mainLeft := overlaps[ImageIdxMain, 0];
      var mainRight := overlaps[ImageIdxMain, 1];
      var scndLeft := overlaps[ImageIdxSecondary, 1];
      var scndRight := overlaps[ImageIdxSecondary, 0];

      var mainMid := AlignDown(in0Info.width / 2, alignShift);
      var scndMid := 0;
      var outMid := AlignDown(outInfo.width / 2, alignShift);
      var area, outMergeWindow := DefaultRect, DefaultRect;
      outMergeWindow := outMergeWindow.(posY := 0);
      area := area.(posY := outMergeWindow.posY);
      outMergeWindow := outMergeWindow.(posY := outInfo.height);
      area := area.(height := outMergeWindow.posY);

      mainLeft, scndLeft := AlignStitchingArea(mainLeft, scndLeft);
      mainRight, scndRight := AlignStitchingArea(mainRight, scndRight);

      ghost var l := GlobalLayout(Table(), alignShift, in0Info.width, outInfo.width, outInfo.height);
      assert l.seams == Seams(mainLeft, scndLeft, mainRight, scndRight);
      assert l.mainMid == mainMid && l.outMid == outMid;

      // find scnd_mid
      scndMid := scndLeft.posX + (mainMid - mainLeft.posX) - outMid;
      if scndMid < scndRight.posX + scndRight.width {
        scndMid := scndRight.posX + scndRight.width;
      }
      assert l.scndMid == scndMid;

      // left blender
      area := area.(posX := scndMid);
      area := area.(width := scndLeft.posX + scndLeft.width - scndMid);
      assert area == l.left.validArea0;
      leftBlender.SetInputValidArea(area, 0);

      area := area.(posX := mainLeft.posX);
      area := area.(width := mainMid - mainLeft.posX);
      assert area == l.left.validArea1;
      leftBlender.SetInputValidArea(area, 1);

      outMergeWindow := outMergeWindow.(width := mainLeft.width);
      outMergeWindow := outMergeWindow.(posX := outMid - (mainMid - mainLeft.posX));
      assert outMergeWindow == l.left.mergeWindow;
      leftBlender.SetMergeWindow(outMergeWindow);
      leftBlender.SetInputMergeArea(scndLeft, 0);
      leftBlender.SetInputMergeArea(mainLeft, 1);
      assert leftBlender.Config() == l.left;

      // right blender
      area := area.(posX := mainMid);
      area := area.(width := mainRight.posX + mainRight.width - mainMid);
      assert area == l.right.validArea0;
      rightBlender.SetInputValidArea(area, 0);

      area := area.(posX := scndRight.posX);
      area := area.(width := scndMid - scndRight.posX);
      assert area == l.right.validArea1;
      rightBlender.SetInputValidArea(area, 1);

      outMergeWindow := outMergeWindow.(posX := outMid + (mainRight.posX - mainMid));
      outMergeWindow := outMergeWindow.(width := mainRight.width);
      assert outMergeWindow == l.right.mergeWindow;
      rightBlender.SetMergeWindow(outMergeWindow);
      rightBlender.SetInputMergeArea(mainRight, 0);
      rightBlender.SetInputMergeArea(scndRight, 1);
    }

    /** `create_scale_input_buffer`: asks a new pool for one buffer of the
        scratch size; null when the pool cannot reserve it. */
    method CreateScaleInputBuffer(rule: PlaneRule, output: Buffer, poolReserveSucceeds: bool) returns (b: Buffer?)
      ensures b != null <==> poolReserveSucceeds
      ensures b != null ==> fresh(b) && b.info == ScaleInputInfo(rule, output.info) && b.attachment == null
    {
      var outputInfo := output.info;
      var presetWidth := AlignUp(outputInfo.width + GlobalScaleExtWidth, TileShift);
      var bufInfo := Init(rule, outputInfo.format, presetWidth, outputInfo.height,
                          AlignUp(presetWidth, TileShift), AlignUp(outputInfo.height, TileShift));
      var pool := new BufferPool(poolReserveSucceeds);
      pool.SetVideoInfo(bufInfo);
      var ok := pool.Reserve(1);
      if !ok {
        return null;
      }
      b := pool.GetBuffer();
    }

    /** `reset_buffer_info`: rewrites the logical width of `input` from the
        overlap table and changes nothing else of it. */
    method ResetBufferInfo(rule: PlaneRule, input: Buffer) returns (ret: XCamReturn)
      requires Valid() && ResetContentWidth(Table()) >= 0
      modifies input
      ensures ret == NoError
      ensures input.info == ResetInfo(rule, old(input.info), Table(), alignShift)
      ensures input.attachment == old(input.attachment)
    {
      var bufInfo := input.info;
      var img0Left := overlaps[ImageIdxMain, 0];
      var img0Right := overlaps[ImageIdxMain, 1];
      var img1Left := overlaps[ImageIdxSecondary, 0];
      var img1Right := overlaps[ImageIdxSecondary, 1];

      var resetWidth := img0Right.posX - img0Left.posX + img1Right.posX - img1Left.posX;
      resetWidth := AlignUp(resetWidth, alignShift);
      var resetInfo := Init(rule, bufInfo.format, resetWidth, bufInfo.height,
                            bufInfo.alignedWidth, bufInfo.alignedHeight);
      input.SetVideoInfo(resetInfo);
      ret := NoError;
    }

    /** `prepare_parameters`. `poolReserveSucceeds` is the outcome of the
        scratch pool's reservation and `handlerStatus` the return code of the
        generic multi-image preparation (`CLMultiImageHandler::prepare_parameters`);
        both are decided outside this stage, as is `rule`, the plane layout
        `VideoBufferInfo::init` computes. The result is the buffer the
        caller's `input` handle refers to afterwards. */
    method PrepareParameters(rule: PlaneRule, input: Buffer, output: Buffer, poolReserveSucceeds: bool,
                             handlerStatus: XCamReturn)
      returns (newInput: Buffer, outcome: PrepareOutcome)
      requires Valid()
      requires input.attachment != null ==> input.info.height == input.attachment.info.height
      requires input.attachment != null && scaleMode == ScaleLocal ==>
                 input.info.width <= output.info.width && input.attachment.info.width <= output.info.width
      requires input.attachment != null && scaleMode == ScaleGlobal ==>
                 && input.info.width <= ScaleInputInfo(rule, output.info).width
                 && input.attachment.info.width <= ScaleInputInfo(rule, output.info).width
                 && ResetContentWidth(Table()) >= 0
      modifies leftBlender, rightBlender
      ensures Valid()
      ensures input.info == old(input.info) && output.info == old(output.info)
      // no companion buffer: refused before any blender is touched
      ensures input.attachment == null ==>
                && outcome == Returned(ErrorParam) && newInput == input
                && unchanged(leftBlender, rightBlender)
      // local mode: blenders configured against the output; input kept
      ensures input.attachment != null && scaleMode == ScaleLocal ==>
                && outcome == Returned(handlerStatus) && newInput == input
                && var l := LocalLayout(Table(), alignShift, input.info.width, input.attachment.info.width,
                                        output.info.width, output.info.height);
                   leftBlender.Config() == l.left && rightBlender.Config() == l.right
      // global mode, no scratch buffer: the assertion fails, nothing configured
      ensures input.attachment != null && scaleMode == ScaleGlobal && !poolReserveSucceeds ==>
                && outcome == AssertionAborted && newInput == input
                && unchanged(leftBlender, rightBlender)
      // global mode: blenders configured against the scratch buffer
      ensures input.attachment != null && scaleMode == ScaleGlobal && poolReserveSucceeds ==>
                var scratch := ScaleInputInfo(rule, output.info);
                var l := GlobalLayout(Table(), alignShift, input.info.width, scratch.width, scratch.height);
                && leftBlender.Config() == l.left && rightBlender.Config() == l.right
                && (handlerStatus != NoError ==> outcome == Returned(ErrorParam) && newInput == input)
                && (handlerStatus == NoError ==>
                      && outcome == Returned(NoError)
                      && fresh(newInput) && newInput.attachment == null
                      && newInput.info == ResetInfo(rule, scratch, Table(), alignShift)
                      && newInput.info.strides == scratch.strides
                      && newInput.info.offsets == scratch.offsets)
    {
      var ret := NoError;
      newInput := input;

      var input0 := input;
      var input1 := input0.FindTypedAttach();
      if input1 == null {
        return input, Returned(ErrorParam);
      }

      var scaleInput: Buffer? := null;
      if scaleMode == ScaleLocal {
        ret := PrepareLocalScaleBlenderParameters(input0, input1, output);
      } else {
        scaleInput := CreateScaleInputBuffer(rule, output, poolReserveSucceeds);
        if scaleInput == null {
          // XCAM_ASSERT (scale_input.ptr ())
          return input, AssertionAborted;
        }
        ret := PrepareGlobalScaleBlenderParameters(input0, input1, scaleInput);
      }
      // both preparations always return NoError, so the check after them
      // (which would answer ErrorParam) never fires

      if scaleMode == ScaleLocal {
        ret := handlerStatus;
      } else {
        ret := handlerStatus;
        if ret != NoError {
          return input, Returned(ErrorParam);
        }
        newInput := scaleInput;
        var _ := ResetBufferInfo(rule, newInput);
      }
      outcome := Returned(ret);
    }
  }
}
