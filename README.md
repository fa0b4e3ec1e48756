# CLImage360Stitch seam geometry and buffer bookkeeping, in Dafny

This project models the core of libxcam's `CLImage360Stitch`. That is the OpenCL
stage that stitches a main and a secondary camera image into one 360° panorama.
Two seam blenders do the stitching. The left blender joins the secondary
image's right edge to the main image's left edge; the right blender joins the
main image's right edge to the secondary image's left edge. Each frame, the
stage does the following:

- It reads the calibration overlap table `_overlaps[2][2]`.
- It snaps each seam to the blender alignment `XCAM_BLENDER_ALIGNED_WIDTH`.
- It derives the midpoints of both inputs and of the output.
- It gives each blender two valid areas, one merge window and two merge areas.

In the global scale mode, the stage also asks a buffer pool for a scratch
canvas of output width + 64 columns. It configures the blenders against that
canvas and hands the canvas on as the frame's new input. Finally it rewrites
the canvas's logical width: the sum of the two images' strips between their
seams, taken from the unsnapped table and rounded up to the seam alignment.

Modules:

- `Align` (align.dfy): the alignment macros `XCAM_ALIGN_UP`, `XCAM_ALIGN_DOWN`
  and `XCAM_ALIGN_AROUND` over an alignment 2^k.
  - The mask `v & ~(2^k - 1)` is modelled as clearing the low k bits one
    arithmetic shift at a time (`ClearLowBits`).
  - "a multiple of 2^k" is the recursive predicate `IsMultiple`.
  - Each macro is characterised as the unique aligned value in an interval.
- `XCamTypes` (xcam_types.dfy): `Rect`, `VideoBufferInfo`, `XCamReturn`, and
  the overlap table as a value.
- `Sizing` (sizing.dfy): `prepare_buffer_pool_video_info`, the scratch-buffer
  size of `create_scale_input_buffer`, and the width `reset_buffer_info`
  writes.
- `SeamGeometry` (seam_geometry.dfy): the layouts of
  `prepare_local_scale_blender_parameters` and
  `prepare_global_scale_blender_parameters` as functions, with their
  properties.
- `PlaneAdapter` (plane_adapter.dfy): the per-plane image descriptors of
  `CLBlenderGlobalScaleKernel`.
- `Stitch` (stitch.dfy): the stitcher as a class.
  - Its blender setters, the overlap table writes, the step-by-step
    rectangle updates, the buffer-pool calls and the input swap are
    imperative methods.
  - Each method is proved against the functions above.

Assumptions about definitions that live in headers and are not part of this
model:

- The alignment macros are taken to be these forms over a power-of-two
  alignment `a` = 2^k, on signed integers:
  - Up: the mask form `(v + a - 1) & ~(a - 1)`.
  - Down: the mask form `v & ~(a - 1)`.
  - Around: the division form `(v + a / 2) / a * a`.

  `Align.ClearLowBitsIsFloorDivision` shows that the mask equals the floor
  division `v / a * a`. C's `/` truncates towards zero, so Around rounds to the
  nearest multiple only while `v + a / 2 >= 0` and rounds up below that
  (`Align.AlignAroundIsDivision`, `Align.AroundTruncatesNegative`).
- `XCAM_BLENDER_ALIGNED_WIDTH` is any power of two, 2^`alignShift`.
  `alignShift` is a constant of the stitcher.
- `Rect`'s default constructor zeroes all fields.
- `VideoBufferInfo::init` sets the fields it is passed. It computes the
  per-plane strides and offsets from the format, the aligned width and the
  aligned height alone. That computation is a parameter of the model, the
  `XCamTypes.PlaneRule` passed to every member that calls init.

Where the code and the system's design description disagree, the model follows
the code:

- **Local merge windows.** For a 3840x1080 output, 1920-wide inputs, an
  alignment of 16, and 200-wide overlaps at columns 0 and 1720, the design
  says both merge windows are 208 wide. The code gives windows 400 and 416
  wide, at columns 768 and 2688 (`SeamGeometry.LocalRegression`). Here the
  design's account of windows plus a centre strip leaves out the two
  secondary strips. The code's `delta_width`, which can be negative, adjusts
  each window so that five pieces lie end to end over the output columns
  [0, 2 * out_mid) (`SeamGeometry.LocalTiles`):
  - the secondary image's strip from its midpoint to `scnd_left`;
  - the left window;
  - the main image's strip between its seams, shifted;
  - the right window;
  - the secondary image's strip from the end of `scnd_right` to its midpoint.

  The pieces tile the output only when none of them has a negative width:
  the three image strips are in order and neither window is negative. In the
  fixed case they do, and the pieces are 768, 400, 1520, 416 and 736 columns
  wide.
- **Positive merge windows.** The design requires every rectangle that bounds
  a blend to have a positive width. The code does not keep this in local
  mode. Take an alignment of 16, inputs and output all 128 wide, and 16-wide
  overlaps: main at columns 0 and 96, secondary slot 0 at 16 and slot 1 at 96.
  Every seam lies on its own side of its image's midpoint 64, and the asserts
  on the sizes hold. The left merge window is then at column 32 with width
  -16, and the right one at column 96 with width 0. The secondary strip
  [0, 32) overlaps the shifted main strip, which starts at column 16
  (`SeamGeometry.LocalNegativeWindow`).
- **Global merge windows.** The design says the windows and the strips
  between them tile the output in both modes. In global mode the code keeps
  the main strip between the two windows, shifted by `out_mid - main_mid`,
  but solves `scnd_mid` so that output column 0 starts the secondary strip
  from `scnd_mid` to `scnd_left`. The content then ends at the snapped content
  width (main right - main left + secondary left - secondary right), which in
  general is not `2 * out_mid`; when `scnd_mid` is clamped, the strip after the
  right window is empty (`SeamGeometry.GlobalTiles`). Over the fixed table on
  the 3904-wide scratch canvas of a 3840-wide output, `scnd_mid` is 736, the
  windows sit at 992 and 2720, and the 976 columns after the right window face
  a 512-column secondary strip (`SeamGeometry.GlobalRegression`).
- **Reset width.** The design says the reset width is the stitched content
  width. The code rounds up the sum of the unsnapped table cells, which can
  land one alignment step past the snapped content: main seams at 0 and 1728
  and secondary seams at 16 and 1730 give content 3440 wide and a reset width
  of 3456 (`SeamGeometry.ResetPastContent`). On the fixed table the two agree
  at 3440 (`SeamGeometry.RegressionResetWidth`).
- **Scratch-buffer allocation failure.** The design says this fails with an
  allocation error. The code only asserts at :370 that the buffer exists. A
  debug build stops at that assertion. With assertions compiled out, the
  global preparation dereferences the null buffer at :162 before any blender
  setter runs. Either way no blender is touched, and the model ends such a
  frame as `AssertionAborted` with the blenders unchanged.
- **Partial configuration.** The design says no partial configuration stays
  visible. In the code, the blenders are already configured when the generic
  multi-image preparation fails afterwards. The model keeps that.
- **Zero output size.** The code checks for a zero output size only in
  `prepare_buffer_pool_video_info`, not in `prepare_parameters`.
- **Overlap index.** The code checks the overlap index only by an assertion.
  The model turns it into a precondition.
- **Reset bound.** `reset_buffer_info` does not check that the new logical
  width stays within the aligned width.
- **Merge window vertical fields.** The source assigns the merge window's
  `pos_y` twice and never assigns its `height`. The model keeps this: the
  window has `pos_y` equal to the output height and `height` 0.

## Model

| member | source | states |
|---|---|---|
| `Align.AlignDown` | modules/ocl/cl_image_360_stitch.cpp:171 | the result is the largest multiple of the alignment not above the value |
| `Align.AlignUp` | modules/ocl/cl_image_360_stitch.cpp:181 | the result is the smallest multiple of the alignment not below the value |
| `Align.AlignAround` | modules/ocl/cl_image_360_stitch.cpp:180 | the result is `v + a/2` rounded to a multiple of the alignment towards zero: down when `v + a/2 >= 0`, where it is the multiple nearest `v` with a tie rounding up, and up below that |
| `Align.AlignAroundIsDivision` | modules/ocl/cl_image_360_stitch.cpp:180 | Around equals the C expression `(v + a/2) / a * a` with division truncating towards zero, for every integer `v` |
| `Align.AroundTruncatesNegative` | modules/ocl/cl_image_360_stitch.cpp:180 | on a 16-column alignment Around sends -20 to 0, while the nearest multiple is -16 |
| `Align.AlignCharacterised` | modules/ocl/cl_image_360_stitch.cpp:180-181 | each of the three characterisations holds of exactly one value, the macro's result (both directions) |
| `Align.AlignFixesAligned` | modules/ocl/cl_image_360_stitch.cpp:316 | an already aligned value is left unchanged by Down and Up, and by Around when it is not negative, so the scratch buffer's aligned width equals its width; a negative aligned value is moved up one alignment step by Around |
| `Align.ClearLowBitsFloor` | modules/ocl/cl_image_360_stitch.cpp:171 | clearing the low k bits gives a multiple of 2^k that is at most the value and less than 2^k below it |
| `Align.ClearLowBitsIsFloorDivision` | modules/ocl/cl_image_360_stitch.cpp:171 | the mask form equals the floor-division form `v / 2^k * 2^k` |
| `Align.MultipleIffFixed` | modules/ocl/cl_image_360_stitch.cpp:316 | a value is a multiple of 2^k exactly when the mask leaves it unchanged |
| `Align.MultipleIsMod` | modules/ocl/cl_image_360_stitch.cpp:151 | being a multiple of 2^k is leaving remainder 0 modulo 2^k, in both directions |
| `Align.MultipleSum` | modules/ocl/cl_image_360_stitch.cpp:195-227 | sums and differences of multiples of 2^k are multiples of 2^k |
| `Align.MultipleWeaken` | modules/ocl/cl_image_360_stitch.cpp:147-151 | a multiple of 2^k is a multiple of every 2^j with j <= k |
| `Align.MultipleUnique` | modules/ocl/cl_image_360_stitch.cpp:180-181 | two multiples of 2^k less than 2^k apart are equal |
| `Align.Pow2Monotonic` | modules/ocl/cl_image_360_stitch.cpp:148 | a larger exponent gives a power of two at least as large |
| `Sizing.PoolWidthShift` | modules/ocl/cl_image_360_stitch.cpp:147-148 | `max(16, ALIGNED_WIDTH)` is the larger of the two powers of two: at least both, equal to one of them |
| `Sizing.PrepareBufferPoolVideoInfo` | modules/ocl/cl_image_360_stitch.cpp:132-153 | ERROR_PARAM exactly when width or height is 0, leaving the output info as it was; otherwise NO_ERROR, the input's format, logical size equal to the set size, and an aligned width that is a multiple of 16 and of the seam alignment, not below the width and less than `max(16, ALIGNED_WIDTH)` above it; the aligned height is the height rounded up to 16; strides and offsets are init's layout for the format and aligned size |
| `Sizing.ScaleInputInfo` | modules/ocl/cl_image_360_stitch.cpp:310-317 | the scratch width is a multiple of 16, at least output width + 64 and less than 16 above it; aligned width equals the width; height is the output height, aligned height rounded up to 16; format kept; strides and offsets are init's layout for the format and aligned size |
| `Sizing.ResetWidth` | modules/ocl/cl_image_360_stitch.cpp:337-343 | the new logical width is a multiple of the seam alignment and the smallest one not below main right - main left + secondary slot 1 - secondary slot 0 (unswapped cells) |
| `Sizing.ResetInfo` | modules/ocl/cl_image_360_stitch.cpp:334-347 | the fresh info is initialised with the new width and the buffer's format, height, aligned width and aligned height; its strides and offsets are init's layout for those, so a buffer that init laid out keeps its strides and offsets |
| `Sizing.ResetInfoIdempotent` | modules/ocl/cl_image_360_stitch.cpp:332-348 | resetting twice equals resetting once, and the width written does not depend on the buffer's previous info |
| `Sizing.ScratchRegression` | modules/ocl/cl_image_360_stitch.cpp:313 | a 3840-wide output gets a 3904-wide scratch buffer, whose aligned half is 1952, where the output's is 1920 |
| `SeamGeometry.SnapSeam` | modules/ocl/cl_image_360_stitch.cpp:179-192 | the main overlap's column is snapped by Around (to the nearest aligned column unless it lies more than half a step left of column 0) and its width rounds up (never shrinks, grows by less than one alignment); the companion is shifted by exactly the main overlap's move, snapped the same way, and gets the main overlap's aligned width; vertical fields kept |
| `SeamGeometry.LocalLayout` | modules/ocl/cl_image_360_stitch.cpp:244-302 | seams from cells (main 0, secondary 1) and (main 1, secondary 0); the three midpoints are the aligned halves of the widths; valid areas at row 0 with the output height, merge windows with `pos_y` the output height and `height` 0; merge areas are the snapped overlaps; the two valid areas of each image meet at its midpoint; the left window spans `scnd_left.pos_x - scnd_mid` to `out_mid - (main_mid - main_left.pos_x) + main_left.width`; the right window spans `out_mid + (main_right.pos_x - main_mid)` to `2*out_mid - (scnd_mid - scnd_right.pos_x) + scnd_right.width` |
| `SeamGeometry.GlobalLayout` | modules/ocl/cl_image_360_stitch.cpp:167-227 | same seams, midpoints, vertical fields, merge areas and meeting valid areas; `scnd_mid` is the larger of the solved column and the end of `scnd_right`, so the right blender's input-1 valid width is at least `scnd_right.width`; the windows sit at `out_mid - (main_mid - main_left.pos_x)` and `out_mid + (main_right.pos_x - main_mid)` with the aligned main widths |
| `SeamGeometry.LocalLayoutAligned` | modules/ocl/cl_image_360_stitch.cpp:249-302 | in local mode every midpoint and every emitted `pos_x` and `width` is a multiple of the seam alignment |
| `SeamGeometry.GlobalLayoutAligned` | modules/ocl/cl_image_360_stitch.cpp:171-227 | in global mode every midpoint, including the clamped `scnd_mid`, and every emitted `pos_x` and `width` is a multiple of the seam alignment |
| `SeamGeometry.LocalTiles` | modules/ocl/cl_image_360_stitch.cpp:265-299 | in local mode the secondary strip up to the left window, the left window, the shifted main strip, the right window and the secondary strip after it lie end to end from column 0 to 2*out_mid, each outer strip exactly as wide as the image strip it shows; they tile [0, 2*out_mid) (their boundaries are in order) exactly when the three image strips are in order and neither window width is negative |
| `SeamGeometry.LocalNegativeWindow` | modules/ocl/cl_image_360_stitch.cpp:265-299 | on a 128-wide output and inputs with 16-wide seams at main 0/96 and secondary 16/96, local mode gives midpoints 64, a left window at column 32 that is -16 wide and a right window at 96 that is 0 wide, and the secondary strip ends at column 32 while the shifted main strip starts at 16 |
| `SeamGeometry.GlobalTiles` | modules/ocl/cl_image_360_stitch.cpp:195-227 | in global mode the main strip between the seams lies between the two windows, shifted by `out_mid - main_mid`; with `scnd_mid` unclamped the left window starts exactly as far right of column 0 as the secondary strip `[scnd_mid, scnd_left.pos_x)` is wide, and the right window plus the secondary strip after it end at the snapped content width; with it clamped, `scnd_mid` is the end of `scnd_right` and the left window starts further right of column 0 than `[scnd_mid, scnd_left.pos_x)` is wide |
| `SeamGeometry.ModesShareCentre` | modules/ocl/cl_image_360_stitch.cpp:195-299 | given the same output width, both modes agree on the seams, the main and output midpoints, the end of the left window and the start of the right one, which bound the main image's centre strip shifted by `out_mid - main_mid`; the windows are disjoint exactly when the snapped main overlaps are. `prepare_parameters` (:371) passes the scratch width in global mode, so there the output midpoint differs: for a 3840-wide output and a 16-column alignment it is 1952 against 1920 in local mode (`Sizing.ScratchRegression`) |
| `SeamGeometry.LocalShapeAligned` | modules/ocl/cl_image_360_stitch.cpp:265-299 | any layout with the local window formulas over aligned midpoints and seams has every column and width aligned |
| `SeamGeometry.GlobalShapeAligned` | modules/ocl/cl_image_360_stitch.cpp:195-227 | any layout with the global window formulas over aligned seams, main and output midpoints has every column and width aligned, the clamped `scnd_mid` included |
| `SeamGeometry.ValidAreasAligned` | modules/ocl/cl_image_360_stitch.cpp:199-221 | valid areas running between aligned seam edges and aligned midpoints are aligned |
| `SeamGeometry.RegressionSeams` | modules/ocl/cl_image_360_stitch.cpp:179-192 | snapping the fixed table to 16 columns gives 208-wide seams at columns 0 and 1728 (main) and 1728 and 16 (secondary) |
| `SeamGeometry.LocalRegression` | modules/ocl/cl_image_360_stitch.cpp:244-302 | the 3840x1080, 1920-wide, alignment-16 case gives midpoints 960/960/1920 and merge windows (768, 400 wide) and (2688, 416 wide) |
| `SeamGeometry.GlobalRegression` | modules/ocl/cl_image_360_stitch.cpp:195-227 | the fixed table on a 3904-wide canvas with 1920-wide inputs gives midpoints 960 and 1952, `scnd_mid` 736 unclamped, windows at 992 and 2720 each 208 wide, 976 columns after the right window against a 512-column secondary strip, and snapped content 3440 wide |
| `SeamGeometry.RegressionResetWidth` | modules/ocl/cl_image_360_stitch.cpp:337-343 | on the fixed table the reset width is 3440, the snapped content width |
| `SeamGeometry.ResetPastContent` | modules/ocl/cl_image_360_stitch.cpp:337-343 | with secondary cells at 16 and 1730, the snapped content is 3440 wide, the unsnapped sum is 3442, and the reset width is 3456 |
| `PlaneAdapter.InputImage` | modules/ocl/cl_image_360_stitch.cpp:32-56 | luma is CL_R 8-bit at full size on plane 0's stride and offset; chroma is CL_RG 8-bit at half width and half height on plane 1's stride and offset |
| `PlaneAdapter.OutputImage` | modules/ocl/cl_image_360_stitch.cpp:58-81 | RGBA 16-bit, one texel per eight samples across; height equals the input image's (half for chroma); the plane's own stride and offset |
| `PlaneAdapter.GetOutputInfo` | modules/ocl/cl_image_360_stitch.cpp:83-95 | always succeeds, with the output image's width and height and offset 0 |
| `PlaneAdapter.SamePlaneBytes` | modules/ocl/cl_image_360_stitch.cpp:40-78 | input and output images of a plane share pitch, offset and rows, and each output row covers the input row except for fewer than 8 trailing bytes |
| `Stitch.Image360Stitch.constructor` | modules/ocl/cl_image_360_stitch.cpp:97-103 | the scale mode is fixed, the output size starts at 0, and the table is fresh and zeroed |
| `Stitch.Image360Stitch.SetOutputSize` | modules/ocl/cl_image_360_stitch.cpp:99-100 | stores the panorama size in the two fields that `prepare_buffer_pool_video_info` reads at :137-138 |
| `Stitch.Image360Stitch.PrepareBufferPoolVideoInfo` | modules/ocl/cl_image_360_stitch.cpp:132-153 | on the stored output size: ERROR_PARAM exactly when the width or height is 0, so a stitcher whose size was never set is refused, with the output info unchanged; otherwise the new info's logical size is the stored size and the whole result is `Sizing.PrepareBufferPoolVideoInfo` of it |
| `Stitch.Image360Stitch.SetImageOverlap` | modules/ocl/cl_image_360_stitch.cpp:123-130 | writes `_overlaps[idx][0..1]`, leaves the other row unchanged, returns true |
| `Stitch.Image360Stitch.AlignStitchingArea` | modules/ocl/cl_image_360_stitch.cpp:179-192 | the step-by-step snapping of one seam yields `SnapSeam` |
| `Stitch.Image360Stitch.PrepareLocalScaleBlenderParameters` | modules/ocl/cl_image_360_stitch.cpp:232-305 | returns NO_ERROR, and the setter calls leave each blender holding exactly `LocalLayout`'s configuration for it |
| `Stitch.Image360Stitch.PrepareGlobalScaleBlenderParameters` | modules/ocl/cl_image_360_stitch.cpp:155-230 | returns NO_ERROR, and the setter calls leave each blender holding exactly `GlobalLayout`'s configuration for it |
| `Stitch.Image360Stitch.CreateScaleInputBuffer` | modules/ocl/cl_image_360_stitch.cpp:307-329 | null exactly when the pool's reserve fails; otherwise a fresh buffer with `ScaleInputInfo` of the output |
| `Stitch.Image360Stitch.ResetBufferInfo` | modules/ocl/cl_image_360_stitch.cpp:331-349 | the buffer's info becomes `ResetInfo` of its old info; returns NO_ERROR |
| `Stitch.Image360Stitch.PrepareParameters` | modules/ocl/cl_image_360_stitch.cpp:352-394 | without an attached buffer: ERROR_PARAM and no blender touched; local mode: blenders hold `LocalLayout` against the output, input kept, the multi-image status returned; global mode: pool failure aborts with no blender touched, otherwise blenders hold `GlobalLayout` against the scratch size, and after a successful multi-image step the new input is the fresh scratch buffer with its width reset and its strides and offsets kept (ERROR_PARAM and input kept otherwise) |

## Left out

- OpenCL objects are not modelled: `CLVaImage`, `CLContext` and kernel building, including `create_blender_global_scale_kernel` and its option string. They are foreign GPU calls. The plane adapter yields the descriptor an image would be created from.
- `create_image_360_stitch` is not modelled. It is a factory wiring external objects. Its fixed facts are left out too: two planes (luma and chroma) get a global scale kernel each, and the left blender swaps its input indices.
- `set_left_blender` and `set_right_blender` are folded into the constructor. `add_image_handler` is external.
- `DrmDisplay` and the real `DrmBoBufferPool` are not modelled. The pool is an oracle whose `reserve` outcome is a parameter. After a successful reserve, `get_buffer` is taken to return a buffer.
- `CLMultiImageHandler::prepare_parameters` and all blender internals are not modelled; they are external. The multi-image step is a parameter, its return code.
- `VideoBufferInfo::init`'s stride and offset computation is in libxcam's video-buffer code, outside this model. It is the parameter `XCamTypes.PlaneRule`, taken to depend on the format and the aligned size alone.
- `get_image_overlap` and `set_output_size` are defined in the class header, outside this model. `SetOutputSize` writes the two size fields; `get_image_overlap` is modelled as reading the table cell directly.
- `Align.AlignFixesAligned`: does not promise that Around leaves a negative aligned value unchanged, because C's truncating division moves such a value up by one alignment step; the lemma states that move instead.
- Device execution, asynchrony and the composition step are not modelled: they run outside this stage.
- The 32-bit widths of the C++ integers are not modelled. Sizes and rectangle fields are unbounded integers, so wrap-around near 2^31 or 2^32 is not captured.
- Two places need non-negative values, because the code uses unsigned arithmetic there:
  - The reset content width (:342) is required to be non-negative.
  - Buffer sizes are `nat`.
- `find_typed_attach` is reduced to the single `attachment` field of `Stitch.Buffer`, which `Buffer.FindTypedAttach` returns; the typed side-channel lookup is buffer plumbing outside this stage.
- `CLBlender` is reduced to `Stitch.Blender`, a record of the last rectangle each of `set_input_valid_area`, `set_merge_window` and `set_input_merge_area` received; the blender's own use of them is external.

## Proof notes

- `Sizing.ResetInfoIdempotent`, `SeamGeometry.ModesShareCentre`, `SeamGeometry.LocalTiles`, `SeamGeometry.GlobalTiles`, `SeamGeometry.SeamsAligned` and `PlaneAdapter.SamePlaneBytes` follow from their functions' contracts without further proof steps. So do the fixed cases `Align.AroundTruncatesNegative` and `Sizing.ScratchRegression`. The steps written in `SamePlaneBytes` and in the fixed cases only keep the solver's work small.
