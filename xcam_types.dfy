/** The libxcam value types the stitcher works with. Their declarations live in
    headers that are not part of this model; only the fields the stitcher reads
    or writes are kept. Integers are unbounded here: the 32-bit widths of the
    C++ fields are not modelled. */
module XCamTypes {

  /** `Rect`: a pixel rectangle. Its default constructor is taken to zero every
      field. */
  datatype Rect = Rect(posX: int, posY: int, width: int, height: int)

  const DefaultRect: Rect := Rect(0, 0, 0, 0)

  /** XCAM_VIDEO_MAX_COMPONENTS: the fixed length of the per-plane arrays. */
  const MaxComponents: nat := 4

  type PlaneValues = s: seq<int> | |s| == MaxComponents witness [0, 0, 0, 0]

  /** `VideoBufferInfo`: format, logical size, physical (aligned) size and the
      per-plane row strides and byte offsets. */
  datatype VideoBufferInfo = VideoBufferInfo(
    format: nat,
    width: nat,
    height: nat,
    alignedWidth: nat,
    alignedHeight: nat,
    strides: PlaneValues,
    offsets: PlaneValues)

  /** A default-constructed `VideoBufferInfo`. */
  const DefaultInfo: VideoBufferInfo := VideoBufferInfo(0, 0, 0, 0, 0, [0, 0, 0, 0], [0, 0, 0, 0])

  /** How `VideoBufferInfo::init` lays out the planes: the per-plane strides
      and offsets for a format and an aligned width and height. init belongs to
      libxcam's video-buffer code, outside this model; it is taken to derive
      the layout from those three values alone, and the rule is a parameter of
      every member that calls it. */
  type PlaneRule = (nat, nat, nat) -> (PlaneValues, PlaneValues)

  /** `VideoBufferInfo::init`: sets every field, the ones it is passed and the
      plane layout `rule` gives for the format and the aligned size. */
  function Init(rule: PlaneRule, format: nat, width: nat, height: nat,
                alignedWidth: nat, alignedHeight: nat): VideoBufferInfo
  {
    var planes := rule(format, alignedWidth, alignedHeight);
    VideoBufferInfo(format, width, height, alignedWidth, alignedHeight, planes.0, planes.1)
  }

  /** `info` has the plane layout init gives its format and aligned size. */
  predicate InitLaidOut(rule: PlaneRule, info: VideoBufferInfo)
  {
    (info.strides, info.offsets) == rule(info.format, info.alignedWidth, info.alignedHeight)
  }

  /** `XCamReturn`, reduced to the codes this stage tells apart. */
  datatype XCamReturn =
    | NoError       // XCAM_RETURN_NO_ERROR
    | ErrorParam    // XCAM_RETURN_ERROR_PARAM
    | OtherReturn   // any other code, which only external collaborators produce

  /** `ImageIdxMain`, `ImageIdxSecondary`; ImageIdxCount is 2. */
  const ImageIdxMain: nat := 0
  const ImageIdxSecondary: nat := 1
  const ImageIdxCount: nat := 2

  /** The calibration table `_overlaps[ImageIdxCount][2]`, one field per cell:
      `main0` is `_overlaps[ImageIdxMain][0]`, `scnd1` is
      `_overlaps[ImageIdxSecondary][1]`, and so on. */
  datatype OverlapTable = OverlapTable(main0: Rect, main1: Rect, scnd0: Rect, scnd1: Rect)
}
