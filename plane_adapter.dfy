/** The image descriptors `CLBlenderGlobalScaleKernel` builds for one plane of a
    buffer: `get_input_image`, `get_output_image` and `get_output_info`. The
    OpenCL image objects themselves are not part of this model; only the
    descriptor each is created from (format, size, row pitch and plane offset). */
module PlaneAdapter {
  import opened XCamTypes

  datatype ChannelOrder = R | RG | RGBA            // CL_R, CL_RG, CL_RGBA
  datatype ChannelType = UnormInt8 | UnsignedInt16 // CL_UNORM_INT8, CL_UNSIGNED_INT16

  datatype ImageFormat = ImageFormat(order: ChannelOrder, dataType: ChannelType)

  /** A `CLImageDesc` together with the plane offset the image is created at. */
  datatype ImageDesc = ImageDesc(format: ImageFormat, width: nat, height: nat, rowPitch: int, offset: int)

  /** The three out-parameters of `get_output_info` and its return value. */
  datatype OutputInfo = OutputInfo(ok: bool, width: nat, height: nat, offsetX: int)

  /** Samples the scale kernel packs into one output texel. */
  const PackFactor: nat := 8

  /** The plane a kernel works on: 0 (luma) or, for the chroma kernel, 1. */
  function PlaneIndex(isUv: bool): (p: nat)
    ensures p < MaxComponents
  {
    if isUv then 1 else 0
  }

  function BytesPerTexel(f: ImageFormat): nat
  {
    (match f.order case R => 1 case RG => 2 case RGBA => 4)
      * (match f.dataType case UnormInt8 => 1 case UnsignedInt16 => 2)
  }

  function RowBytes(d: ImageDesc): nat
  {
    d.width * BytesPerTexel(d.format)
  }

  /** `get_input_image`: luma as one 8-bit channel at full size, chroma as two
      interleaved 8-bit channels at half width and half height, each at its
      own plane's stride and offset. */
  function InputImage(info: VideoBufferInfo, isUv: bool): (d: ImageDesc)
    ensures d.format == ImageFormat(if isUv then RG else R, UnormInt8)
    ensures d.rowPitch == info.strides[PlaneIndex(isUv)] && d.offset == info.offsets[PlaneIndex(isUv)]
    ensures !isUv ==> d.width == info.width && d.height == info.height
    ensures isUv ==> 2 * d.width <= info.width < 2 * d.width + 2
    ensures isUv ==> 2 * d.height <= info.height < 2 * d.height + 2
  {
    if isUv then
      ImageDesc(ImageFormat(RG, UnormInt8), info.width / 2, info.height / 2, info.strides[1], info.offsets[1])
    else
      ImageDesc(ImageFormat(R, UnormInt8), info.width, info.height, info.strides[0], info.offsets[0])
  }

  /** `get_output_image`: both planes as four 16-bit channels, eight samples per
      texel across, chroma at half height, each at its own plane's stride and
      offset. */
  function OutputImage(info: VideoBufferInfo, isUv: bool): (d: ImageDesc)
    ensures d.format == ImageFormat(RGBA, UnsignedInt16)
    ensures d.rowPitch == info.strides[PlaneIndex(isUv)] && d.offset == info.offsets[PlaneIndex(isUv)]
    ensures PackFactor * d.width <= info.width < PackFactor * d.width + PackFactor
    ensures d.height == InputImage(info, isUv).height
  {
    if isUv then
      ImageDesc(ImageFormat(RGBA, UnsignedInt16), info.width / 8, info.height / 2, info.strides[1], info.offsets[1])
    else
      ImageDesc(ImageFormat(RGBA, UnsignedInt16), info.width / 8, info.height, info.strides[0], info.offsets[0])
  }

  /** `get_output_info`: always succeeds, reports the size of the output image
      and no horizontal offset. */
  function GetOutputInfo(info: VideoBufferInfo, isUv: bool): (r: OutputInfo)
    ensures r.ok && r.offsetX == 0
    ensures r.width == OutputImage(info, isUv).width && r.height == OutputImage(info, isUv).height
  {
    OutputInfo(true, info.width / 8, if isUv then info.height / 2 else info.height, 0)
  }

  /** Input and output images of one plane view the same bytes: same pitch, same
      offset, same rows, and each row of the output covers the input row up to
      its last incomplete group of eight samples. */
  lemma SamePlaneBytes(info: VideoBufferInfo, isUv: bool)
    ensures var i, o := InputImage(info, isUv), OutputImage(info, isUv);
            && i.rowPitch == o.rowPitch && i.offset == o.offset && i.height == o.height
            && RowBytes(o) <= RowBytes(i) < RowBytes(o) + PackFactor
  {
    // the steps below are not needed for the proof, only to keep it cheap
    var i, o := InputImage(info, isUv), OutputImage(info, isUv);
    assert RowBytes(o) == 8 * o.width;
    if isUv {
      assert RowBytes(i) == 2 * i.width;
      assert 8 * o.width == 2 * (4 * o.width);
      assert 4 * o.width <= i.width;
    } else {
      assert RowBytes(i) == i.width;
    }
  }
}
