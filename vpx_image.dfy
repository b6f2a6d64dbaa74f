/**
 * The decoding engine's picture record, the caller-facing planar `Image`, and
 * the pure part of `getImage`: classifying a picture by its format word,
 * choosing which engine planes become chroma planes 1 and 2, and copying the
 * fields into an `Image`.
 */
module VpxImage {
  import opened PlaneMath

  /** A plane base address; only copied, never dereferenced here. */
  type Ptr = nat

  /** A presentation time (a `double` in the library); only copied. */
  type Time = real

  /** The address of a heap cell holding a time: the engine's `user_priv`. */
  type Token = nat

  /** The engine's four plane addresses (Y, U, V, alpha). */
  type EnginePlanes = s: seq<Ptr> | |s| == 4 witness [0, 0, 0, 0]

  /** The engine's four row strides. */
  type EngineStrides = s: seq<Int32> | |s| == 4 witness [0, 0, 0, 0]

  /** The three output planes: luma, then U, then V. */
  type ImagePlanes = s: seq<Ptr> | |s| == 3 witness [0, 0, 0]

  /** The three output row strides. */
  type ImageLinesizes = s: seq<Int32> | |s| == 3 witness [0, 0, 0]

  // Bits of the engine's image format word, as the engine's public header
  // defines them.
  const IMG_FMT_PLANAR: bv32 := 0x100
  const IMG_FMT_UV_FLIP: bv32 := 0x200
  const IMG_FMT_HAS_ALPHA: bv32 := 0x400
  const IMG_FMT_HIGHBITDEPTH: bv32 := 0x800

  /** One picture handed back by the engine, with the token it carries. */
  datatype Picture = Picture(
    fmt: bv32,
    planes: EnginePlanes,
    stride: EngineStrides,
    dW: UInt32,
    dH: UInt32,
    xChromaShift: UInt32,
    yChromaShift: UInt32,
    userPriv: Token)

  /** The outcome of one `getImage` call. */
  datatype Status = NoError | NoFrame | UnsupportedFrame

  /** The caller-facing view of a decoded picture. */
  datatype Image = Image(
    w: Int32,
    h: Int32,
    chromaShiftW: Int32,
    chromaShiftH: Int32,
    planes: ImagePlanes,
    linesize: ImageLinesizes,
    time: Time)
  {
    /**
     * Width of `plane`: the luma width for plane 0, otherwise the luma width
     * divided by 2^chromaShiftW and rounded up.
     */
    function GetWidth(plane: Int32): (r: Int32)
      requires plane != 0 ==> CeilRshiftDefined(w, chromaShiftW)
      ensures plane == 0 ==> r == w
      ensures plane != 0 ==> (r - 1) * Pow2(chromaShiftW) < w <= r * Pow2(chromaShiftW)
      ensures 0 <= w ==> 0 <= r <= w
    {
      if plane == 0 then w else CeilRshift(w, chromaShiftW)
    }

    /**
     * Height of `plane`: the luma height for plane 0, otherwise the luma
     * height divided by 2^chromaShiftH and rounded up.
     */
    function GetHeight(plane: Int32): (r: Int32)
      requires plane != 0 ==> CeilRshiftDefined(h, chromaShiftH)
      ensures plane == 0 ==> r == h
      ensures plane != 0 ==> (r - 1) * Pow2(chromaShiftH) < h <= r * Pow2(chromaShiftH)
      ensures 0 <= h ==> 0 <= r <= h
    {
      if plane == 0 then h else CeilRshift(h, chromaShiftH)
    }
  }

  /** Whether `flag` is set in the format word. */
  predicate HasFlag(fmt: bv32, flag: bv32)
  {
    fmt & flag != 0
  }

  /**
   * The status `getImage` reports for a picture the engine yielded: planar
   * pictures without alpha and of 8-bit depth are translated when all three
   * strides are nonzero; with a zero stride the status stays at its initial
   * `NoFrame`; every other format is unsupported.
   */
  function Classify(pic: Picture): (s: Status)
    ensures s == UnsupportedFrame <==>
      !HasFlag(pic.fmt, IMG_FMT_PLANAR) || HasFlag(pic.fmt, IMG_FMT_HAS_ALPHA) || HasFlag(pic.fmt, IMG_FMT_HIGHBITDEPTH)
    ensures s == NoError <==>
      HasFlag(pic.fmt, IMG_FMT_PLANAR) && !HasFlag(pic.fmt, IMG_FMT_HAS_ALPHA) && !HasFlag(pic.fmt, IMG_FMT_HIGHBITDEPTH) &&
      pic.stride[0] != 0 && pic.stride[1] != 0 && pic.stride[2] != 0
    ensures s == NoFrame <==>
      HasFlag(pic.fmt, IMG_FMT_PLANAR) && !HasFlag(pic.fmt, IMG_FMT_HAS_ALPHA) && !HasFlag(pic.fmt, IMG_FMT_HIGHBITDEPTH) &&
      (pic.stride[0] == 0 || pic.stride[1] == 0 || pic.stride[2] == 0)
  {
    if pic.fmt & IMG_FMT_PLANAR != 0 && pic.fmt & (IMG_FMT_HAS_ALPHA | IMG_FMT_HIGHBITDEPTH) == 0 then
      if pic.stride[0] != 0 && pic.stride[1] != 0 && pic.stride[2] != 0 then NoError else NoFrame
    else
      UnsupportedFrame
  }

  /** The engine plane that becomes output plane 1 (U): engine plane 2 when U and V are flipped. */
  function UPlane(fmt: bv32): (u: int)
    ensures u == 1 || u == 2
    ensures u == 2 <==> HasFlag(fmt, IMG_FMT_UV_FLIP)
  {
    (if fmt & IMG_FMT_UV_FLIP != 0 then 1 else 0) + 1
  }

  /** The engine plane that becomes output plane 2 (V): always the chroma plane U does not take. */
  function VPlane(fmt: bv32): (v: int)
    ensures v == 3 - UPlane(fmt)
  {
    (if fmt & IMG_FMT_UV_FLIP == 0 then 1 else 0) + 1
  }

  /** The engine plane that output plane `k` is copied from. */
  function SourcePlane(fmt: bv32, k: int): (j: int)
    requires 0 <= k < 3
    ensures 0 <= j < 3
    ensures j == 0 <==> k == 0
  {
    if k == 0 then 0 else if k == 1 then UPlane(fmt) else VPlane(fmt)
  }

  /**
   * The U and V planes are the two chroma planes, each taken once: (1, 2)
   * without the flip bit, (2, 1) with it; plane 0 always stays plane 0.
   */
  lemma UVPlanesPartition(fmt: bv32)
    ensures UPlane(fmt) != VPlane(fmt)
    ensures {UPlane(fmt), VPlane(fmt)} == {1, 2}
    ensures !HasFlag(fmt, IMG_FMT_UV_FLIP) ==> UPlane(fmt) == 1 && VPlane(fmt) == 2
    ensures HasFlag(fmt, IMG_FMT_UV_FLIP) ==> UPlane(fmt) == 2 && VPlane(fmt) == 1
    ensures SourcePlane(fmt, 0) == 0
  {
  }

  /** The output planes are copied from three different engine planes. */
  lemma SourcePlaneInjective(fmt: bv32, k: int, k': int)
    requires 0 <= k < 3 && 0 <= k' < 3
    ensures SourcePlane(fmt, k) == SourcePlane(fmt, k') ==> k == k'
  {
    UVPlanesPartition(fmt);
  }

  /**
   * The field copy of a supported picture into an `Image`: dimensions and
   * chroma shifts converted to `int`, each output plane and its line size
   * taken from the same engine plane, and the time recovered from the token.
   */
  function Translate(pic: Picture, time: Time): (image: Image)
    ensures image.w == ToInt32(pic.dW) && image.h == ToInt32(pic.dH)
    ensures image.chromaShiftW == ToInt32(pic.xChromaShift) && image.chromaShiftH == ToInt32(pic.yChromaShift)
    ensures forall k :: 0 <= k < 3 ==>
      image.planes[k] == pic.planes[SourcePlane(pic.fmt, k)] &&
      image.linesize[k] == pic.stride[SourcePlane(pic.fmt, k)]
    ensures image.time == time
  {
    var u, v := UPlane(pic.fmt), VPlane(pic.fmt);
    Image(
      ToInt32(pic.dW), ToInt32(pic.dH),
      ToInt32(pic.xChromaShift), ToInt32(pic.yChromaShift),
      [pic.planes[0], pic.planes[u], pic.planes[v]],
      [pic.stride[0], pic.stride[u], pic.stride[v]],
      time)
  }

  /**
   * When the engine's Y, U and V planes lie at different addresses, so do
   * the three output planes: in particular planes 1 and 2 differ from plane 0.
   */
  lemma TranslateKeepsPlanesApart(pic: Picture, time: Time)
    requires pic.planes[0] != pic.planes[1] && pic.planes[0] != pic.planes[2] && pic.planes[1] != pic.planes[2]
    ensures var image := Translate(pic, time);
      image.planes[0] != image.planes[1] && image.planes[0] != image.planes[2] && image.planes[1] != image.planes[2]
  {
    var image := Translate(pic, time);
    forall k, k' | 0 <= k < 3 && 0 <= k' < 3 && k != k'
      ensures image.planes[k] != image.planes[k']
    {
      SourcePlaneInjective(pic.fmt, k, k');
    }
  }
}
