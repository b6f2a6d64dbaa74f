# VPXDecoder: a verified model of the VP8/VP9 decoding adapter

`VPXDecoder` sits between a WebM demuxer and the libvpx decoding engine. It
chooses the engine's VP8 or VP9 interface from the container's codec, hands
each encoded frame to the engine together with a *timestamp token* (a heap
cell holding the frame's presentation time, passed as the engine's opaque
`user_priv` attachment), and polls the engine for decoded pictures, which it
classifies by pixel format and copies into a planar `Image` (luma, then U,
then V) whose time is read back from the picture's token. `Image::getWidth`
and `Image::getHeight` derive chroma plane sizes by a rounded-up shift.

This project models that adapter in three modules:

- `PlaneMath` (`plane_math.dfy`): C++ `int`/`unsigned int` ranges, the
  unsigned-to-int conversion, `1 << n`, and `ceilRshift` with its ceiling law.
- `VpxImage` (`vpx_image.dfy`): the engine's picture record (format word,
  four planes, four strides, dimensions, chroma shifts, `user_priv` token),
  the three `getImage` statuses, the `Image` datatype with `GetWidth` and
  `GetHeight`, the format classification, the U/V plane remap and the field
  copy. All pure functions and lemmas.
- `VpxDecoder` (`vpx_decoder.dfy`): the session as a class whose fields are
  the engine-handle flag (`usable`, for `m_ctx != NULL`), the engine cursor
  (`iter`, for `m_iter`), the two token sets `timesPool` and `timesInUse`,
  and `times`, the heap cells behind the tokens (a map from token address to
  stored time; its keys are every token ever allocated, since tokens are
  never freed before destruction). `Decode`, `GetImage` and `Destroy` are
  methods over those fields.

The decoding engine is an oracle. `Decode` receives the engine's verdict on
the frame as a boolean. `GetImage` receives the picture the engine yields, if
any, and the cursor position the engine leaves behind. The constructor
receives whether engine initialisation succeeded. With a null engine handle
the model follows libvpx's behaviour for a null context: decoding is
rejected and no picture is yielded. `decode` does not check the handle, so on
an unusable session it still lends a token, and the destructor, which frees
tokens only when the handle is non-null, never deletes it.

The invariant the session keeps (`Decoder.Valid`) is that the free and lent
sets together are exactly the allocated tokens. The stronger invariant that a
token is in exactly one of the two sets (`Decoder.Disjoint`) does NOT hold
for the code as written: `decode` reads the pool's first token without
erasing it, so a reused token is in both sets while the engine holds it (see
Findings). A supported format with a zero row stride returns `NO_FRAME`, not
`UNSUPPORTED_FRAME`, because `err` keeps its initial value
(VPXDecoder.cpp:93, 99-121); `Classify` models this, and the token is still
recycled.

## Model

| member | source | states |
|---|---|---|
| `PlaneMath.ToInt32` | VPXDecoder.cpp:104-107 | converting an `unsigned` field to `int` keeps values up to INT32_MAX and wraps larger ones to negatives, congruent modulo 2^32 |
| `PlaneMath.Pow2` | VPXDecoder.cpp:136 | reference definition of the value of `1 << n` (2^n), with the positivity the division needs |
| `PlaneMath.CeilingOfQuotient` | VPXDecoder.cpp:136 | adding `d - 1` before a floor division by `d` gives the ceiling of the quotient, non-negative and at most the dividend for non-negative dividends |
| `PlaneMath.CeilRshift` | VPXDecoder.cpp:134-137 | defined when the shift is 0..30 and `val + (1 << shift)` does not overflow; the result `r` is the ceiling of `val / 2^shift` (`(r-1)*2^shift < val <= r*2^shift`), is between 0 and `val` for non-negative `val`, and is `val` at shift 0 |
| `PlaneMath.CeilRshiftOneAtShiftOne` | VPXDecoder.cpp:134-137 | width 1 at shift 1 gives 1 |
| `PlaneMath.CeilRshiftFourAtShiftOne` | VPXDecoder.cpp:134-137 | width 4 at shift 1 gives 2 |
| `PlaneMath.CeilRshiftFiveAtShiftOne` | VPXDecoder.cpp:134-137 | width 5 at shift 1 gives 3 |
| `PlaneMath.CeilRshiftFourAtShiftZero` | VPXDecoder.cpp:134-137 | width 4 at shift 0 gives 4 |
| `VpxImage.Image.GetWidth` | VPXDecoder.cpp:139-144 | plane 0 gives the luma width; any other plane gives the ceiling of the width over 2^chromaShiftW; never negative nor above the luma width when the width is non-negative |
| `VpxImage.Image.GetHeight` | VPXDecoder.cpp:145-150 | the same law for heights and chromaShiftH |
| `VpxImage.Classify` | VPXDecoder.cpp:97-124 | not planar, or alpha, or high bit depth gives `UnsupportedFrame`; supported with all three strides nonzero gives `NoError`; supported with any zero stride gives `NoFrame` (each as an if-and-only-if over the individual format bits) |
| `VpxImage.UPlane` | VPXDecoder.cpp:101 | the U source plane is 1 or 2, and 2 exactly when the UV-flip bit is set |
| `VpxImage.VPlane` | VPXDecoder.cpp:102 | the V source plane is the chroma plane U does not take |
| `VpxImage.SourcePlane` | VPXDecoder.cpp:109-115 | every output plane is copied from engine plane 0, 1 or 2, and only output plane 0 comes from engine plane 0 |
| `VpxImage.UVPlanesPartition` | VPXDecoder.cpp:101-102 | U and V are distinct and together exactly {1, 2}: (1, 2) without the flip, (2, 1) with it; plane 0 stays plane 0 |
| `VpxImage.SourcePlaneInjective` | VPXDecoder.cpp:109-115 | different output planes come from different engine planes |
| `VpxImage.Translate` | VPXDecoder.cpp:104-117 | the image takes the converted dimensions and chroma shifts, each output plane and its line size from the same engine plane chosen by the remap, and the given time |
| `VpxImage.TranslateKeepsPlanesApart` | VPXDecoder.cpp:109-111 | engine Y, U, V at distinct addresses give three distinct output planes |
| `VpxDecoder.LeastToken` | VPXDecoder.cpp:80-81 | the first element of a non-empty ordered pointer set is in the set and below every other |
| `VpxDecoder.AddressBound` | VPXDecoder.cpp:82-83 | there is always an address outside the allocated ones for `new double` to return |
| `VpxDecoder.Decoder.constructor` | VPXDecoder.cpp:33-63 | the session is usable exactly for VP8 or VP9 with successful engine initialisation; it starts with the null cursor and no tokens |
| `VpxDecoder.Decoder.Decode` | VPXDecoder.cpp:77-90 | keeps the union invariant; the lent token is in the lent set and holds the frame's time; it is the least free token when the pool is non-empty (and then stays in the pool too) and a newly allocated, non-null one only when the pool is empty; the pool never shrinks; the cursor is reset; the result is the engine's verdict, false for a null handle |
| `VpxDecoder.Decoder.GetImage` | VPXDecoder.cpp:91-130 | with no picture: `NoFrame`, image and both sets unchanged; with a picture: its status is `Classify`, its token ends in the pool and not in the lent set, the image is written only on `NoError` and then holds the token's stored time; keeps the union invariant and the disjointness invariant |
| `VpxDecoder.Decoder.Destroy` | VPXDecoder.cpp:64-75 | with a non-null handle, deletes every free and every lent token, a token in both sets twice; with a null handle deletes nothing |
| `VpxDecoder.Decoder.DecodeCorrected` | VPXDecoder.cpp:79-87 | `decode` with the reused token erased from the pool: keeps both invariants, never lends a token already lent, and leaves every in-flight time unchanged |
| `VpxDecoder.StaleTimestampAsWritten` | VPXDecoder.cpp:79-87 | decode, drain, decode, decode, then the second frame's picture: it is translated with the third frame's time |
| `VpxDecoder.TimestampRoundTripCorrected` | VPXDecoder.cpp:79-87 | the same sequence with the corrected decode: the second frame's picture carries the second frame's time |

## Left out

- libvpx itself: engine initialisation, decoding, picture retrieval and destruction are replaced by oracle parameters (the engine's verdicts, its pictures and its cursor); the bitstream, its length and the thread count are not interpreted.
- Frame-parallel threading inside the engine: it only shows as the engine's freedom to yield pictures late or out of order, which the oracle parameters already allow.
- Heap allocation: a token is an address (a natural number) and `new double` returns any non-null address not yet allocated; allocation failure is not modelled. `Destroy` returns the multiset of addresses deleted rather than freeing memory, and does not model `vpx_codec_destroy` or the deletion of the engine context.
- The `double` time is a `real` that is only copied; NaN and other floating-point values are not modelled.
- Plane base addresses are opaque natural numbers; the pixel data is not modelled.
- The order in which the destructor visits each set (ascending addresses) is not modelled; `Destroy` returns a multiset.
- `PlaneMath.CeilRshift`: shifts of 31 and more, and negative shifts, are excluded; for 31 the C++ result depends on the language version, and beyond it the shift is undefined. A sum `val + (1 << shift)` that overflows is excluded as undefined behaviour. The shift right of a negative value is taken as arithmetic.
- The demuxer beyond its codec value and per-frame buffer and time is not part of this model.

## Findings

| source | as written | input that shows it | evidently intended | confidence | as-written member | corrected member |
|---|---|---|---|---|---|---|
| VPXDecoder.cpp:80-84 | `decode` lends the pool's first token without erasing it from `m_timesPool`, so the token is in both sets while in flight and the next `decode` lends it again, overwriting the time the engine has not yet handed back; if the session is then destroyed, the destructor deletes that token twice | decode frame 1 (time 1.0), drain its picture, decode frame 2 (time 2.0), engine yields nothing, decode frame 3 (time 3.0), engine yields frame 2's picture: its image has time 3.0 | take the token out of the pool when lending it, so each token is in exactly one set and an in-flight time is never overwritten | not executed; high | `VpxDecoder.StaleTimestampAsWritten` | `VpxDecoder.Decoder.DecodeCorrected` |
