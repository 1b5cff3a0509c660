# affiners — a verified model of the trilinear resampling engine

affiners resamples 3-D volumes in two ways.

- **Affine transform.** Every output voxel (oz, oy, ox) reads the input at the source point
  `M·(oz, oy, ox) + shift`. It blends the eight surrounding voxels trilinearly, or writes the
  fill value `cval` when the point is rejected.
- **Displacement warp.** Every voxel reads the image at itself minus a displacement. The
  displacement is interpolated from a coarser four-channel warp field, which the crate can also
  upsample by 2×.

Both come as a portable scalar kernel and as AVX2 kernels. The public entry points choose a
kernel at run time from the CPU's features. A build script reads the compiler's version to
decide whether AVX-512 code is compiled in.

This project models that engine in Dafny and proves what each kernel computes:

- **Values.** Element types, matrices, points, corner sets and the warp field are datatypes.
- **Pure lookups.** The point interpolators are functions.
- **Kernels.** Each kernel is a method with the source's loops. It fills a flat, row-major
  output array in place and is proved equal to a specification function of its inputs.

The pieces, module by module:

- `Layout`: the row-major offset `z*(h*w) + y*w + x` and its inverse. They form a bijection onto
  `[0, d*h*w)`, so a kernel that writes every offset from its cell's value writes each voxel
  exactly once.
- `Trilinear`: floor and fraction, and the two acceptance rules.
  - The *loose* rule (scalar kernels) asks `0 <= floor < size` and clamps the upper corner.
  - The *strict* rule (AVX2 kernels) asks `0 <= floor < size - 1`.
  - Also here: the eight corner offsets, the blend and its properties (partition of unity,
    convexity, nested-lerp form).
- `Storage`: the `Interpolate` conversions and the u8 stores. An f16 type is kept abstract,
  behind its three conversions.
- `Geometry`: `AffineMatrix3D`, its constructors and flat form, and the source point.
- `ScalarAffine`: `trilinear_interp_f32` and the `trilinear_3d_*_scalar` kernels.
- `Avx2`: the batch-and-remainder loops of `trilinear_3d_{f32,f64,f16}_avx2`. Each
  vector register becomes a per-lane array.
- `Field`, `ScalarWarp`, `Warp`: the warp field, its edge-clamped ("nearest") lookup, the
  scalar warp kernels, 2× field upsampling, and the `apply_warp_3d_*` dispatchers.
- `Dispatch`: the capability preference chain.
- `Lib`: the public affine entry points and `map_coordinates_3d_f32`.
- `Build`: the `rustc --version` parser and the Rust 1.89 gate for AVX-512.

Floating-point values are mathematical reals, so every result is the exact real value of the
source's formula, with every cast between float types taken as exact.

The two acceptance rules really differ:

- **In the last unit cell** of each axis, the scalar kernels blend with clamped corners, while
  the AVX2 kernels write the fill. `Trilinear.PoliciesDisagreeOnLastCell` and
  `Avx2.Avx2Identity` exhibit this.
- **Wherever the strict rule accepts**, the two agree (`Avx2.Avx2VolumeAgreesWithScalar`).

## Model

| member | source | states |
|---|---|---|
| Storage.ExactRoundTrip | src/lib.rs:158-167 | With floats taken as reals, the f64 conversions are the identity, so reading an element back and storing it again returns it unchanged (the premise of the copy lemmas). |
| Storage.ByteFromAffine | src/scalar.rs:684 | The affine u8 store gives 0 for results at or below 0, 255 at or above 255, and otherwise the byte b with b <= r < b + 1 (the truncation of the clamped value). |
| Storage.RoundHalfAway | src/scalar.rs:931 | `round` lands within 1/2 of its argument and keeps its sign, and an exact half goes away from zero (2.5 to 3, -0.5 to -1). |
| Storage.ByteFromWarp | src/scalar.rs:930-931 | The warp u8 store gives 0 below 0, 255 above 255, and otherwise the byte within 1/2 of the value, the upper one at an exact half. |
| Storage.ByteFromWarpOfByte | src/scalar.rs:889-931 | A u8 fill read as f32, rounded and clamped comes back unchanged. |
| Storage.ByteFromWarpTie | src/scalar.rs:930-931 | A value exactly halfway between bytes k and k + 1 is stored as k + 1. |
| Storage.ByteFromAffineOfByte | src/scalar.rs:684-686 | A byte value stored through the affine kernel's clamp-and-truncate comes back unchanged. |
| Layout.FlatInBounds | src/scalar.rs:224 | Every voxel of a d×h×w box has its output offset inside [0, d*h*w). |
| Layout.UnflatFlat | src/scalar.rs:224 | Decoding a voxel's offset gives the voxel back, so distinct voxels never share an offset. |
| Layout.FlatUnflat | src/scalar.rs:224 | Every offset below d*h*w is the offset of exactly one voxel of the box, so the row-major loops reach every output element. |
| Layout.FlatLeftToRight | src/scalar.rs:224 | The kernels' left-to-right product `oz*oh*ow + oy*ow + ox` is the row-major offset. |
| Layout.RowInPlane | src/warp.rs:124 | A chunk-relative offset `oy*w + ox` stays inside its h*w chunk. |
| Layout.FlatNextRow | src/simd/avx2.rs:174 | The row after row oy starts where row oy ends (`row_start = oy * ow`). |
| Layout.FlatNextPlane | src/simd/avx2.rs:106 | The chunk of plane oz + 1 starts where the chunk of plane oz ends (chunks of oh*ow). |
| Layout.FlatEnd | src/simd/avx2.rs:106 | The last plane's chunk ends at the end of the output. |
| Geometry.Identity | src/lib.rs:61-65 | Entry (i, j) of the identity is 1 on the diagonal and 0 off it. |
| Geometry.Scale | src/lib.rs:69-73 | `scale(sz, sy, sx)` is diagonal with sz, sy, sx on the diagonal and 0 elsewhere. |
| Geometry.UnitScaleIsIdentity | src/lib.rs:61-73 | Scaling by one on every axis is the identity matrix. |
| Geometry.AsFlat | src/lib.rs:104-116 | `as_flat` has nine entries, and entry 3*i + j is m[i][j]. |
| Geometry.AsFlatRoundTrip | src/lib.rs:104-116 | The nine flat entries rebuild the matrix: flattening loses nothing. |
| Geometry.HoistedSourcePoint | src/scalar.rs:209-217 | The kernels' row base (m[r][0]*oz + m[r][1]*oy + shift[r]) plus m[r][2]*ox is row r of M·(oz, oy, ox) + shift. |
| Geometry.IdentitySourcePoint | src/scalar.rs:209-217 | Under the identity matrix, the source point is the output voxel plus the shift. |
| Geometry.ScaleSourcePoint | src/scalar.rs:209-217 | Under a scaling matrix, each source coordinate is the scaled output coordinate plus its shift. |
| Trilinear.FracInUnit | src/scalar.rs:45-47 | The fraction `c - floor(c)` lies in [0, 1), and floor plus fraction is c. |
| Trilinear.StrictImpliesLoose | src/simd/avx2.rs:253-258 | Every floor the AVX2 bounds check accepts is also accepted by the scalar check. |
| Trilinear.UpperOnAxis | src/scalar.rs:41-43 | The clamped upper corner `min(f + 1, size - 1)` is on the axis, is f or f + 1, and is f + 1 exactly when f + 1 is on the axis. |
| Trilinear.ClampInRange | src/scalar.rs:964-966 | `clamp(lo, hi)` lands in [lo, hi], is the identity inside it, and gives the nearer bound outside. |
| Trilinear.WeightsSumToOne | src/simd/avx2.rs:207-218 | The eight precomputed corner weights sum to 1, whatever the fractions. |
| Trilinear.WeightedIsBlend | src/simd/avx2.rs:274-281 | Corners dotted with the precomputed weights give the scalar kernels' weighted sum. |
| Trilinear.BlendIsNestedLerp | src/scalar.rs:70-81 | The eight-term weighted sum is interpolation along x, then y, then z. |
| Trilinear.BlendWithin | src/scalar.rs:70-81 | With fractions in [0, 1], the blend stays within the range of its eight corners. |
| Trilinear.BlendAtLowerCorner | src/scalar.rs:70-81 | With all fractions 0, the blend is the lower corner exactly. |
| Trilinear.BlendOfConstant | src/scalar.rs:70-81 | Eight equal corners blend to that value at any fractions. |
| Trilinear.BlendAtCentre | src/scalar.rs:70-81 | At fractions (0.5, 0.5, 0.5), the blend is the mean of the eight corners. |
| Trilinear.CornerIndicesInBounds | src/scalar.rs:52-59 | Corners whose coordinates lie on the axes have all eight offsets below d*h*w. |
| Trilinear.LooseIndices | src/scalar.rs:36-59 | With clamped upper corners, the scalar kernels' eight offsets idx000..idx111 are all below d*h*w. |
| Trilinear.StrictIndices | src/simd/avx2.rs:261-271 | idx000 plus 1, the row stride and the plane stride are the eight unclamped corners, and under the strict rule all of them are below d*h*w. |
| Trilinear.StrictIndicesAreLoose | src/simd/avx2.rs:253-271 | Under the strict rule, the AVX2 offsets equal the scalar kernels' clamped offsets. |
| Trilinear.GatherWithin | src/scalar.rs:61-68 | Corners gathered from data whose loaded values lie in [lo, hi] lie in [lo, hi]. |
| Trilinear.SampleStrict | src/simd/avx2.rs:253-284 | The AVX2 lookup yields a value exactly when every floor is at least 0 and below size - 1. |
| Trilinear.StrictAgreesWithLoose | src/simd/avx2.rs:253-281 | Wherever the strict rule accepts a point, the AVX2 and scalar lookups return the same value. |
| Trilinear.PoliciesDisagreeOnLastCell | src/simd/avx2.rs:253-258 | In a 2×2×2 volume holding 0..7, the point (1, 0, 0) on the last plane reads 4 through the scalar lookup and is rejected by the AVX2 lookup. |
| Trilinear.SampleLooseAtGridPoint | src/scalar.rs:27-81 | At an integer point, the scalar lookup returns the voxel there, or nothing off the volume. |
| Trilinear.SampleLooseInsideGridPoint | src/scalar.rs:27-81 | At an integer point inside the volume, the lookup is that voxel, read through the element conversion. |
| Trilinear.SampleLooseAtCellCentre | src/scalar.rs:1270-1284 | At the centre of a unit cell inside the volume, the lookup is the mean of the cell's eight voxels. |
| Trilinear.SampleLooseWithin | src/scalar.rs:27-81 | An accepted lookup never leaves the range of the loaded data. |
| Field.Field4.Channel | src/scalar.rs:722-728 | Slicing out channel k gives a well-formed volume with the field's spatial shape and channel k's values. |
| Field.ClampPointInBox | src/warp.rs:144-146 | The clamped point lies in [0, size - 1] on every axis, so the scalar rule accepts it. |
| Field.NearestIsClampedLoose | src/warp.rs:132-187 | `trilinear_interp_nearest_mode` is the scalar lookup at the clamped point, and that lookup never rejects. |
| Field.NearestInsideIsLoose | src/warp.rs:132-187 | For a point already in the box, the nearest-mode lookup is the plain scalar lookup. |
| Field.NearestClampIdempotent | src/warp.rs:144-146 | Clamping a point first changes nothing: outside the box, the lookup reads the nearest point of the box. |
| Field.NearestAtGridPoint | src/warp.rs:132-187 | At a grid point of the box, the lookup returns that voxel exactly. |
| Field.NearestWithin | src/warp.rs:179-186 | The lookup never leaves the range of the channel's values. |
| Field.NearestOfConstant | src/warp.rs:179-186 | A constant channel reads as that constant everywhere, inside or outside the box. |
| ScalarAffine.TrilinearInterpF32 | src/scalar.rs:17-82 | The result is `cval` whenever some floor is negative or at least its axis size; otherwise it is the blend with clamped upper corners. |
| ScalarAffine.InterpF32AtCellCentre | src/scalar.rs:1270-1284 | A first unit cell holding 0..7 interpolates to 3.5 at (0.5, 0.5, 0.5). |
| ScalarAffine.InterpF32OutOfBounds | src/scalar.rs:1287-1303 | A point one voxel before the first plane, row or column yields `cval`. |
| ScalarAffine.AffineVolumeAt | src/scalar.rs:224-279 | Output voxel (z, y, x), at offset z*oh*ow + y*ow + x, holds the stored blend at its source point, or the fill when that point is rejected. |
| ScalarAffine.AffineVolumeCells | src/scalar.rs:204-285 | Every output offset holds the cell value of the one voxel it encodes. |
| ScalarAffine.AffineCellOnGrid | tests/correctness.rs:95-180 | An integer scaling with an integer shift reads voxel (k·z + t) unblended, or writes the fill when that voxel is off the input. This covers translation by one and 2× down-scaling. |
| ScalarAffine.AffineIdentityCopies | tests/correctness.rs:76-92 | The identity with no shift copies the input voxel for voxel when a load-then-store round trip is lossless (f32, f64). |
| ScalarAffine.AffineHalfVoxelShift | tests/correctness.rs:133-159 | A (0.5, 0.5, 0.5) shift under the identity gives the mean of the eight voxels of the cell starting at the output voxel (so a single 8.0 corner gives 1.0). |
| ScalarAffine.AffineLargeShiftFills | tests/correctness.rs:183-199 | A z-shift of at least the input depth makes every output voxel the fill. |
| ScalarAffine.AffineU8IsFloor | src/scalar.rs:684-686 | In the u8 kernel an accepted voxel blends values in [0, 255], so the clamp never fires and the stored byte is the blend's floor; a rejected voxel keeps the u8 `cval`. |
| ScalarAffine.ResampleVoxel | src/scalar.rs:219-279 | The loop body's clamped corners and weighted sum compute the scalar lookup at the source coordinate, or select the fill when it is rejected. |
| ScalarAffine.ResampleAffine | src/scalar.rs:204-285 | The sequential oz/oy/ox loops leave the output equal to the specified affine volume. |
| ScalarAffine.Trilinear3DScalar | src/scalar.rs:87-287 | `trilinear_3d_scalar` produces the affine volume with `to_f64` loads, `from_f64` stores and fill `from_f64(cval)`. |
| ScalarAffine.Trilinear3DF16Scalar | src/scalar.rs:290-489 | The f16 kernel produces the affine volume with `to_f32` loads, `f16::from_f32` stores and fill `f16::from_f64(cval)`. |
| ScalarAffine.Trilinear3DU8Scalar | src/scalar.rs:494-692 | The u8 kernel produces the affine volume with clamp-and-truncate stores and the u8 `cval` as fill. |
| ScalarWarp.WarpFieldIsNearest | src/scalar.rs:943-998 | `trilinear_interp_warp_field_f32` never rejects. Through either branch, it is the nearest-mode lookup of each displacement channel. |
| ScalarWarp.WarpFieldBoundaryIsNearest | src/scalar.rs:961-982 | The boundary branch (clamp, then clamped upper corners) is the nearest-mode lookup. |
| ScalarWarp.WarpFieldInteriorIsNearest | src/scalar.rs:984-997 | The interior branch, with its unclamped corners floor + 1, is the nearest-mode lookup too. |
| ScalarWarp.BoundaryBranchIsNearest | src/scalar.rs:964-981 | The boundary branch's clamped corners are in bounds and are the corners the nearest-mode lookup reads. |
| ScalarWarp.InteriorBranchIsNearest | src/scalar.rs:984-997 | Where the strict rule holds, the unclamped corners are in bounds and give the nearest-mode value. |
| ScalarWarp.ChannelInteriorIsNearest | src/scalar.rs:984-997 | One channel of the interior branch reads the nearest-mode value of that channel. |
| ScalarWarp.ImageWarpInterp | src/scalar.rs:1067-1131 | The image lookup is `cval` exactly when the snapped point is rejected by the scalar rule, and otherwise the scalar lookup at the snapped point. |
| ScalarWarp.ImageWarpSnapsTinyNegative | src/scalar.rs:1079-1091 | A coordinate in (-1e-5, 0) is read as 0, where the plain lookup would reject it. |
| ScalarWarp.ImageWarpAtGridPoint | src/scalar.rs:1067-1131 | At an integer point, the image lookup is the voxel there, or `cval` off the image. |
| ScalarWarp.WarpScaleSpansField | src/scalar.rs:714-716 | The scale `wf_size / img_size` maps the image extent onto the field extent. |
| ScalarWarp.WarpVolumeAt | src/scalar.rs:735-780 | Voxel (z, y, x) of the warped output, at offset z*h*w + y*w + x, holds that voxel's warped value. |
| ScalarWarp.WarpConstantDisplacement | src/warp.rs:496-527 | A field of constant integers t reads voxel c - t unblended, or `cval` when that voxel is off the image. |
| ScalarWarp.WarpSourceOfConstant | src/scalar.rs:739-761 | Under a constant integer field, the source point is the output voxel minus the constants. |
| ScalarWarp.WarpFieldOfConstant | src/scalar.rs:943-1063 | A constant field displaces every point by its three constants. |
| ScalarWarp.WarpZeroFieldCopies | src/warp.rs:477-493 | A zero field copies the image voxel for voxel when a load-then-store round trip is lossless. |
| ScalarWarp.WarpZeroFieldCell | src/warp.rs:477-493 | Under a zero field, each output voxel is the image voxel at the same place. |
| ScalarWarp.WarpU8Cell | src/scalar.rs:889-931 | In the u8 driver, a rejected voxel keeps the u8 `cval` through f32 and rounding; an accepted one is the rounded blend, which lies in [0, 255]. |
| ScalarWarp.WarpVoxel | src/scalar.rs:739-777 | The innermost loop body computes the warped value of voxel (oz, oy, ox) at an offset inside the output. |
| ScalarWarp.WarpCellByField | src/scalar.rs:739-775 | Computing the displacement with the field interpolator at the driver's field point gives the voxel's warped value. |
| ScalarWarp.WarpRow | src/scalar.rs:737-778 | After the x loop of row (oz, oy), every offset up to the end of that row holds its warped value, and later offsets are untouched. |
| ScalarWarp.ResampleWarp | src/scalar.rs:735-780 | The drivers' three loops leave the output equal to the warped volume. |
| ScalarWarp.ApplyWarp3DF32Scalar | src/scalar.rs:702-781 | `apply_warp_3d_f32_scalar` produces the warped volume with f32 values stored as computed and fill `cval`. |
| ScalarWarp.ApplyWarp3DF16Scalar | src/scalar.rs:785-857 | The f16 driver produces the warped volume with `to_f32` loads, `f16::from_f32` stores and fill `cval.to_f32()`. |
| ScalarWarp.ApplyWarp3DU8Scalar | src/scalar.rs:861-935 | The u8 driver produces the warped volume with round-and-clamp stores and fill `cval as f32`. |
| Warp.UpsampleScaleSpans | src/warp.rs:40-42 | The scale maps the last output index 2n - 1 onto the last input index n - 1, and lies in [0, 1/2). |
| Warp.KernelScale | src/warp.rs:40-42 | The kernel's scale, `(in - 1) / (out - 1)` when `out > 1` and 0 otherwise, is the upsampling scale for out = 2·in. |
| Warp.UpsampleCoordInRange | src/warp.rs:75-79 | Every output index below 2n maps to an input coordinate within [0, n - 1]. |
| Warp.UpsampleCellIsLoose | src/warp.rs:143-158 | The nearest-mode clamp never changes an upsampling coordinate, so every upsampled voxel is an accepted scalar lookup. |
| Warp.CornerLands | src/warp.rs:40-42 | The first and last output index of an axis land exactly on the first and last input index. |
| Warp.UpsampleCorners | src/warp.rs:400-412 | Align-corners: each of the eight output corners holds the input's value at the matching input corner, in every channel. |
| Warp.UpsampleFirstInterior | src/warp.rs:424-440 | Output voxel (1, 1, 1) blends the input's first unit cell with the three scales as weights (1/3 each for a 2×2×2 field). |
| Warp.UpsampleFirstRowStep | src/warp.rs:414-422 | Output voxel (0, 0, 1) lies a fraction (w - 1)/(2w - 1) of the way from the first input voxel to the second. |
| Warp.UpsampleTestValue | src/warp.rs:414-422 | For a field whose first row holds 1 and 2, output voxel (0, 0, 1) is 1 + 1/3. |
| Warp.UpsampleWithin | src/warp.rs:179-186 | Upsampling stays within the range of the channel's values. |
| Warp.UpsampleRow | src/warp.rs:78-86 | The x loop writes the upsampled value at every x of row (c, oz, oy). Every other element is unchanged. |
| Warp.UpsamplePlane | src/warp.rs:76-87 | The y loop fills plane (c, oz) with the upsampled values and changes nothing else. |
| Warp.UpsampleChannel | src/warp.rs:74-88 | The oz loop fills channel c with its upsampled values and changes nothing else. |
| Warp.UpsampleWarpField2x | src/warp.rs:32-93 | The result has shape (channels, 2d, 2h, 2w), keeping the channel count, and every element is its upsampled value. |
| Warp.SliceIndex | src/warp.rs:124 | The chunk offset `oy * out_w + ox` lies inside the (2h·2w)-long chunk. |
| Warp.SliceIndexDistinct | src/warp.rs:124 | Distinct voxels of a plane have distinct chunk offsets. |
| Warp.UpsampleSliceRow | src/warp.rs:114-126 | One row of `upsample_z_slice` writes the upsampled values of row oy at their chunk offsets and leaves the other rows untouched. |
| Warp.UpsampleZSlice | src/warp.rs:97-127 | `upsample_z_slice` fills its chunk with the upsampled plane oz of channel c. |
| Warp.ApplyWarp3DF32 | src/warp.rs:211-257 | The output has the image's shape, and the backend is the dispatch chain's choice. On the scalar branch, the output is the warped volume with fill `cval`. |
| Warp.ApplyWarp3DF16 | src/warp.rs:266-314 | As the f32 entry point, for f16 images; the AVX2 branch also needs `f16c`. |
| Warp.ApplyWarp3DU8 | src/warp.rs:323-368 | As the f32 entry point, for u8 images with rounded and clamped stores. |
| Dispatch.SelectBackendIsBest | src/lib.rs:191-212 | The chain picks a kernel family the CPU can run, and no runnable family ranks higher: avx512f, then avx2+fma (plus f16c for f16), then scalar. |
| Dispatch.SelectBackendMonotone | src/lib.rs:191-212 | A CPU with more features never falls back to a lower-ranked family. |
| Dispatch.F16DemandsMore | src/lib.rs:288-309 | The f16 chain never ranks above the others, and differs from them exactly when AVX2 and FMA are present without f16c and AVX-512. |
| Dispatch.NoSimdIsScalar | src/lib.rs:191-212 | Without any SIMD feature (or off x86-64), the scalar kernel runs. |
| Avx2.BatchEnd | src/simd/avx2.rs:178 | The batch loop stops at the largest multiple of the lane count at most ow, and fewer than one batch of voxels remains after it. |
| Avx2.BatchFits | src/simd/avx2.rs:178 | Batch k fits in the row exactly when it ends by BatchEnd. |
| Avx2.BatchLoopStops | src/simd/avx2.rs:178-295 | When the batch loop's test fails at a multiple of the lane count, the loop is at BatchEnd, where the remainder loop starts. |
| Avx2.Avx2VolumeAt | src/simd/avx2.rs:166-340 | Voxel (z, y, x) of the AVX2 output holds its batch-lane value when x is before BatchEnd, and its remainder value otherwise. |
| Avx2.BatchMatchesRemainder | src/simd/avx2.rs:282-337 | When the fill survives the round trip through the working float type (f32, f64), a batch lane writes what the remainder loop writes. |
| Avx2.Avx2CellIsStrict | src/simd/avx2.rs:178-340 | Under that round trip, a voxel's value does not depend on whether it fell in a batch or in the remainder. |
| Avx2.Avx2AgreesWithScalar | src/simd/avx2.rs:253-281 | Wherever the strict rule accepts a voxel's source point, the AVX2 kernels write what the scalar kernels write. |
| Avx2.Avx2RejectsToFill | src/simd/avx2.rs:282-337 | Wherever the strict rule rejects, the voxel holds the fill (converted there and back in a batch lane). |
| Avx2.Avx2Identity | src/simd/avx2.rs:989-1035 | Under the identity, a voxel whose unit cell lies inside the input is copied. A voxel on the last plane, row or column gets the fill from the AVX2 kernels, while the scalar kernels copy it. |
| Avx2.Avx2VolumeAgreesWithScalar | src/simd/avx2.rs:253-337 | The whole AVX2 output agrees with the scalar output at every voxel whose source point the strict rule accepts. |
| Avx2.Avx2VolumeIdentity | src/simd/avx2.rs:989-1035 | On the whole output of the identity transform, interior voxels are copied through the working type. Last-plane, row or column voxels hold the fill, read back into the working type when they fall in a batch. |
| Avx2.LaneSourcePoint | src/simd/avx2.rs:192-194 | The fused `m[r][2] * x + base[r]` of a lane is row r of the voxel's source point. |
| Avx2.LanePointsAreSourcePoints | src/simd/avx2.rs:180-194 | Lane j of the batch at ox computes the source point of voxel ox + j. |
| Avx2.TruncOfFloor | src/simd/avx2.rs:221-223 | Truncating an already floored coordinate to an integer gives its floor. |
| Avx2.BatchLane | src/simd/avx2.rs:247-284 | Lane j's scalar pass (strict test, eight gathers at idx000 plus strides, stored weights) yields the strict lookup at the lane's point, or the fill read back. |
| Avx2.ResolveLanes | src/simd/avx2.rs:244-285 | The lane loop fills a fresh result array whose lane j holds the lane value of source point j. |
| Avx2.LaneCoordinates | src/simd/avx2.rs:179-241 | The vector pass leaves, for each lane j, the truncated floors of lane j's source point and its eight weights, computed from that point's fractions. |
| Avx2.Avx2Batch | src/simd/avx2.rs:178-292 | One batch writes the batch value of each of voxels ox .. ox + lanes - 1 of the row and changes nothing else. |
| Avx2.RemainderVoxel | src/simd/avx2.rs:295-340 | The remainder body computes the stored strict lookup, or the fill itself when rejected. |
| Avx2.ProcessRow | src/simd/avx2.rs:166-340 | The batch loop and then the remainder loop write every voxel of the row with its cell value. No other element changes. |
| Avx2.ProcessZSlice | src/simd/avx2.rs:138-342 | `process_z_slice_*` fills the oh·ow chunk of plane oz with the AVX2 output and leaves the rest of the output untouched. |
| Avx2.Trilinear3DAvx2 | src/simd/avx2.rs:27-134 | A tiny input (an axis below 2 voxels) leaves the output untouched. Otherwise every z-slice chunk is processed and the output is the AVX2 volume. |
| Avx2.Trilinear3DF32Avx2 | src/simd/avx2.rs:27-134 | The f32 kernel with 8 lanes and fill `cval as f32`: untouched output when tiny, the 8-lane AVX2 volume otherwise. |
| Avx2.Trilinear3DF64Avx2 | src/simd/avx2.rs:352-459 | The f64 kernel with 4 lanes (`while ox + 3 < ow`) and fill `cval`. |
| Avx2.Trilinear3DF16Avx2 | src/simd/avx2.rs:659-768 | The f16 kernel in f32 lanes: stored with the f16 conversion; a rejected lane holds `cval_f16.to_f32()` and the remainder writes `cval_f16`. |
| Lib.Prefill | src/lib.rs:189 | `Array3::from_elem` holds the fill value at every one of its n elements. |
| Lib.Avx2Output | src/lib.rs:202-206 | The AVX2 branch returns an output of the input's size, and an all-fill output for a tiny input. |
| Lib.Avx2OutputAgreesWithScalar | src/lib.rs:188-212 | Wherever the strict rule accepts, the AVX2 branch of an entry point returns what its scalar branch returns. |
| Lib.AffineTransform3DF32 | src/lib.rs:182-213 | The output is fresh and of the input's shape, and the backend is the chain's choice. The AVX2 branch gives the 8-lane AVX2 output, the scalar branch the affine volume with fill `cval as f32`. |
| Lib.AffineTransform3DF64 | src/lib.rs:228-259 | As the f32 entry point, with the 4-lane AVX2 kernel. |
| Lib.AffineTransform3DF16 | src/lib.rs:279-310 | As the f32 entry point, for f16: fill `f16::from_f64(cval)`, and the AVX2 branch needs `f16c`. |
| Lib.AffineTransform3D | src/lib.rs:314-324 | The generic entry point always produces the scalar affine volume with fill `from_f64(cval)`. |
| Lib.MapCoordinates3DF32 | src/lib.rs:339-358 | The result has the slices' common length, and element i is `trilinear_interp_f32` at (z[i], y[i], x[i]) with fill `cval as f32`. |
| Lib.MapCoordinatesAtSourcePoints | src/lib.rs:339-358 | Mapping an affine transform's source points in row-major order reproduces the scalar kernel's output: both share one interpolator. |
| Build.SplitWhitespace | build.rs:26 | Every word of `split_whitespace` is non-empty and holds no whitespace. |
| Build.SplitWhitespaceKeepsText | build.rs:26 | The words laid end to end are the text with its whitespace removed. |
| Build.SplitWhitespaceWord | build.rs:26 | A word followed by the end of the text or by whitespace is the first word. |
| Build.WordLenUnique | build.rs:26 | The first word's length is the only length of a whitespace-free prefix followed by whitespace or the end of the text. |
| Build.Split | build.rs:27-29 | `split(c)` yields at least one piece, and no piece contains c. |
| Build.SplitJoin | build.rs:27-29 | Joining the pieces with the separator gives the text back. |
| Build.SplitPrefix | build.rs:27-29 | A separator-free prefix is glued onto the first piece of what follows, and the later pieces are unchanged. |
| Build.SplitAtSeparator | build.rs:27-29 | A separator-free prefix followed by the separator is the first piece. |
| Build.ParseU32 | build.rs:28-29 | A parsed number never exceeds u32::MAX, and the empty string does not parse. |
| Build.ParseDecimal | build.rs:28-29 | The decimal form of any u32 parses back to it. |
| Build.ParseOverflows | build.rs:28-29 | A number past u32::MAX does not parse. |
| Build.ParsePlusSign | build.rs:28-29 | A leading '+' is accepted. |
| Build.ParseRejectsNonDigit | build.rs:28-29 | Any character other than a digit, after an optional leading '+', makes parsing fail. |
| Build.RustcVersion | build.rs:16-32 | Any version read has both numbers within u32. |
| Build.EnablesAvx512Exactly | build.rs:6-10 | The gate opens exactly for versions (major, minor) at or after (1, 89). |
| Build.EnablesAvx512Monotone | build.rs:6-10 | A newer compiler never loses the gate. |
| Build.UnreadableVersionDisables | build.rs:6-10 | A version line that cannot be read never enables AVX-512. |
| Build.SecondWord | build.rs:26 | The second word of "<first> <version><rest>" is the version. |
| Build.SkipSpace | build.rs:26 | Leading whitespace does not change the words. |
| Build.MinorPiece | build.rs:29 | The text between the first '.' and the next '.' or '-' is the minor number's digits. |
| Build.VersionPieces | build.rs:27-29 | "<major>.<minor><tail>" splits into the major's digits, then a piece whose part before '-' is the minor's digits. |
| Build.RustcVersionOfLine | build.rs:24-31 | A line "<word> <major>.<minor><tail> …" reads as (major, minor), for any tail that is empty or starts with '.' or '-'. |
| Build.StableLineEnables | build.rs:25 | "rustc 1.89.0" reads as (1, 89) and enables AVX-512. |
| Build.NightlyLineEnables | build.rs:25 | "rustc 1.95.0-nightly" reads as (1, 95). |
| Build.OlderLineDisables | build.rs:6-10 | "rustc 1.88.0" reads as (1, 88) and does not enable AVX-512. |
| Build.NoMinorNoVersion | build.rs:29 | A version word without a '.' has no minor number, so the line yields no version. |
| Build.OneWordLineHasNoVersion | build.rs:26 | A line of one word yields no version. |
| Build.AllSpaceHasNoWords | build.rs:26 | An all-whitespace text has no words. |

## Left out

- Floating point throughout. f32 and f64 are modelled as reals, so these are not modelled:
  - rounding, NaN and infinities;
  - the saturating `as i32` / `as isize` casts of floors;
  - fused versus separate multiply-add;
  - the f32 roundings of `as_flat_f32` and `shift as f32` in the f32 and f16 AVX2 kernels, of
    `m[i][j] as f32` and `shift[i] as f32` in the scalar f16 and u8 kernels, and of the
    fractions cast `as f32` in `trilinear_interp_f32`.

  The cross-backend tolerances of the tests are float artefacts and are not stated.
- The f16 encoding. `f16::from_f32`, `f16::from_f64`, `to_f32` and `_mm256_cvtps_ph` are three
  abstract conversions. No property of them is assumed beyond what each contract names.
- The rayon parallel branches (`par_chunks_mut`). Only the sequential branches are modelled.
  The parallel upsampling's per-chunk function `upsample_z_slice` is modelled on its own chunk,
  at offset `oy * out_w + ox`.
- Chunk slices (`chunks_mut`, `slice_z`). They are modelled as offsets into the whole output
  array. Aliasing between chunks is therefore not modelled.
- SIMD registers. Each vector register is a per-lane sequence, and each spilled lane array
  is a Dafny array. The lane loops are the source's.
- The AVX-512 kernels and the `apply_warp_3d_*_avx2` kernels are not part of this model. On
  those branches the dispatchers keep the prefill, and their contracts say nothing about the
  voxels:
  - Lib.AffineTransform3DF32, Lib.AffineTransform3DF64, Lib.AffineTransform3DF16: nothing is
    promised on the AVX-512 branch.
  - Warp.ApplyWarp3DF32, Warp.ApplyWarp3DF16, Warp.ApplyWarp3DU8: nothing is promised on the
    AVX-512 or AVX2 branches.
- The `has_stable_avx512` cfg is not connected to dispatch. Build.EnablesAvx512Exactly gives
  the gate, and the `Dispatch` chain takes the CPU features as a record.
- Other functions:
  - `trilinear_interp_f64` and `map_coordinates_3d_f64`, which call code not shown;
  - `affine_transform_3d_u8`, and `set_scalar_fallback_allowed` in the Python binding;
  - the trigonometric constructors `rotate_x/y/z`, which use `sin_cos`.
- The Python binding layer, the benchmarks, the examples and the scripts.
- `cargo::` prints in build.rs, and running the compiler through `std::process::Command` and
  decoding its output. Build.RustcVersion takes the decoded text.
- Avx2.Trilinear3DAvx2 (and its three instances) requires `oh >= 1 && ow >= 1` on a non-tiny
  input, because `chunks_mut(0)` panics in the source.
- Lib.MapCoordinates3DF32 requires equal slice lengths: the source's `assert_eq!` panics
  otherwise.
- ScalarWarp.WarpInputs. The warp drivers require at least three field channels (the
  dispatchers' `assert!`). They also require a field non-empty on every axis whenever the
  image is non-empty, because `f32::clamp` panics on an empty axis.
- Storage.ByteFromAffine and Storage.ByteFromWarp model `as u8` on an already clamped value,
  as truncation toward zero.
- Storage.RoundHalfAway is stated for reals. The f32 `round` on huge values, which are already
  integral, is not modelled separately.
- ScalarWarp.WarpScale. The quotient for an empty image axis is never used by the drivers,
  and the model sets it to 0.
