# Openholo point-cloud and light-field hologram core in Dafny

This project models the CPU diffraction core of the Openholo hologram
generator.

On the point-cloud side (`ophPointCloud`) it covers:

- the viewing-window remap of scene depths (`transVW`);
- reading, scaling and offsetting each point of the cloud;
- the per-wavelength channel loop of `genCghPointCloudCPU`;
- the two not-encoded per-point kernels. Rayleigh-Sommerfeld (RS) works on a
  cone-limited window, Fresnel on a window limited by the anti-aliasing
  half-width. Both accumulate into the channel's complex field buffer;
- the encoded RS kernel, which writes into the real `holo_encoded` buffer;
- the single-sideband encoder `encodeHologram`, with its output grids, its
  transform round trip and its phase-ramp correction.

On the light-field side (`ophLF`) it covers:

- the derived optical context computed at the end of `readLFConfig`;
- `initializeLF`, which allocates the per-view image buffers;
- `convertLF2ComplexField`. For every per-view pixel it gathers a scratch
  image from the views, transforms it, applies a seeded diffuser phase and
  scatters the result into the 4-D interleaved output buffer.

The shared `ophGen` state is modelled too: the optical context
`OphContext`, the point-cloud record with its default value, the three
setters and the getters.

## How the model is built

| Module | Contents |
|---|---|
| `Numeric` | Complex values; `M_PI` as an exact real; the `Numerics` record of foreign numeric functions. |
| `Field` | Complex field buffers as sequences; pixel indexing; field sums and their permutation invariance. |
| `Gen` | `OphContext`, the point-cloud record, and `ophGen` as class `Generator` with setters and getters. |
| `Culling` | The floor-based bounding windows of both kernels, and clamping to the frame. |
| `Kernels` | The viewing-window remap; the per-pixel RS and Fresnel values as functions; per-point and per-channel fields. |
| `Encoding` | The encoder's grids, its phase-ramp factor, and the encoded RS field. |
| `Scan` | Partial sums along a window scan; these are the loop invariants of the pixel loops. |
| `PointCloud` | Class `PointCloud` (imperative). Its methods are proved equal to the `Kernels` and `Encoding` functions. |
| `LightField` | Class `LightField` (imperative) and its reference function `LFField`. |

The source classes update buffers in place, so the model uses classes too:

- every loop of the source is a `while` loop with invariants;
- each method's `ensures` ties the new buffer contents to a reference
  function of the old state;
- what the source promises about that reference function is proved as
  lemmas. Examples are order-independence of accumulation, culling
  soundness, and index bijectivity of the light-field scatter.

`double` is modelled as exact `real`, and `int`/`uint` as unbounded `int`.

The foreign numeric functions are fields of an uninterpreted `Numerics`
record passed to every operation:

- `sin`, `cos`, `sqrt` and `exp`;
- the half-angle slope `t/sqrt(1-t²)`;
- the RS kernel value;
- `transVW`'s single-value overload;
- the FFT/shift round trips of the encoder and of the light-field
  converter;
- the `rand` of the diffuser.

The model proves what holds for any choice of them.

## Model

| member | source | states |
|---|---|---|
| Gen.SensorSize | ophgen/src/ophPointCloud.cpp:256-257 | Dividing the sensor size by a non-zero pitch gives back the pixel count on each axis. |
| Gen.WaveNumber | ophgen/src/ophPointCloud.cpp:264 | `k·λ = 2π`, and `k` is non-zero. |
| Gen.DefaultPointCloudData | ophgen/src/ophGen.h:302 | The default record has zero points and zero colours, no phase, and no vertex, colour or phase array. Reading zero points is allowed; reading one point is not. |
| Gen.Generator.SetPixelNumber | ophgen/src/ophGen.h:86 | Only `pixel_number` changes. If the context was consistent and the x count changes, then `ss` is stale afterwards. |
| Gen.Generator.SetPixelPitch | ophgen/src/ophGen.h:91 | Only `pixel_pitch` changes. If the context was consistent and the x pitch changes, then `ss` is stale afterwards. |
| Gen.Generator.SetWaveLength | ophgen/src/ophGen.h:96 | Only `lambda` changes. If `k` matched the old wavelength and the wavelength changes, then `k` is stale afterwards. |
| Gen.NewPixelNumberLeavesSizeStale | ophgen/src/ophGen.h:86 | From a consistent context, a new x pixel count breaks `ss = pn·pp`. |
| Gen.NewPixelPitchLeavesSizeStale | ophgen/src/ophGen.h:91 | From a consistent context, a new x pitch breaks `ss = pn·pp`. |
| Gen.NewWaveLengthLeavesWaveNumberStale | ophgen/src/ophGen.h:96 | A new non-zero wavelength breaks `k·λ = 2π`. |
| Kernels.ViewingWindow | ophgen/src/ophPointCloud.cpp:231 | The remapped depth `w` satisfies `w·(z−f) = −f·z`. |
| Kernels.ViewingWindowFixesOrigin | ophgen/src/ophPointCloud.cpp:231 | Depth 0 is mapped to 0. |
| Kernels.ViewingWindowRoundTrip | ophgen/src/ophPointCloud.cpp:231 | The remap never yields `−f`, and the inverse projective map recovers the original depth. |
| PointCloud.PointCloud.TransVW | ophgen/src/ophPointCloud.cpp:226-233 | Each of the first `nSize` entries of `dst` becomes the remap of the old `src` entry, even when `dst` is `src`. Entries past `nSize` are unchanged. |
| Kernels.SamplesAt | ophgen/src/ophPointCloud.cpp:273-283 | Sample `i` of the scene is point `i` read, remapped, scaled and offset. |
| Kernels.SampleIsLocal | ophgen/src/ophPointCloud.cpp:274-283 | A point's sample depends only on its own three coordinates and its own first colour value. |
| Kernels.SampleOffsetMovesDepthOnly | ophgen/src/ophPointCloud.cpp:279-282 | Changing the depth offset moves only the depth, by the difference of the offsets. |
| Gen.Readable | ophgen/src/ophPointCloud.cpp:274-283 | The arrays hold what the loop reads for points `0..n−1`: `vertex` has at least `3n` values, and `color` has index `n_colors·(n−1)`. Nothing is required when `n ≤ 0`. |
| Numeric.Offset | ophgen/src/ophPointCloud.cpp:275 | `n_colors·i`, computed one item at a time. It is non-negative when the stride is. |
| Numeric.OffsetIsProduct | ophgen/src/ophPointCloud.cpp:275 | The item-by-item offset equals the product `n·stride`. |
| Kernels.Place | ophgen/src/ophPointCloud.cpp:276-282 | Each coordinate goes through `transVW` when the viewing window is on. Then x, y and z are scaled per axis, and `offset_depth` is added to z. The amplitude is passed through. |
| Kernels.SampleAt | ophgen/src/ophPointCloud.cpp:274-283 | Point `i` is `Place` applied to `vertex[3i]`, `vertex[3i+1]`, `vertex[3i+2]` and `color[n_colors·i]`. |
| Kernels.Samples | ophgen/src/ophPointCloud.cpp:273-283 | The points `0..n−1` in loop order. There are `n` of them, or none when `n_points ≤ 0`. |
| PointCloud.PointCloud.ReadPoint | ophgen/src/ophPointCloud.cpp:274-283 | The point and amplitude read for index `i` are the scene's sample `i`. |
| Culling.RawWindow | ophgen/src/ophPointCloud.cpp:339-347 | The unclamped bounds from the point and its half-widths `hx`, `hy`. `x` runs from `floor((pc.x − hx + ss.x/2)/pp.x) + 1` to `floor((pc.x + hx + ss.x/2)/pp.x) + 1`. `y` runs from `pn.y − floor((pc.y + hy + ss.y/2)/pp.y)` to `pn.y − floor((pc.y − hy + ss.y/2)/pp.y)`. The Fresnel kernel computes the same bounds at lines 407-415. |
| Culling.InWindow | ophgen/src/ophPointCloud.cpp:354-356 | Pixel `(x, y)` lies in the half-open ranges `[Xbound[1], Xbound[0])` and `[Ybound[1], Ybound[0])` that the loops run over. |
| Culling.RawWindowOrdered | ophgen/src/ophPointCloud.cpp:339-347 | With positive pitch and non-negative half-widths, each lower bound is at most its upper bound. |
| Culling.RawWindowDegenerate | ophgen/src/ophPointCloud.cpp:407-410 | A zero x half-width gives an x range with no column in it. |
| Culling.Clamp | ophgen/src/ophPointCloud.cpp:349-352 | The clamped window lies in the frame, and holds exactly the pixels of the raw window that are inside the frame. An empty window stays empty. |
| Culling.ClampedSlotInBuffer | ophgen/src/ophPointCloud.cpp:380 | Every pixel of a clamped window has a slot inside `pn.x·pn.y`. |
| Culling.MaxSine | ophgen/src/ophPointCloud.cpp:326-327 | `tx = λ/(2·pp)`, computed per axis. |
| Culling.RSHalfWidth | ophgen/src/ophPointCloud.cpp:329-337 | The RS cone's half-width is non-negative. |
| Culling.RSWindow | ophgen/src/ophPointCloud.cpp:326-352 | The RS window: the raw bounds with half-width `RSHalfWidth` on each axis, clamped to the frame. |
| Culling.FresnelHalfWidth | ophgen/src/ophPointCloud.cpp:397-405 | The Fresnel half-width is non-negative, and zero exactly when `λ·z = 0`. |
| Culling.FresnelWindow | ophgen/src/ophPointCloud.cpp:397-420 | The Fresnel window: the raw bounds with half-width `|λ·z/(2·pp)|` on each axis, clamped to the frame. |
| Culling.FresnelWindowEmptyOnPlane | ophgen/src/ophPointCloud.cpp:397-420 | A point on the hologram plane (`λ·z = 0`) has an empty Fresnel window. |
| Culling.FresnelWindowNonEmpty | ophgen/src/ophPointCloud.cpp:422-431 | A pixel inside the Fresnel window implies `λ·z ≠ 0`, so the kernel's division is then defined. |
| Kernels.PixelX | ophgen/src/ophPointCloud.cpp:359 | `xxx = −ss.x/2 + (xxtr − 1)·pp.x`. The Fresnel kernel uses the same value at line 426, before subtracting `pc.x`. |
| Kernels.PixelY | ophgen/src/ophPointCloud.cpp:360 | `yyy = −ss.y/2 + (pn.y − yytr)·pp.y`. The Fresnel kernel uses the same value at line 427, before subtracting `pc.y`. |
| Kernels.PixelGridSteps | ophgen/src/ophPointCloud.cpp:359-360 | Consecutive pixel coordinates are `pp.x` apart in x and `−pp.y` apart in y. |
| Kernels.FresnelPhase | ophgen/src/ophPointCloud.cpp:426-428 | `p = k·(xxx² + yyy² + 2z²)/(2z)`, where `xxx` and `yyy` are measured from the point. |
| Kernels.FresnelTerm | ophgen/src/ophPointCloud.cpp:426-431 | The Fresnel contribution times `λ·z` is `A·(sin p, −cos p)` at the pixel's phase `p`. |
| Kernels.FresnelPixel | ophgen/src/ophPointCloud.cpp:422-436 | A pixel gets the Fresnel term when it is inside the Fresnel window, and zero otherwise. |
| Kernels.FresnelField | ophgen/src/ophPointCloud.cpp:422-437 | A buffer of `len` slots. Slot `x + y·pn.x` of each in-frame pixel holds `FresnelPixel`. Slots past the frame are zero. |
| Kernels.FresnelFieldAt | ophgen/src/ophPointCloud.cpp:422-437 | Inside the window a pixel gets the Fresnel term, and `λ·z ≠ 0` holds there. Outside the window it gets zero. |
| Kernels.FresnelFieldOutsideWindow | ophgen/src/ophPointCloud.cpp:422-437 | Every slot outside the Fresnel window, or past the frame, is zero. |
| Kernels.FresnelFieldEmpty | ophgen/src/ophPointCloud.cpp:417-424 | An empty Fresnel window contributes the zero field. |
| Kernels.RSCone | ophgen/src/ophPointCloud.cpp:364-374 | The strict cone test: `pc.x − ax < xxx < pc.x + ax` and `pc.y − ay < yyy < pc.y + ay`. Here `ax = |slope(tx)·sqrt((yyy − pc.y)² + z²)|`, and `ay` is the same with `ty` and `xxx − pc.x`. |
| Kernels.RSHit | ophgen/src/ophPointCloud.cpp:354-374 | The pixel lies in the RS window and passes the cone test for `tx`, `ty` at `(xxx, yyy)`. |
| Kernels.RSPixel | ophgen/src/ophPointCloud.cpp:359-382 | A hit gets the RS kernel value at `(xxx, yyy)`, and every other pixel gets zero. |
| Kernels.RSField | ophgen/src/ophPointCloud.cpp:354-385 | A buffer of `len` slots. Slot `x + y·pn.x` of each in-frame pixel holds `RSPixel`. Slots past the frame are zero. |
| Kernels.RSFieldAt | ophgen/src/ophPointCloud.cpp:354-383 | A pixel gets the RS kernel value exactly when it is in the window and within the cone. Otherwise it gets zero. |
| Kernels.RSFieldOutsideWindow | ophgen/src/ophPointCloud.cpp:354-385 | Every slot outside the RS window, or past the frame, is zero. |
| Kernels.FieldsVanishPastFrame | ophgen/src/ophPointCloud.cpp:380-382 | Neither kernel writes a slot at or past `pn.x·pn.y`. |
| Field.PixelIndex | ophgen/src/ophPointCloud.cpp:380 | `xxtr + yytr·pn.x`, the slot both unencoded kernels add to. |
| Field.PixelIndexDecode | ophgen/src/ophPointCloud.cpp:380 | `mod pn.x` and `div pn.x` of an in-frame slot give the pixel back. |
| Field.PixelField | ophgen/src/ophPointCloud.cpp:380-382 | A buffer of `len` slots. Slot `i` of the frame holds the value of pixel `(i mod pn.x, i div pn.x)`, and slots past the frame are zero. |
| Field.PixelFieldAt | ophgen/src/ophPointCloud.cpp:380-382 | Pixel `(x, y)` of the frame finds its own value at slot `x + y·pn.x`, which lies inside the buffer. |
| Field.AddFieldAt | ophgen/src/ophPointCloud.cpp:380-382 | The `+=` of a field onto a buffer adds slot by slot. |
| Scan.Partial | ophgen/src/ophPointCloud.cpp:354-356 | The buffer while the loops stand at a cursor. The column-major order is the RS nest and the row-major order is the Fresnel nest (lines 422-424). Pixels already visited have their value added; the rest are unchanged. |
| PointCloud.PointCloud.DiffractNotEncodedRS | ophgen/src/ophPointCloud.cpp:324-386 | The channel buffer becomes its old value plus the point's RS field. |
| PointCloud.AddRSPixel | ophgen/src/ophPointCloud.cpp:354-383 | One pixel of the RS scan advances the column-major partial sum by one step. |
| PointCloud.PointCloud.DiffractNotEncodedFrsn | ophgen/src/ophPointCloud.cpp:392-439 | The channel buffer becomes its old value plus the point's Fresnel field. The field uses the context's `ss` and `k`. |
| Kernels.PointField | ophgen/src/ophPointCloud.cpp:285-293 | The per-point field has the buffer's length. An unhandled flag contributes zero. |
| Kernels.OtherFlagContributesNothing | ophgen/src/ophPointCloud.cpp:285-293 | Under an unhandled flag the whole channel field is zero. |
| PointCloud.PointCloud.AddPoint | ophgen/src/ophPointCloud.cpp:285-293 | The flag dispatch adds exactly that point's field to the channel buffer. |
| Kernels.ChannelField | ophgen/src/ophPointCloud.cpp:273-294 | The per-point fields of the samples, added in order, with the zero buffer for no samples. |
| Kernels.ChannelFieldIsFieldSum | ophgen/src/ophPointCloud.cpp:273-294 | The channel field is the sum of the per-point fields. |
| Kernels.ChannelFieldOrderFree | ophgen/src/ophPointCloud.cpp:273-294 | Any reordering of the points gives the same channel field. |
| Kernels.ChannelFieldSplits | ophgen/src/ophPointCloud.cpp:273-294 | The field of two point sets together is the sum of their fields. |
| Kernels.ChannelFieldStep | ophgen/src/ophPointCloud.cpp:273-294 | Adding point `i` adds its field to the channel field of points `0..i−1`. |
| Kernels.Accumulated | ophgen/src/ophPointCloud.cpp:273-294 | The buffer after points `0..n−1`, each read by `SampleAt`, have been added to the start value one by one. |
| Kernels.AccumulatedStep | ophgen/src/ophPointCloud.cpp:273-294 | The buffer after point `i` is the buffer before it plus point `i`'s field. |
| Kernels.AccumulatedChannelStep | ophgen/src/ophPointCloud.cpp:273-294 | The identity "accumulated buffer = start + channel field" carries from `i` points to `i+1`. |
| Kernels.AccumulatedIsChannelField | ophgen/src/ophPointCloud.cpp:273-294 | After the point loop, the buffer is its start value plus the channel field of all points. |
| PointCloud.PointCloud.AccumulatePoint | ophgen/src/ophPointCloud.cpp:273-294 | One iteration of the point loop keeps that identity from `i` points to `i+1`. |
| PointCloud.PointCloud.AccumulatePoints | ophgen/src/ophPointCloud.cpp:273-294 | The point loop leaves the buffer equal to its start value plus the field of every point. |
| PointCloud.PointCloud.AccumulateChannel | ophgen/src/ophPointCloud.cpp:273-294 | The channel's buffer becomes its old value plus the channel field of the scene's samples. |
| PointCloud.PointCloud.GenChannel | ophgen/src/ophPointCloud.cpp:262-298 | The context's `k` becomes the channel's wave number, and only that field of the context changes. The channel's buffer gains the channel field. Every other channel's buffer is unchanged. |
| PointCloud.PointCloud.GenCghPointCloudCPU | ophgen/src/ophPointCloud.cpp:235-304 | Only the context's `ss` and `k` change: `ss = pn·pp`, and `k` is the last channel's wave number. Every channel gains its field at its own wavelength. Buffers past the wavelength list are unchanged. |
| Encoding.CentreX | ophgen/src/ophPointCloud.cpp:312 | `xxx = (xxtr + 0.5)·pp.x − ss.x/2`. |
| Encoding.CentreY | ophgen/src/ophPointCloud.cpp:313 | `yyy = ss.y/2 − (yytr + 0.5)·pp.y`. |
| Encoding.EncodedRSTerm | ophgen/src/ophPointCloud.cpp:312-317 | `A·cos(k·(r − xxx·sin θx − yyy·sin θy))`, where `r` is the distance from the point to the pixel centre. |
| Encoding.EncodedRSField | ophgen/src/ophPointCloud.cpp:308-321 | A real buffer of `len` slots. Slot `x + y·pn.x` of each in-frame pixel holds `EncodedRSTerm`. Slots past the frame are zero. |
| Encoding.AddReal | ophgen/src/ophPointCloud.cpp:319 | The `+=` onto `holo_encoded`: each slot of the result is the sum of the two slots. |
| Encoding.EncodedRSFieldAt | ophgen/src/ophPointCloud.cpp:308-321 | Each in-frame pixel of the encoded RS field holds that pixel's tilted cosine term. |
| Encoding.EncodedRSFieldPastFrame | ophgen/src/ophPointCloud.cpp:308-321 | Past `pn.x·pn.y` the encoded RS field is zero. |
| Encoding.EncodedRSFieldRow | ophgen/src/ophPointCloud.cpp:310-320 | Row `y` of the encoded field holds its pixels' terms. |
| Encoding.EncodedRSFieldRows | ophgen/src/ophPointCloud.cpp:308-321 | Every row of the frame holds its pixels' terms. |
| Encoding.CentresSymmetric | ophgen/src/ophPointCloud.cpp:312-313 | The encoded kernel's pixel centres are symmetric about the frame's centre on both axes. |
| PointCloud.AddEncodedRow | ophgen/src/ophPointCloud.cpp:310-320 | The row loop adds the row's terms to exactly that row. |
| PointCloud.AddEncodedRows | ophgen/src/ophPointCloud.cpp:308-321 | The pixel nest adds the field to the first `pn.x·pn.y` samples, and leaves the rest unchanged. |
| PointCloud.PointCloud.DiffractEncodedRS | ophgen/src/ophPointCloud.cpp:306-322 | `holo_encoded` becomes its old value plus the encoded RS field of the point. |
| Encoding.XGrid | ophgen/src/ophPointCloud.cpp:164-165 | `x_o[i] = −ss.x/2 + pp.x·i + pp.x/2`. |
| Encoding.YGrid | ophgen/src/ophPointCloud.cpp:167-168 | `y_o[j] = (ss.y − pp.y) − pp.y·j`. |
| Encoding.GridSteps | ophgen/src/ophPointCloud.cpp:164-168 | The output grids step by `pp.x` in x and by `−pp.y` in y. |
| Encoding.XGridCentred | ophgen/src/ophPointCloud.cpp:164-165 | With `ss = pn·pp`, `x_o` is symmetric about 0. |
| Encoding.YGridSpan | ophgen/src/ophPointCloud.cpp:167-168 | With `ss = pn·pp`, `y_o` runs from `ss.y − pp.y` down to 0, so it is not centred. |
| PointCloud.PointCloud.ColumnGrid | ophgen/src/ophPointCloud.cpp:164-165 | It allocates `x_o` of length `pn.x` holding the x grid. |
| PointCloud.PointCloud.RowGrid | ophgen/src/ophPointCloud.cpp:167-168 | It allocates `y_o` of length `pn.y` holding the y grid. |
| PointCloud.PointCloud.BroadcastColumns | ophgen/src/ophPointCloud.cpp:173-174 | Slot `i` of `xx_o` holds the x grid at column `i mod pn.x`. |
| PointCloud.PointCloud.BroadcastRows | ophgen/src/ophPointCloud.cpp:177-179 | Slot `s` of `yy_o` holds the y grid at row `s div pn.x`. |
| Encoding.XAngle | ophgen/src/ophPointCloud.cpp:198 | `X = π·xx_o[i]·shift.x/pp.x`. |
| Encoding.YAngle | ophgen/src/ophPointCloud.cpp:199 | `Y = π·yy_o[i]·shift.y/pp.y`. |
| Encoding.ShiftFactor | ophgen/src/ophPointCloud.cpp:201 | `cos X·cos Y − sin X·sin Y`, the value the loop writes into the real part of `shift_phase`. Its imaginary part stays 0. |
| Encoding.EncodedSample | ophgen/src/ophPointCloud.cpp:193-203 | An encoded sample is the real part of the round-tripped field times the shift factor. |
| Encoding.EncodedSampleFromGrids | ophgen/src/ophPointCloud.cpp:198-203 | The loop's values, computed from the broadcast grids, give the encoded sample. |
| Encoding.ShiftFactorIsPhaseProduct | ophgen/src/ophPointCloud.cpp:198-201 | The shift factor `cos X·cos Y − sin X·sin Y` is the real part of `e^{iX}·e^{iY}`. |
| Encoding.RampIsLinear | ophgen/src/ophPointCloud.cpp:198-199 | The ramp angles grow linearly: by `π·shift.x` per column, and by `−π·shift.y` per row. |
| Encoding.EncodedSampleIsRamp | ophgen/src/ophPointCloud.cpp:193-203 | Each encoded sample is the round-tripped real part times `Re(e^{i(X₀+c·π·shift.x)}·e^{i(Y₀−r·π·shift.y)})`, where `c, r` are the sample's column and row. |
| Encoding.UnshiftedSampleIsRealPart | ophgen/src/ophPointCloud.cpp:193-203 | With zero spectrum shift, and `cos 0 = 1`, `sin 0 = 0`, the encoder outputs the real part of the round-tripped field. |
| PointCloud.PointCloud.ApplyShift | ophgen/src/ophPointCloud.cpp:193-204 | The output loop writes the encoded sample into each of the first `pn.x·pn.y` slots, and leaves the rest unchanged. |
| PointCloud.PointCloud.EncodeHologram | ophgen/src/ophPointCloud.cpp:137-213 | With no channel-0 buffer nothing changes. Otherwise `encode_size = pn` and `ss = pn·pp`, every in-frame slot of `holo_encoded` holds its encoded sample, and the rest of the buffer is unchanged. |
| Field.PixelIndexInFrame | ophgen/src/ophPointCloud.cpp:380 | The slot `x + y·pn.x` of an in-frame pixel is inside `pn.x·pn.y`. |
| Field.PixelIndexInjective | ophgen/src/ophPointCloud.cpp:380 | Distinct in-frame pixels have distinct slots. |
| LightField.DerivedContext | ophgen/src/ophLightField.cpp:51-56 | The pixel number is views × resolution per axis; the pitch and wavelengths are kept. `ss = pn·pp` and `k·λ = 2π` hold afterwards. The flat size is `nx·ny·rx·ry`. |
| LightField.LightField.ReadLFConfigDerived | ophgen/src/ophLightField.cpp:51-56 | The context becomes the derived context, and nothing else changes. |
| LightField.LightField.InitializeLF | ophgen/src/ophLightField.cpp:224-242 | It allocates `nx·ny` fresh, pairwise distinct view buffers of `rx·ry` samples each. |
| LightField.GatherInBoundsIff | ophgen/src/ophLightField.cpp:233-266 | With the buffers `initializeLF` allocates, the gather reads inside the views exactly when `nx·ny ≤ rx·ry`. |
| LightField.Gathered | ophgen/src/ophLightField.cpp:263-268 | Scratch slot `v` holds view `v`'s sample at position `v` as a real value. The rest of the scratch image stays zero. |
| LightField.GatherPartial | ophgen/src/ophLightField.cpp:263-268 | The scratch image while the gather loops stand at a cursor. Slots already visited hold the gathered value, and the rest keep their start value. |
| LightField.GatherPartialStep | ophgen/src/ophLightField.cpp:263-268 | One step of the gather nest writes exactly one new slot. |
| LightField.GatherPartialEnd | ophgen/src/ophLightField.cpp:263-268 | The finished gather nest gives the gathered image. |
| LightField.LightField.Gather | ophgen/src/ophLightField.cpp:263-268 | The gather nest leaves the scratch buffer equal to the gathered image. |
| LightField.ScatterIndex | ophgen/src/ophLightField.cpp:279 | `nx·rx·ny·idxRy + nx·rx·idxNy + nx·idxRx + idxNx`. |
| LightField.Digits | ophgen/src/ophLightField.cpp:279 | The counters read back from a slot: `idxNx = s mod nx`, `idxRx = (s div nx) mod rx`, `idxNy = (s div nx div rx) mod ny`, and `idxRy = s div nx div rx div ny`. |
| LightField.ScatterIndexNested | ophgen/src/ophLightField.cpp:279 | The output index is three nested row-major pixel indices. |
| LightField.ScatterIndexInBounds | ophgen/src/ophLightField.cpp:279 | Every counter combination indexes inside the `nx·ny·rx·ry` buffer. |
| LightField.ScatterIndexDecode | ophgen/src/ophLightField.cpp:279 | The counters can be decoded back from the output index. |
| LightField.ScatterIndexInjective | ophgen/src/ophLightField.cpp:260-281 | Distinct counter combinations write distinct slots, so no sample is overwritten. |
| LightField.DigitsInRange | ophgen/src/ophLightField.cpp:260-281 | Every slot of the buffer is written by exactly one counter combination, so the scatter is onto. |
| LightField.LFField | ophgen/src/ophLightField.cpp:251 | The output field has `nx·ny·rx·ry` samples. |
| LightField.Spectrum | ophgen/src/ophLightField.cpp:270-271 | Sample `v` of `fft2` followed by `fftwShift`, applied to the gathered scratch image. |
| Numeric.ComplexExp | ophgen/src/ophLightField.cpp:279 | `Complex::exp()`: `e^re·(cos im + i·sin im)`. |
| LightField.DiffuserPhase | ophgen/src/ophLightField.cpp:276-279 | `phase.exp()` of the phase with real part 0 and imaginary part `rand(0, 1, idxRx·idxRy)·2π`. |
| LightField.LFSample | ophgen/src/ophLightField.cpp:276-279 | `FFTLF[idxNx + nx·idxNy]·phase.exp()` for the counters `p`. |
| LightField.LFFieldAt | ophgen/src/ophLightField.cpp:273-281 | The slot of counters `p` holds the transformed, shifted scratch sample of view `p` times the diffuser phase seeded by `idxRx·idxRy`. |
| LightField.SameSeedSameSample | ophgen/src/ophLightField.cpp:276-279 | Two slots with the same view counters and the same product `idxRx·idxRy` hold equal values, although they are distinct slots. |
| LightField.Scattered | ophgen/src/ophLightField.cpp:260-284 | The output while the nest stands at a cursor. Slots whose counters come before it hold their final value, and the rest are still zero. |
| LightField.ScatteredStart | ophgen/src/ophLightField.cpp:251 | Before the nest the output is all zero. |
| LightField.ScatteredStep | ophgen/src/ophLightField.cpp:279 | One store writes exactly the slot of the current counters. |
| LightField.ScatteredCarry | ophgen/src/ophLightField.cpp:260-284 | Finishing an inner loop equals starting the next iteration of the enclosing one. |
| LightField.ScatteredEnd | ophgen/src/ophLightField.cpp:260-284 | After the whole nest, every slot holds its final value. |
| LightField.LightField.ScatterSample | ophgen/src/ophLightField.cpp:276-279 | One iteration of the innermost scatter loop stores one sample. |
| LightField.LightField.ScatterPixel | ophgen/src/ophLightField.cpp:273-281 | The scatter nest of one per-view pixel stores its `nx·ny` samples. |
| LightField.LightField.ConvertPixel | ophgen/src/ophLightField.cpp:262-282 | One per-view pixel gathers, transforms and scatters. The scratch image is the gathered image again afterwards. |
| LightField.LightField.ConvertRow | ophgen/src/ophLightField.cpp:261-283 | One `idxRx` row of the nest stores all its samples. |
| LightField.LightField.ConvertAll | ophgen/src/ophLightField.cpp:260-284 | The whole nest turns the zero buffer into the light-field field. |
| LightField.NewZeros | ophgen/src/ophLightField.cpp:251-255 | A new complex buffer is fresh and all zero. |
| LightField.LightField.ConvertLF2ComplexField | ophgen/src/ophLightField.cpp:245-287 | `RSplane_complex_field` is a fresh buffer equal to `LFField` of the views as they were on entry. |

## Where the code and its documentation differ

The model follows the code in each of these places:

- **`YGridSpan`**: the encoder's documentation calls both output grids
  centred. In the code, `x_o` is centred (`XGridCentred`), but `y_o` runs
  from `ss.y − pp.y` down to 0.
- **`Gathered`**: the light-field documentation has the scratch image
  collect the pixel at `(idxRx, idxRy)` of every view. The code reads view
  `v` at position `v`, whatever `(idxRx, idxRy)` is. So every per-view pixel
  gathers the same image, and the converter needs `nx·ny ≤ rx·ry` to stay
  inside the views (`GatherInBoundsIff`).
- **`GatherInBoundsIff`**: the documentation sizes the two scratch buffers
  `nx·ny`. The code allocates `rx·ry`.
- **`SameSeedSameSample`**: the documentation asks for each (idxRx, idxRy)
  pair to get its own diffuser phase. The code seeds `rand` with the
  product `idxRx·idxRy`. Distinct pairs with equal products share a phase,
  and every pixel with `idxRx = 0` or `idxRy = 0` shares one.
- **`NewPixelNumberLeavesSizeStale`, `NewPixelPitchLeavesSizeStale` and
  `NewWaveLengthLeavesWaveNumberStale`**: the context is documented to keep
  `ss = pn·pp` and `k = 2π/λ` whenever count, pitch or wavelength change.
  The setters write one field only. `ss` is recomputed only by
  `genCghPointCloudCPU`, `encodeHologram` and `readLFConfig`, and `k` only
  by the channel loop and `readLFConfig`.

## Left out

Modelling choices that apply everywhere:

- `double` is modelled as exact `real`. `floor` of an exact quotient can
  differ by one from `floor` of the rounded `double` quotient, so a culling
  window can gain or lose a border pixel in the source. Rounding of every
  kernel value is not modelled either.
- `int` and `uint` are unbounded. The source's `uint idx = 3*i`,
  `n_colors*i`, `pn.x*pn.y`, `nx*ny*rx*ry` and `num_image*resolution_image`
  can wrap for large inputs; the model does not capture that.
- The OpenMP parallel region and its atomic adds are left out. The per-point
  loop is sequential in the model. `ChannelFieldOrderFree` proves that any
  order of the points gives the same field, which is what the atomic adds
  rely on. Concurrency itself is not modelled.
- The foreign numeric functions are uninterpreted fields of `Numerics`, so
  nothing is proved about their values. These are `sin`, `cos`, `sqrt`,
  `exp`, the FFT/shift round trips, `rand`, the single-value `transVW`
  overload, the half-angle slope and the RS kernel value.
- Logging, timing and console output are left out: `LOG`, `cout` and
  `CUR_TIME`.
- XML parsing in `readLFConfig` is left out, as is the image-directory
  loading that fills the views. Only the derived-field block is modelled.
- The GPU path is not part of this model.
- Memory release is left out. `delete[] complexLF, FFTLF;` frees only
  `complexLF`, because of the comma operator, so `FFTLF` leaks. Several
  buffers are allocated without being freed. None of this changes a value
  the model describes.

Operations and their contracts:

- Gen.Context: the source's `OphContext` has no `wave_length` array and no
  `waveNum`, although `ophPointCloud.cpp` reads both. The model adds a
  `waveLength` sequence to the context and uses its length for `waveNum`.
- Gen.Generator.GetContext, Gen.Generator.GetHoloBuffer,
  Gen.Generator.GetEncodedBuffer and Gen.Generator.GetEncodeSize are plain
  field reads, so they carry no contract. What `encode_size` holds is stated
  by `EncodeHologram`.
- Kernels.DiffFlag: the header's `PC_DIFF_FLAG` enum names
  (`PC_DIFF_RS_ENCODED` …) differ from the `PC_DIFF_RS` and
  `PC_DIFF_FRESNEL` values the dispatch uses. The model uses `DiffFlag`,
  which has the two dispatched cases plus `OtherFlag` for every other value.
- PointCloud.PointCloud.TransVW: requires `src[i] ≠ fieldLens` for each
  entry. In the source that entry divides by zero and yields inf or NaN,
  which exact reals cannot represent.
- PointCloud.PointCloud.GenCghPointCloudCPU: requires every wavelength to be
  non-zero and both pixel pitches to be non-zero. Otherwise the source's
  `2π/λ` and its window divisions yield inf or NaN. It also requires a
  buffer of at least `pn.x·pn.y` samples for every channel, which the
  source assumes without a check. Through `ChannelsReady` it also requires
  the channel buffers to be pairwise distinct. The source meets this
  because each channel buffer is a separate allocation. The model needs it
  to state that every other channel's buffer is unchanged.
- PointCloud.PointCloud.GenCghPointCloudCPU: the tilt angles `thetaX` and
  `thetaY` are computed, and passed to `diffractNotEncodedFrsn`, which
  ignores them. The model leaves them out.
- PointCloud.PointCloud.GenChannel: the same non-zero wavelength and pitch
  requirement as `GenCghPointCloudCPU`, and the same pairwise distinct
  channel buffers (`ChannelsReady`). It needs the latter to state that only
  channel `c`'s buffer changes.
- PointCloud.PointCloud.DiffractNotEncodedRS and
  PointCloud.PointCloud.DiffractNotEncodedFrsn: require non-zero pitches,
  for the same reason, and a channel buffer of at least `pn.x·pn.y`
  samples.
- PointCloud.PointCloud.DiffractEncodedRS: requires `holo_encoded` to hold
  `pn.x·pn.y` samples, which the source assumes without a check.
- PointCloud.PointCloud.EncodeHologram: requires `complex_H` to have a
  channel 0 slot, which the source dereferences. It also requires
  `holo_encoded` to hold `pn.x·pn.y` samples and the pitches to be
  non-zero.
- PointCloud.PointCloud.EncodeHologram: `cropx`, `cropx1`, `cropx2`,
  `cropy`, `cropy1` and `cropy2` are computed from `band_limit` and never
  used, so the model leaves them out. The two shift/transform/shift passes
  are one uninterpreted round trip, `encodeRoundTrip`, of the channel-0
  field.
- Encoding.EncodedSample: requires `0 < pn.x`. It is used only for slots
  `i < pn.x·pn.y`, and no such slot exists when `pn.x = 0`.
- LightField.DerivedContext and LightField.LightField.ReadLFConfigDerived:
  require `λ ≠ 0`. Otherwise the source's `2π/λ` is inf or NaN.
- LightField.LightField.InitializeLF: the call to `ophGen::initialize()`
  inside `initializeLF` is not modelled, because its body is not part of
  this model. The old `LF` array is not freed; that part of the source is
  commented out.
- LightField.LightField.InitializeLF: requires `nx·ny` and `rx·ry` to be
  non-negative. With a negative size the source's `new[]` throws
  `std::bad_array_new_length`; the model does not describe that exception.
- LightField.LightField.ConvertLF2ComplexField: when the per-view grid is
  non-empty, it requires `nx·ny ≤ rx·ry` and views that can be read at
  position `v`. Otherwise the source's gather runs past its buffers.
- LightField.LightField.ConvertLF2ComplexField: the model rests on three
  library facts whose bodies are not part of this model:
  - `Complex<Real>` default-constructs to zero. The scratch image and the
    imaginary part of `phase` rely on this.
  - `phase.exp()` returns a new value and leaves `phase` unchanged.
  - `fft2` on `complexLF` only prepares the transform and does not write
    `complexLF`.

  The forward transform plus `fftwShift` is one uninterpreted function,
  `lfSpectrum`, of the gathered image. The converter never calls
  `fftExecute` after `fft2`, unlike `encodeHologram`. The model does not
  decide whether the transform is executed; it only abstracts the result.
