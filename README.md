# ScratchImage stroke pipeline, modelled in Dafny

This project models the CPU side of a Unity "scratch-off" image. While the user drags
the pointer over a masked image, each drag segment is resampled into evenly spaced
brush stamps. The stamps are packed into instanced draws of at most 200 instances and
recorded in a command buffer. That buffer is submitted to paint a persistent mask
texture. Around this sit a mouse state machine (`CheckInput`), a dirty flag that decides
when a segment is painted, a reset that clears the mask, and a statistics read-out
driven by a compute shader.

Two components are modelled:

- `ScratchImage` (module `Scratch`, file `scratch_image.dfy`) is the full component.
- `PaintOnRT` (module `PaintTest`, file `paint_on_rt.dfy`) is a test variant. It
  repaints one fixed segment into a freshly cleared green 600x600 texture every frame.

Both share these modules:

- `Geometry`: vectors, the `Matrix4x4.TRS` record, the unit quad.
- `Commands`: the recorded command values.
- `Stroke`: the resampling and batching specification and its lemmas, plus
  `Stroke.EmitStamps`. This is the one array loop that both `BuildCommands` methods run
  over their 200-slot instance buffer. The two source loops are identical apart from
  field names.

How the engine appears in the model:

- GPU work is a list of recorded values: `SetRenderTarget`, `ClearRenderTarget`,
  `SetViewProjectionMatrices` and `DrawMeshInstanced(instances)`. A draw keeps a copy of
  the first `instCount` matrices of the buffer, so its instance count is `|instances|`.
- `Graphics.ExecuteCommandBuffer` appends the current list to the field `executed`.
- The statistics shader's buffer upload, dispatch and readback are appended to
  `computeLog`. The value the GPU writes back is a parameter of `GetStatData`.
- Engine and library inputs are parameters:
  - the mouse buttons;
  - the pointer's local position;
  - the kernel index `FindKernel` returns;
  - the segment's `magnitude` and `normalized` direction, as `len` and `dir`.
    `Geometry.Measures` ties `len` and `dir` to `endPos - beginPos`: `len` is
    non-negative, `len * len` is the squared length, `dir * len` gives the vector back,
    and `dir` is zero when `len` is zero.
- Positions, lengths and steps are exact `real`s.

Behaviour of the code worth knowing:

- The bounds test in `CheckInput` compares `y` with both the mask width and the mask
  height, and bounds `x` only below (ScratchImage.cs line 292). A point to the right of
  the mask is therefore accepted. `Scratch.RejectionIgnoresRightEdge` states this.
  When the mask is narrower than it is tall, the same test rejects points inside the
  mask whose `y` lies in `maskSize.x <= y < maskSize.y`.
- Without a statistics shader, `GetStatData` logs an error and returns a zero
  `StatData`; the component keeps running.
- The statistics are the pair `nonZeroCount` / `pixelValSum`. `Test.cs` reads
  `fillPercent` and `avgVal`, which `StatData` does not declare.
- `PaintOnRT` replaces a missing `brushTex` with white but never puts the texture on its
  material.

## Model

| member | source | states |
|---|---|---|
| `Geometry.UnitQuad` | Assets/Scripts/ScratchImage.cs:201-219 | four distinct vertices at the corners of the unit square in the z = 0 plane, UVs equal to the positions, the triangles (0,1,2) and (3,2,1) with every index below the vertex count; each triangle has three distinct corners, the two share exactly the diagonal (0,1)-(1,0), and together they use all four corners |
| `Commands.PaintContext` | Assets/Scripts/ScratchImage.cs:257-268 | the preamble starts with SetRenderTarget and ends with SetViewProjection; it has a ClearRenderTarget with the given colour exactly when a clear is requested, and no draws |
| `Stroke.StampCount` | Assets/Scripts/ScratchImage.cs:168-186 | the stamp count is exactly the number of offsets 0, step, 2*step, ... that are at most `len`; this equals floor(len/step) + 1 for `len >= 0` (so one stamp for a zero-length segment) and 0 for negative `len` |
| `Stroke.StampPlacement` | Assets/Scripts/ScratchImage.cs:181-185 | stamp i is shifted by half a brush in x and y from the path point `begin + dir*(i*step)`; it has identity rotation, uniform scale `brushSize` and z = 0 |
| `Stroke.BatchesShape` | Assets/Scripts/ScratchImage.cs:173-191 | every draw carries 1 to 200 instances; every draw but the last carries exactly 200; the draws carry exactly the stamps, in order (they concatenate to the stamp sequence); there are ceil(K/200) draws |
| `Stroke.LastBatch` | Assets/Scripts/ScratchImage.cs:188-191 | the final draw carries K mod 200 instances, or 200 when 200 divides K; it is never empty |
| `Stroke.StampsFollowSegment` | Assets/Scripts/ScratchImage.cs:164-186 | each stamp centre lies on the segment from begin to end, at a fraction in [0,1]; the last stamp is less than one step short of the end; a zero-length segment gets exactly one stamp, centred on begin |
| `Stroke.StrokeDraws` | Assets/Scripts/ScratchImage.cs:164-191 | for a segment of length `len >= 0`: K = floor(len/step)+1 stamps, at least one draw and ceil(K/200) in all, the draw counts sum to K, the draws concatenate to the stamp sequence, full draws before a non-empty last one |
| `Stroke.SampleDrags` | Assets/Scripts/ScratchImage.cs:173-191 | a 100-unit segment with step 5 gets 21 stamps in one draw; a 2000-unit segment gets 401 stamps in three draws, the last carrying one |
| `Stroke.EmitStamps` | Assets/Scripts/ScratchImage.cs:168-191 | the `while (offset <= len)` loop over the 200-slot array writes only in bounds and appends exactly the batched stamps of the segment to the command list |
| `Scratch.ButtonStatus` | Assets/Scripts/ScratchImage.cs:275-282 | the mouse status is down exactly when pressed this frame; hold when held and not pressed; up when released and neither pressed nor held |
| `Scratch.RejectionIgnoresRightEdge` | Assets/Scripts/ScratchImage.cs:292 | the bounds test as written does not depend on x once x >= 0, so a point to the right of the mask is accepted |
| `Scratch.DistanceComparison` | Assets/Scripts/ScratchImage.cs:302 | for the true distance d, `d > moveThreshold` is exactly the squared-distance test the model uses |
| `Scratch.TruncateToInt` | Assets/Scripts/ScratchImage.cs:225 | the texture size is the float size truncated toward zero |
| `Scratch.GroupCount` | Assets/Scripts/ScratchImage.cs:115 | `size / 8` is the number of whole 8-texel groups (C# truncating division), so the dispatch never covers more than the texture |
| `Scratch.ScratchImage.constructor` | Assets/Scripts/ScratchImage.cs:121-125 | Start = Init then ResetMask: the 200-slot instance array, an orthographic projection 0..width, 0..height, the unit quad; kernel -1 exactly when no statistics shader is assigned; then the clearing preamble is submitted once and no segment is pending |
| `Scratch.ScratchImage.ResetMask` | Assets/Scripts/ScratchImage.cs:94-99 | records the preamble with a clear to transparent, submits it, and drops any pending segment |
| `Scratch.ScratchImage.GetStatData` | Assets/Scripts/ScratchImage.cs:105-119 | kernel -1: returns zero and issues nothing; otherwise it uploads a zeroed counter, dispatches (width/8, height/8, 1) groups, reads back, and returns what was read back |
| `Scratch.ScratchImage.LateUpdate` | Assets/Scripts/ScratchImage.cs:147-154 | with a pending segment: submits exactly the list BuildCommands recorded and moves beginPos to endPos, so consecutive segments chain; without one: nothing changes |
| `Scratch.ScratchImage.BuildCommands` | Assets/Scripts/ScratchImage.cs:156-195 | returns whether a segment was pending; if none, nothing changes; otherwise the list is the preamble without a clear followed by the batched stamps of the segment, the material gets the brush (white when none) and the alpha, and the segment is no longer pending |
| `Scratch.ScratchImage.SetupPaintContext` | Assets/Scripts/ScratchImage.cs:257-268 | the list is emptied, then SetRenderTarget, a clear to transparent exactly when `clearRT`, then SetViewProjection |
| `Scratch.ScratchImage.CheckInput` | Assets/Scripts/ScratchImage.cs:270-315 | no camera, no button or a rejected point: nothing changes; down sets begin and last point, not dirty; hold sets end, last point and dirty only when moved strictly beyond the threshold; up always sets all three; input never clears dirty |
| `PaintTest.BrushOrWhite` | Assets/Scripts/PaintOnRT.cs:70-71 | a missing brush becomes the white texture and an assigned one is kept, so a second replacement changes nothing |
| `PaintTest.PaintOnRT.constructor` | Assets/Scripts/PaintOnRT.cs:9-38 | the component before Start: configuration as given, enabled, nothing recorded, no segment pending |
| `PaintTest.PaintOnRT.Start` | Assets/Scripts/PaintOnRT.cs:40-58 | without a mask image it only disables the component; otherwise a fresh 200-slot array, a 600x600 target with its projection, the green-clearing preamble, the brush defaulted, and no segment pending |
| `PaintTest.PaintOnRT.Init` | Assets/Scripts/PaintOnRT.cs:127-154 | the unit quad and the orthographic projection of the texture size |
| `PaintTest.PaintOnRT.ResetCB` | Assets/Scripts/PaintOnRT.cs:60-72 | the list is emptied, then SetRenderTarget, a clear to green exactly when `clearRT`, then SetViewProjection; a missing brush becomes white |
| `PaintTest.PaintOnRT.LateUpdate` | Assets/Scripts/PaintOnRT.cs:75-82 | every frame: both ends reset to the configured offsets, and a list beginning SetRenderTarget, clear to green, SetViewProjection, followed by the segment's batched stamps, is submitted |
| `PaintTest.PaintOnRT.BuildCommands` | Assets/Scripts/PaintOnRT.cs:84-125 | returns whether a segment was pending; if none, nothing changes; otherwise the ends are overwritten with offsetFrom and offsetTo and the list is the green-clearing preamble followed by the batched stamps (K = floor(len/precision)+1), and nothing is pending afterwards |

## Left out

- What the GPU does with the commands (rasterising stamps, blending into the mask, clearing). Commands are recorded values only.
- The compute shader's reduction. What the readback returns is a parameter of `GetStatData`.
- `Matrix4x4.TRS` and `Matrix4x4.Ortho` are kept as records of their arguments, not as matrices.
- `magnitude`, `normalized` and `Vector2.Distance` involve square roots, which are not modelled. The segment length and direction are inputs constrained by `Geometry.Measures`, and the distance test is on the squared distance (`Scratch.DistanceComparison`). Unity's rule that `normalized` returns zero below a magnitude of 1e-5 is not modelled.
- Float rounding of the accumulated `offset`: positions, offsets and lengths are exact reals. The stamp count `floor(len/step) + 1` holds only under that idealisation.
- Input capture (`Input.GetMouseButton*`, `Input.mousePosition`, `ScreenPointToLocalPointInRectangle`): button states and the local point are parameters of `CheckInput`. `Update` only forwards to `CheckInput` and has no member of its own.
- Resource lifecycle (`OnDestroy`, `Destroy`, `Dispose`, `Release`), render-texture settings (anti-aliasing, format, mips), `UploadMeshData`, shader property-id lookups, material creation from the shader resource, `enableInstancing`, assigning the texture to the mask image's material, the statistics shader's `SetTexture`/`SetInt`/`SetBuffer` binding, and `Debug.LogError`: engine plumbing with no effect on the recorded commands.
- Scratch.ScratchImage.constructor assumes `maskImage` and `paintMaterial` are assigned. The source dereferences both without a guard in `Init` (ScratchImage.cs:222, 235, 237) and again in `BuildCommands` (:161), so with either one missing `Start` throws part-way through and leaves the component half-initialised; that failure path is not modelled.
- Scratch.ScratchImage.constructor and PaintTest.PaintOnRT.constructor require `paintStep > 0` and `precision > 0`. The source excludes a non-positive step only through the editor's range attribute, and for a step <= 0 with `len >= 0` its `while (offset <= len)` loop (ScratchImage.cs:173, PaintOnRT.cs:102) never terminates, so that case is not modelled.
- Inspector fields are constants of the model. Changing them at run time is not modelled.
- `Test.cs` (UI buttons and a 0.1-second polling coroutine) is presentation only.
