# RayMarchRenderer: resource lifecycle and per-frame dispatch

This project models the CPU side of the `RayMarchRenderer` Unity component. The
component keeps one *generation* of GPU resources in step with the screen size.
A generation is an output render texture, a compute buffer of shape records and
a one-record camera buffer. Every frame the component snapshots the scene into
fixed-layout records, uploads them, sets the ray-march kernel's named
parameters, and dispatches the kernel over a workgroup grid that covers the
screen.

The model has five modules, one file each:

- `Values` (values.dfy): the engine value types the component copies without
  interpreting them. Floats are kept as their 32-bit IEEE-754 bit patterns.
- `Snapshot` (snapshot.dfy): the scene inputs (`Shape`, `CameraView`), the
  record layouts (`ShapeStruct`, `CameraStruct`), and the snapshot loop of
  `DoRayMarch` as a method over an `array`. The method is proved against the
  function `ShapeStructs`.
- `Grid` (grid.dfy): the dispatch grid `((w + 31) / 32, (h + 15) / 16, 1)` in
  C#'s truncating integer division. It proves that the grid covers the image,
  that it is the least grid that does, and that every pixel falls in a group.
- `Gpu` (gpu.dfy): the engine calls as a log of `Event`s, and a tracker
  `Replay` that follows the log. `Replay` rejects a log in any of these cases:
  - it allocates a handle twice;
  - it releases or binds a resource that is not live;
  - it uploads more records than a buffer holds;
  - it dispatches while the output texture, the shape buffer, the camera buffer,
    the shape count or the screen size is missing, stale or mis-sized, or while
    the grid does not cover the texture.

  Over any accepted log it proves resource accounting and that nothing is
  released twice.
- `Renderer` (renderer.dfy): the component as a `class` whose fields are the
  source's fields. Its invariant `Valid()` says four things:
  - the engine accepts the log of calls made so far;
  - exactly the current generation is live, and nothing is live after
    `OnDestroy`;
  - the generation has the recorded screen size, one shape record per shape
    and one camera record;
  - its texture is bound to the kernel's `outTexture` slot.

  Each engine call is one method whose contract gives the tracker's new state
  in closed form. The source's blocks (release, create, upload, bind, tune,
  dispatch) are methods that append exactly their calls to the log.

The engine's queries are parameters:
- Start's kernel index (the result of `FindKernel("RayMarch")`) and its shape
  list (the result of `FindObjectsOfType<Shape>()`);
- the frame's `Screen.width`, `Screen.height` and camera state, taken by
  `InitRenderTexture`, `DoRayMarch` and `Update`;
- the frame's `scene`: the current state of the shapes `Start` found, in the
  same order. The component keeps references to its shapes and reads their
  transforms, colours, tags and flags again every frame. The model stores the
  list found at `Start` only for its length and order, and `DoRayMarch` and
  `Update` upload `ShapeStructs(math, scene)`.

The tuning fields (`epsilon`, `delta`, `fogDistance`, `fogColor`, `maxSteps`,
`maxBounces`) are public, so the Inspector or a script may assign them between
frames. They are the class's `settings` field, which `AssignSettings` assigns,
and each frame sets the values the field holds at that frame.

Unity guarantees two orderings: `Start` runs before any resource exists, and
nothing runs after `OnDestroy`. The model encodes them as preconditions, using
a ghost `destroyed` flag.

Facts about the code that the model keeps:
- The component uploads shape and camera records only; it has no light record.
- `OnDestroy` releases only when a texture exists.
- There is no retry when an allocation fails.
- The shape list is found once, at `Start`, so every generation's shape buffer
  has the length of that list.
- Accounting counts each of the three resources, so while a generation is live
  `Allocations(log) == Releases(log) + 3`.

## Model

| member | source | states |
|---|---|---|
| Snapshot.EncodeFlag | Assets/Scripts/RayMarchRenderer.cs:157 | The record's reflective field is 0 or 1, and it is 1 exactly when the shape is reflective. |
| Snapshot.FlagRoundTrip | Assets/Scripts/RayMarchRenderer.cs:157 | Reading the field back as non-zero recovers the flag. |
| Snapshot.ShapeStructsAt | Assets/Scripts/RayMarchRenderer.cs:145-158 | The snapshot has one record per shape, in input order. Record k has shape k's type and alteration tags, the 0/1 reflective flag, shape k's composed transform and that transform's inverse. |
| Snapshot.ShapeStructOf | Assets/Scripts/RayMarchRenderer.cs:148-157 | One shape's record: the transform composed from its position and rotation, that transform's inverse, half its scale, its colour, its type and alteration tags, and a reflective field that is 0 or 1, and 1 exactly when the shape is reflective. |
| Snapshot.ShapeStructs | Assets/Scripts/RayMarchRenderer.cs:145-158 | The snapshot of a shape list, one `ShapeStructOf` record per shape, front to back. What it means is stated by `ShapeStructsAt` and `ShapeStructsLength`. |
| Snapshot.CameraStructOf | Assets/Scripts/RayMarchRenderer.cs:160 | The camera record: the camera's position and its right, up and forward vectors, copied as they are. |
| Snapshot.ShapeStructsLength | Assets/Scripts/RayMarchRenderer.cs:145 | The snapshot has exactly as many records as there are shapes, the empty scene included. |
| Snapshot.BuildShapeStructs | Assets/Scripts/RayMarchRenderer.cs:144-158 | The loop allocates an array with one record per shape and fills it in index order. The array's contents equal the specification `ShapeStructs`. |
| Grid.CsDiv | Assets/Scripts/RayMarchRenderer.cs:181 | C# division truncates toward zero: for a non-negative dividend the quotient is the floor, for a negative one it is the ceiling. |
| Grid.Groups | Assets/Scripts/RayMarchRenderer.cs:181 | The workgroups along one axis, `(extent + tile - 1) / tile` in C# division. What it means is stated by `GroupsCover`, `GroupsIsCeiling` and `GroupsIsLeast`. |
| Grid.DispatchGrid | Assets/Scripts/RayMarchRenderer.cs:181 | The dispatched grid: `Groups(width, 32)` by `Groups(height, 16)` by 1. What it means is stated by `PixelCovered` and the two concrete sizes. |
| Grid.GroupsCover | Assets/Scripts/RayMarchRenderer.cs:181 | `(extent + tile - 1) / tile` groups of `tile` cover the extent, for every extent. |
| Grid.GroupsIsCeiling | Assets/Scripts/RayMarchRenderer.cs:181 | For a non-negative extent the group count is never negative and covers the extent. It leaves no spare group. An empty extent gets zero groups. |
| Grid.GroupsIsLeast | Assets/Scripts/RayMarchRenderer.cs:181 | No smaller group count covers the extent. |
| Grid.PixelCovered | Assets/Scripts/RayMarchRenderer.cs:181 | Every pixel (px, py) of a width x height image lies in a workgroup of the dispatched grid, and the grid is one group deep. |
| Grid.Grid800x600 | Assets/Scripts/RayMarchRenderer.cs:181 | An 800 x 600 screen dispatches (25, 38, 1) groups. |
| Grid.Grid64x64 | Assets/Scripts/RayMarchRenderer.cs:181 | A 64 x 64 screen dispatches (2, 4, 1) groups. |
| Gpu.TextInjective | Assets/Scripts/RayMarchRenderer.cs:130-178 | Two parameter names are equal exactly when their kernel-side strings are equal. |
| Gpu.StepHandles | Assets/Scripts/RayMarchRenderer.cs:101-138 | In one accepted call, an allocation takes a handle never used before and makes it live. A release ends a live handle. No other call touches the used handles or the live resources. |
| Gpu.LiveWasAllocated | Assets/Scripts/RayMarchRenderer.cs:125-138 | Every live resource was allocated by the log. |
| Gpu.Accounting | Assets/Scripts/RayMarchRenderer.cs:97-138 | In every accepted log, allocations = releases + the number of live resources. |
| Gpu.GenerationBalance | Assets/Scripts/RayMarchRenderer.cs:108-139 | While exactly one generation of three resources is live, allocations = releases + 3. |
| Gpu.StaysReleased | Assets/Scripts/RayMarchRenderer.cs:113-119 | A released handle is never live again, because handles are never reused. |
| Gpu.ReleasedAtMostOnce | Assets/Scripts/RayMarchRenderer.cs:97-119 | No handle is released twice in an accepted log: there is no double free. |
| Gpu.DispatchesWereReady | Assets/Scripts/RayMarchRenderer.cs:181 | At every dispatch in an accepted log, the output texture and both buffers were live and the shape count matched the shape buffer. The camera buffer held one record, the screen size matched the texture, and the grid covered the texture. |
| Gpu.CountsAppend | Assets/Scripts/RayMarchRenderer.cs:97-138 | Allocation and release counts add up over consecutive pieces of a log. |
| Gpu.KindCounts | Assets/Scripts/RayMarchRenderer.cs:97-138 | A run of calls that are all allocations, all releases, or neither counts accordingly. |
| Renderer.FrameReady | Assets/Scripts/RayMarchRenderer.cs:166-181 | Suppose a live w x h texture is bound to `outTexture` and the buffers are live with the right sizes. Then the frame's bindings make the dispatch over `DispatchGrid(w, h)` one the tracker accepts. |
| Renderer.RecreationOrder | Assets/Scripts/RayMarchRenderer.cs:110-138 | A recreation releases the three old resources and allocates three new ones. Every release comes before every allocation. |
| Renderer.FirstCreation | Assets/Scripts/RayMarchRenderer.cs:124-138 | The first creation releases nothing and allocates the texture and both buffers. |
| Renderer.FrameContents | Assets/Scripts/RayMarchRenderer.cs:159-181 | A frame allocates and frees nothing. It uploads the snapshot and exactly one camera record, sets `shapeCount` to the shape count, and ends with the dispatch over the grid. |
| Renderer.RayMarchRenderer.Valid | Assets/Scripts/RayMarchRenderer.cs:70-75 | The object invariant over the fields. The three resource fields are set together, and the engine accepts the log. Exactly the current generation is live, and nothing after `OnDestroy`. The texture has the recorded screen size and is bound to `outTexture`. The shape buffer holds one record per shape and the camera buffer one record. |
| Renderer.RayMarchRenderer.NeedsResources | Assets/Scripts/RayMarchRenderer.cs:110 | Line 110's condition: there is no texture, or the recorded screen size differs from the current one. |
| Renderer.RayMarchRenderer.constructor | Assets/Scripts/RayMarchRenderer.cs:63-75 | Before Start: the kernel index is -1, there are no shapes and no resources, the screen size is (0, 0), the log is empty, and the invariant holds. |
| Renderer.RayMarchRenderer.Start | Assets/Scripts/RayMarchRenderer.cs:78-85 | Records the kernel index and the scene's shapes, and keeps the invariant. |
| Renderer.RayMarchRenderer.CreateTexture | Assets/Scripts/RayMarchRenderer.cs:125-127 | Allocates a fresh texture handle of size w x h. |
| Renderer.RayMarchRenderer.SetTextureCall | Assets/Scripts/RayMarchRenderer.cs:130 | Binds a live texture to a kernel slot. |
| Renderer.RayMarchRenderer.BindScreenMaterialCall | Assets/Scripts/RayMarchRenderer.cs:133-135 | Shows a live texture on the screen; the tracker's state is unchanged. |
| Renderer.RayMarchRenderer.CreateBuffer | Assets/Scripts/RayMarchRenderer.cs:137-138 | Allocates a fresh buffer handle with the given element count. |
| Renderer.RayMarchRenderer.ReleaseTextureCall | Assets/Scripts/RayMarchRenderer.cs:115 | Releases a live texture, which is no longer live afterwards. |
| Renderer.RayMarchRenderer.DisposeBufferCall | Assets/Scripts/RayMarchRenderer.cs:117-118 | Disposes a live buffer, which is no longer live afterwards. |
| Renderer.RayMarchRenderer.SetShapeDataCall | Assets/Scripts/RayMarchRenderer.cs:159 | Uploads at most as many shape records as the live shape buffer holds. |
| Renderer.RayMarchRenderer.SetCameraDataCall | Assets/Scripts/RayMarchRenderer.cs:161 | Uploads at most as many camera records as the live camera buffer holds. |
| Renderer.RayMarchRenderer.SetBufferCall | Assets/Scripts/RayMarchRenderer.cs:167-168 | Binds a live buffer to a kernel slot. |
| Renderer.RayMarchRenderer.SetIntCall | Assets/Scripts/RayMarchRenderer.cs:169 | Sets a named integer parameter. |
| Renderer.RayMarchRenderer.SetIntsCall | Assets/Scripts/RayMarchRenderer.cs:170 | Sets a named integer vector parameter. |
| Renderer.RayMarchRenderer.SetFloatCall | Assets/Scripts/RayMarchRenderer.cs:171-175 | Sets a named float parameter; the tracker's state is unchanged. |
| Renderer.RayMarchRenderer.SetFloatsCall | Assets/Scripts/RayMarchRenderer.cs:176 | Sets a named float vector parameter; the tracker's state is unchanged. |
| Renderer.RayMarchRenderer.DispatchCall | Assets/Scripts/RayMarchRenderer.cs:181 | Dispatches only when the kernel's slots are ready, and counts one dispatch. |
| Renderer.RayMarchRenderer.AssignSettings | Assets/Scripts/RayMarchRenderer.cs:63-68 | An assignment to the public tuning fields replaces all six values and keeps the invariant. The next frame's parameters are the new values. |
| Renderer.RayMarchRenderer.ReleaseGeneration | Assets/Scripts/RayMarchRenderer.cs:99-105 | The `if (renderTexture)` block: afterwards nothing is live and the used handles are unchanged. The calls appended are the texture's release and both disposals, or nothing when there was no texture. |
| Renderer.RayMarchRenderer.CreateOutput | Assets/Scripts/RayMarchRenderer.cs:124-135 | A fresh w x h texture becomes live, bound to `outTexture` and shown on the screen, in that order. |
| Renderer.RayMarchRenderer.CreateBuffers | Assets/Scripts/RayMarchRenderer.cs:137-138 | A fresh shape buffer with one record per shape and a fresh one-record camera buffer become live. |
| Renderer.RayMarchRenderer.CreateGeneration | Assets/Scripts/RayMarchRenderer.cs:124-138 | Exactly the three new resources become live, at three fresh handles, and the texture is bound to `outTexture`. |
| Renderer.RayMarchRenderer.Adopt | Assets/Scripts/RayMarchRenderer.cs:122-138 | The fields afterwards name the new screen size and the three new resources. |
| Renderer.RayMarchRenderer.Generate | Assets/Scripts/RayMarchRenderer.cs:121-138 | Starting from a state where nothing is live, it creates a generation of the new size and re-establishes the invariant. |
| Renderer.RayMarchRenderer.Recreate | Assets/Scripts/RayMarchRenderer.cs:111-139 | The old generation, if any, is released in full before anything is allocated. Then a generation of size w x h with one shape record per shape is created at fresh handles. |
| Renderer.RayMarchRenderer.LiveBalance | Assets/Scripts/RayMarchRenderer.cs:108-139 | While a generation exists, allocations = releases + 3. |
| Renderer.RayMarchRenderer.InitRenderTexture | Assets/Scripts/RayMarchRenderer.cs:108-140 | It recreates iff there is no texture or the screen size changed: it releases the old generation, if any, then creates the new one. Otherwise it changes nothing. Afterwards the screen size and texture size are (w, h), the shape buffer holds one record per shape and the camera buffer holds one. A second call at the same size needs nothing (idempotence), and allocations = releases + 3. |
| Renderer.RayMarchRenderer.UploadSnapshot | Assets/Scripts/RayMarchRenderer.cs:144-161 | Uploads the snapshot `ShapeStructs(math, scene)` of the shapes' state at this frame, then the single camera record. |
| Renderer.RayMarchRenderer.BindInputs | Assets/Scripts/RayMarchRenderer.cs:167-170 | Binds both buffers and sets `shapeCount` to the number of shapes and `screenSize` to (w, h). |
| Renderer.RayMarchRenderer.SetProjection | Assets/Scripts/RayMarchRenderer.cs:164-172 | Sets `tangent` to the tangent of half the field of view, and `aspect`. |
| Renderer.RayMarchRenderer.SetTolerances | Assets/Scripts/RayMarchRenderer.cs:173-174 | Sets `epsilon` and `delta` from the tuning fields. |
| Renderer.RayMarchRenderer.SetFog | Assets/Scripts/RayMarchRenderer.cs:175-176 | Sets `fogDistance`, and `fogColor` to the colour's red, green and blue channels. |
| Renderer.RayMarchRenderer.SetStepLimits | Assets/Scripts/RayMarchRenderer.cs:177-178 | Sets `maxSteps` and `maxBounces` from the tuning fields. |
| Renderer.RayMarchRenderer.SetTuning | Assets/Scripts/RayMarchRenderer.cs:173-178 | Sets the six tuning parameters from the tuning fields' current values, in source order. |
| Renderer.RayMarchRenderer.SetShaderData | Assets/Scripts/RayMarchRenderer.cs:164-178 | Sets all twelve kernel parameters in source order. |
| Renderer.RayMarchRenderer.RunFrame | Assets/Scripts/RayMarchRenderer.cs:142-182 | The frame's calls in source order: the upload of the shapes' current state and the camera record, the parameters, then one dispatch over `DispatchGrid(w, h)`. Together they leave the kernel's slots ready for that dispatch. |
| Renderer.RayMarchRenderer.DoRayMarch | Assets/Scripts/RayMarchRenderer.cs:142-182 | Against the current generation it appends exactly the frame's calls for the shapes' state at this frame, and counts one dispatch, keeping the invariant. |
| Renderer.RayMarchRenderer.Update | Assets/Scripts/RayMarchRenderer.cs:88-95 | While the kernel index is -1 nothing changes at all. Otherwise the resource check runs before the frame, the output matches the screen, the shapes' state at this frame is uploaded, and exactly one dispatch is made. |
| Renderer.RayMarchRenderer.OnDestroy | Assets/Scripts/RayMarchRenderer.cs:97-106 | Releases the live generation, if any. Afterwards nothing is live and allocations = releases. |

## Left out

- Floating-point arithmetic is not modelled. The matrix product
  `Translate * Rotate`, `Matrix4x4.Inverse`, `localScale / 2` and
  `Mathf.Tan(fov * Deg2Rad / 2)` are functions supplied in `EngineMath`; the
  model only proves that their results reach the right record fields and
  parameters.
- Floats are opaque 32-bit patterns. The tuning defaults (0.0001f, 500,
  Color(0.2f, 0.2f, 0.2f, 1)) are written as their IEEE-754 bit patterns in
  `Renderer.DefaultSettings`.
- Unity's internals are not modelled. Texture formats, the depth bits,
  `enableRandomWrite`, strides from `Marshal.SizeOf`, GPU memory and the
  kernel's execution are outside the model.
- The tracker `Gpu.Replay` is a safety specification that the component meets,
  not a description of Unity. Unity performs, or only logs an error for,
  several calls the tracker rejects:
  - releasing or disposing a resource that is not live;
  - an upload longer than the buffer;
  - `SetTexture`, `BindScreenMaterial` or `SetBuffer` on a resource that is not
    live;
  - a dispatch with a mismatched shape count, a `screenSize` that differs from
    the texture, or a grid that does not cover it.

  The model proves that the component never makes such a call.
- Allocation failures are not modelled: every allocation succeeds. The code has
  no recovery path.
- The screen `Material` created on each recreation is never destroyed by the
  code. The model records only the rebinding (`BindScreenMaterial`), not the
  Material objects.
- `ReleaseTexture` stands for `RenderTexture.Release()` (lines 101 and 115),
  which frees the texture's hardware surface. The old `RenderTexture` object
  itself is never destroyed, just like the `Material`. `Accounting` counts
  surfaces and buffers. It does not say that no engine object leaks.
- Zero shapes: the model allocates a shape buffer of zero records and
  dispatches every frame. Unity refuses a zero-count `ComputeBuffer`, which is
  engine behaviour the code does not show. With no shapes, line 137 therefore
  throws after the texture has been created and bound. `shapeBuffer` stays
  null and no later frame recreates anything, because the size has not
  changed. Every later `DoRayMarch` then fails at line 159. The model does not
  capture this failure path.
- `RayStruct` (lines 31-41) is declared but never used by the component, so it
  has no counterpart.
- The public `shader`, `realCamera`, `screenCamera` and `screen` references and
  the kernel itself are not part of this model.
- `CameraControl.cs`, `TestScript.cs` and `ScreenQuad.cs` are not part of this
  model. `Shape.cs` appears only as the `Shape` input datatype.
- `FindKernel` and `FindObjectsOfType` are engine queries; their results are
  parameters of `Start`. The shapes' per-frame state is the `scene` parameter
  of `Update` and `DoRayMarch`.
- Grid.Groups: C#'s 32-bit `int` is modelled as unbounded. `Screen.width + 31`
  overflows only for widths above 2^31 - 32, which no screen has.
- The `Start`-before-resources and nothing-after-`OnDestroy` orderings are
  engine guarantees, stated as preconditions.
