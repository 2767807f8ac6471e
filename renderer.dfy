/** The RayMarchRenderer component: it keeps one generation of GPU resources
    (output texture, shape buffer, camera buffer) in step with the screen size,
    and every frame uploads the scene snapshot, sets the kernel's parameters and
    dispatches the kernel. Every engine call it makes is appended to `log`;
    the tracker of module Gpu judges that log. */
module Renderer {
  import opened Values
  import opened Snapshot
  import opened Gpu
  import Grid

  /** A pair of integers; the screen size defaults to (0, 0). */
  datatype Vector2Int = Vector2Int(x: int, y: int)

  /** A reference to a created render texture, and the size it was created with. */
  datatype TextureRef = TextureRef(handle: nat, width: int, height: int)

  /** A reference to a compute buffer, and the element count it was created with. */
  datatype BufferRef = BufferRef(handle: nat, count: int)

  /** The component's public tuning fields. */
  datatype Settings = Settings(
    epsilon: Float32,
    delta: Float32,
    fogDistance: Float32,
    fogColor: Color,
    maxSteps: int,
    maxBounces: int)

  /** The initial values of the tuning fields: 0.0001f, 0.0001f, 500,
      Color(0.2f, 0.2f, 0.2f, 1), 128 and 4, as IEEE-754 bit patterns for the
      floats. The constructor receives these unless the inspector changes them. */
  const DefaultSettings := Settings(
    0x38D1_B717, 0x38D1_B717, 0x43FA_0000,
    Color(0x3E4C_CCCD, 0x3E4C_CCCD, 0x3E4C_CCCD, 0x3F80_0000),
    128, 4)

  /** The calls that free one generation: the texture, then both buffers. */
  function ReleaseEvents(t: TextureRef, sb: BufferRef, cb: BufferRef): seq<Event>
  {
    [ReleaseTexture(t.handle), DisposeBuffer(sb.handle), DisposeBuffer(cb.handle)]
  }

  /** The calls that create a generation whose handles start at `base`. */
  function CreateEvents(kernel: int, base: nat, w: int, h: int, shapeCount: int): seq<Event>
  {
    [AllocTexture(base, w, h), SetTexture(kernel, OutTexture, base), BindScreenMaterial(base),
     AllocBuffer(base + 1, ShapeRecords, shapeCount), AllocBuffer(base + 2, CameraRecords, 1)]
  }

  /** The two uploads of one frame: the shape records, then the one camera record. */
  function UploadEvents(sb: nat, cb: nat, records: seq<ShapeStruct>, camera: CameraView): seq<Event>
  {
    [SetShapeData(sb, records), SetCameraData(cb, [CameraStructOf(camera)])]
  }

  /** The kernel inputs one frame binds: both buffers, the shape count and the screen size. */
  function BindEvents(kernel: int, sb: nat, cb: nat, shapeCount: int, w: int, h: int): seq<Event>
  {
    [SetBuffer(kernel, Shapes, sb),
     SetBuffer(kernel, Camera, cb),
     SetInt(ShapeCount, shapeCount),
     SetInts(ScreenSize, [w, h])]
  }

  /** The projection values one frame sets: the half-angle tangent and the aspect ratio. */
  function ProjectionEvents(camera: CameraView, tan: Float32): seq<Event>
  {
    [SetFloat(Tangent, tan), SetFloat(Aspect, camera.aspect)]
  }

  /** The hit distance and the normal-estimation step. */
  function ToleranceEvents(config: Settings): seq<Event>
  {
    [SetFloat(Epsilon, config.epsilon), SetFloat(Delta, config.delta)]
  }

  /** The fog distance and the fog colour's red, green and blue channels. */
  function FogEvents(config: Settings): seq<Event>
  {
    [SetFloat(FogDistance, config.fogDistance),
     SetFloats(FogColor, [config.fogColor.r, config.fogColor.g, config.fogColor.b])]
  }

  /** The step and bounce limits. */
  function StepLimitEvents(config: Settings): seq<Event>
  {
    [SetInt(MaxSteps, config.maxSteps), SetInt(MaxBounces, config.maxBounces)]
  }

  /** The tuning values one frame sets, in the order they are set. */
  function TuningEvents(config: Settings): seq<Event>
  {
    ToleranceEvents(config) + FogEvents(config) + StepLimitEvents(config)
  }

  /** The kernel parameters one frame sets, in the order they are set. */
  function ParameterEvents(kernel: int, sb: nat, cb: nat, camera: CameraView, tan: Float32,
                           config: Settings, shapeCount: int, w: int, h: int): seq<Event>
  {
    BindEvents(kernel, sb, cb, shapeCount, w, h) + ProjectionEvents(camera, tan) + TuningEvents(config)
  }

  /** The calls of one DoRayMarch: the uploads, the parameters, the dispatch. */
  function FrameEvents(kernel: int, sb: nat, cb: nat, records: seq<ShapeStruct>, camera: CameraView,
                       tan: Float32, config: Settings, shapeCount: int, w: int, h: int): seq<Event>
  {
    var grid := Grid.DispatchGrid(w, h);
    UploadEvents(sb, cb, records, camera)
    + ParameterEvents(kernel, sb, cb, camera, tan, config, shapeCount, w, h)
    + [Dispatch(kernel, grid.x, grid.y, grid.z)]
  }

  /** The tracker's state after BindEvents. */
  function BindState(s: GpuState, kernel: int, sb: nat, cb: nat, shapeCount: int, w: int, h: int): GpuState
  {
    s.(buffers := s.buffers[Slot(kernel, Shapes) := sb][Slot(kernel, Camera) := cb],
       ints := s.ints[ShapeCount := shapeCount],
       vectors := s.vectors[ScreenSize := [w, h]])
  }

  /** The tracker's state after TuningEvents: only the integer values are tracked. */
  function TuningState(s: GpuState, config: Settings): GpuState
  {
    s.(ints := s.ints[MaxSteps := config.maxSteps][MaxBounces := config.maxBounces])
  }

  /** The tracker's state after one frame's parameters. */
  function FrameState(s: GpuState, kernel: int, sb: nat, cb: nat, shapeCount: int,
                      w: int, h: int, config: Settings): GpuState
  {
    TuningState(BindState(s, kernel, sb, cb, shapeCount, w, h), config)
  }

  /** With a live w x h texture bound to the output slot and live buffers of
      the right sizes, the frame's bindings make the dispatch over
      DispatchGrid(w, h) safe. */
  lemma FrameReady(s: GpuState, kernel: int, tex: nat, sb: nat, cb: nat, shapeCount: int,
                   w: int, h: int, config: Settings)
    requires Slot(kernel, OutTexture) in s.textures && s.textures[Slot(kernel, OutTexture)] == tex
    requires tex in s.live && s.live[tex] == Texture(w, h)
    requires sb in s.live && s.live[sb] == Buffer(ShapeRecords, shapeCount)
    requires cb in s.live && s.live[cb] == Buffer(CameraRecords, 1)
    ensures var grid := Grid.DispatchGrid(w, h);
            DispatchReady(FrameState(s, kernel, sb, cb, shapeCount, w, h, config), kernel, grid.x, grid.y, grid.z)
  {
    Grid.GroupsCover(w, Grid.GroupWidth);
    Grid.GroupsCover(h, Grid.GroupHeight);
  }

  /** A recreation frees the three old resources and allocates three new
      ones, and every release comes before every allocation. */
  lemma RecreationOrder(t: TextureRef, sb: BufferRef, cb: BufferRef,
                        kernel: int, base: nat, w: int, h: int, shapeCount: int)
    ensures var calls := ReleaseEvents(t, sb, cb) + CreateEvents(kernel, base, w, h, shapeCount);
            Releases(calls) == 3 && Allocations(calls) == 3 &&
            (forall i, j :: 0 <= i < |calls| && 0 <= j < |calls| && IsRelease(calls[i]) && IsAllocation(calls[j])
                            ==> i < j)
  {
    var rel, cre := ReleaseEvents(t, sb, cb), CreateEvents(kernel, base, w, h, shapeCount);
    CountsAppend(rel, cre);
    FirstCreation(kernel, base, w, h, shapeCount);
    KindCounts(rel, false, true);
  }

  /** The first creation frees nothing and allocates the texture and both buffers. */
  lemma FirstCreation(kernel: int, base: nat, w: int, h: int, shapeCount: int)
    ensures Releases(CreateEvents(kernel, base, w, h, shapeCount)) == 0
    ensures Allocations(CreateEvents(kernel, base, w, h, shapeCount)) == 3
  {
    var cre := CreateEvents(kernel, base, w, h, shapeCount);
    var texture, bindings, buffers := cre[..1], cre[1..3], cre[3..];
    assert cre == texture + bindings + buffers;
    KindCounts(texture, true, false);
    KindCounts(bindings, false, false);
    KindCounts(buffers, true, false);
    CountsAppend(texture, bindings);
    CountsAppend(texture + bindings, buffers);
  }

  /** A frame creates and frees nothing: it uploads the snapshot and exactly
      one camera record, sets the shape count, and ends with the dispatch over
      DispatchGrid(w, h). */
  lemma FrameContents(kernel: int, sb: nat, cb: nat, records: seq<ShapeStruct>, camera: CameraView,
                      tan: Float32, config: Settings, shapeCount: int, w: int, h: int)
    ensures var calls := FrameEvents(kernel, sb, cb, records, camera, tan, config, shapeCount, w, h);
            var grid := Grid.DispatchGrid(w, h);
            Allocations(calls) == 0 && Releases(calls) == 0 &&
            calls[0] == SetShapeData(sb, records) &&
            calls[1].SetCameraData? && calls[1].cameraData == [CameraStructOf(camera)] &&
            SetInt(ShapeCount, shapeCount) in calls &&
            calls[|calls| - 1] == Dispatch(kernel, grid.x, grid.y, grid.z)
  {
    var calls := FrameEvents(kernel, sb, cb, records, camera, tan, config, shapeCount, w, h);
    assert calls[4] == SetInt(ShapeCount, shapeCount);
    assert forall k :: 0 <= k < |calls| ==> !IsAllocation(calls[k]) && !IsRelease(calls[k]);
    KindCounts(calls, false, false);
  }

  /** Regrouping a log made of three consecutive pieces. */
  lemma Regroup3<T>(a: seq<T>, b: seq<T>, c: seq<T>)
    ensures a + b + c == a + (b + c)
  {
  }

  /** Regrouping a log made of four consecutive pieces. */
  lemma Regroup4<T>(a: seq<T>, b: seq<T>, c: seq<T>, d: seq<T>)
    ensures a + b + c + d == a + (b + c + d)
  {
  }

  class RayMarchRenderer {
    const math: EngineMath
    /** The public tuning fields. The Inspector or a script may assign them at
        any time, and every frame sets their current values. */
    var settings: Settings

    var rayMarchIndex: int
    /** The shapes Start found, in the order found. Only their number and
        order matter afterwards: every frame reads the same shapes' current
        state again, which DoRayMarch takes as `scene`. */
    var shapes: seq<Shape>
    var screenSize: Vector2Int
    var renderTexture: Option<TextureRef>
    var shapeBuffer: Option<BufferRef>
    var cameraBuffer: Option<BufferRef>
    /** The next handle the engine hands out; handles are never reused. */
    var nextHandle: nat
    /** Every engine call made so far, in order. */
    var log: seq<Event>
    /** OnDestroy has run; the engine sends nothing after it. */
    ghost var destroyed: bool
    /** The tracker's state after `log`. */
    ghost var gpu: GpuState

    /** The resources of the current generation, by handle. */
    function Generation(): map<nat, Resource>
      reads this
    {
      match (renderTexture, shapeBuffer, cameraBuffer)
      case (Some(t), Some(sb), Some(cb)) =>
        map[t.handle := Texture(t.width, t.height),
            sb.handle := Buffer(ShapeRecords, sb.count),
            cb.handle := Buffer(CameraRecords, cb.count)]
      case _ => map[]
    }

    /** The object invariant: the three resource fields are set together; the
        engine accepts the log; exactly the current generation is live (nothing
        after OnDestroy); the generation has the recorded screen size, one
        shape record per shape and one camera record, and its texture is bound
        to the kernel's output slot. */
    ghost predicate Valid()
      reads this
    {
      (renderTexture.Some? <==> shapeBuffer.Some?) &&
      (renderTexture.Some? <==> cameraBuffer.Some?) &&
      Replay(log) == Some(gpu) &&
      var s := gpu;
      (forall h :: h in s.used ==> h < nextHandle) &&
      s.live == (if destroyed then map[] else Generation()) &&
      (renderTexture.Some? ==>
        var t := renderTexture.value;
        t.handle + 3 == nextHandle &&
        shapeBuffer.value.handle == t.handle + 1 &&
        cameraBuffer.value.handle == t.handle + 2 &&
        t.width == screenSize.x && t.height == screenSize.y &&
        shapeBuffer.value.count == |shapes| &&
        cameraBuffer.value.count == 1 &&
        (!destroyed ==>
          Slot(rayMarchIndex, OutTexture) in s.textures &&
          s.textures[Slot(rayMarchIndex, OutTexture)] == t.handle))
    }

    /** Whether InitRenderTexture at this screen size recreates the resources. */
    predicate NeedsResources(w: int, h: int)
      reads this
    {
      renderTexture.None? || screenSize.x != w || screenSize.y != h
    }

    /** The calls that free the current generation, if there is one. */
    function ReleaseCalls(): seq<Event>
      reads this
      requires renderTexture.Some? ==> shapeBuffer.Some? && cameraBuffer.Some?
    {
      if renderTexture.Some?
      then ReleaseEvents(renderTexture.value, shapeBuffer.value, cameraBuffer.value) else []
    }

    /** The calls InitRenderTexture makes at this screen size. */
    function InitEvents(w: int, h: int): seq<Event>
      reads this
      requires renderTexture.Some? ==> shapeBuffer.Some? && cameraBuffer.Some?
    {
      if !NeedsResources(w, h) then []
      else ReleaseCalls() + CreateEvents(rayMarchIndex, nextHandle, w, h, |shapes|)
    }

    /** The calls DoRayMarch makes against the current generation, given the
        shapes' state at this frame. */
    function FrameCalls(w: int, h: int, scene: seq<Shape>, camera: CameraView): seq<Event>
      reads this
      requires shapeBuffer.Some? && cameraBuffer.Some?
    {
      FrameEvents(rayMarchIndex, shapeBuffer.value.handle, cameraBuffer.value.handle,
                  ShapeStructs(math, scene), camera, math.halfFovTangent(camera.fieldOfView),
                  settings, |shapes|, w, h)
    }

    /** The component as the engine creates it, before Start. `settings` are
        the tuning fields as the Inspector serialised them: DefaultSettings
        when they are left untouched. */
    constructor (math: EngineMath, settings: Settings)
      ensures Valid() && !destroyed
      ensures this.math == math && this.settings == settings
      ensures rayMarchIndex == -1 && shapes == [] && screenSize == Vector2Int(0, 0)
      ensures renderTexture.None? && shapeBuffer.None? && cameraBuffer.None?
      ensures nextHandle == 0 && log == []
    {
      this.math := math;
      this.settings := settings;
      rayMarchIndex := -1;
      shapes := [];
      screenSize := Vector2Int(0, 0);
      renderTexture, shapeBuffer, cameraBuffer := None, None, None;
      nextHandle := 0;
      log := [];
      destroyed := false;
      gpu := Empty;
    }

    /** One engine call: appended to the log, which the tracker must accept. */
    method Emit(e: Event)
      requires Replay(log) == Some(gpu) && Apply(gpu, e).Some?
      modifies this`log, this`gpu
      ensures log == old(log) + [e]
      ensures gpu == Apply(old(gpu), e).value
      ensures Replay(log) == Some(gpu)
    {
      ReplaySnoc(log, e);
      log := log + [e];
      gpu := Apply(gpu, e).value;
    }

    // The engine calls the component makes, one method each, with the
    // tracker's new state stated outright.

    /** new RenderTexture(w, h, 24) followed by Create(). */
    method CreateTexture(handle: nat, w: int, h: int)
      requires Replay(log) == Some(gpu) && handle !in gpu.used
      modifies this`log, this`gpu
      ensures log == old(log) + [AllocTexture(handle, w, h)] && Replay(log) == Some(gpu)
      ensures gpu == old(gpu).(used := old(gpu).used + {handle}, live := old(gpu).live[handle := Texture(w, h)])
    {
      Emit(AllocTexture(handle, w, h));
    }

    /** new ComputeBuffer(count, stride). */
    method CreateBuffer(handle: nat, kind: BufferKind, count: nat)
      requires Replay(log) == Some(gpu) && handle !in gpu.used
      modifies this`log, this`gpu
      ensures log == old(log) + [AllocBuffer(handle, kind, count)] && Replay(log) == Some(gpu)
      ensures gpu == old(gpu).(used := old(gpu).used + {handle}, live := old(gpu).live[handle := Buffer(kind, count)])
    {
      Emit(AllocBuffer(handle, kind, count));
    }

    /** RenderTexture.Release(). */
    method ReleaseTextureCall(handle: nat)
      requires Replay(log) == Some(gpu) && LiveTexture(gpu, handle)
      modifies this`log, this`gpu
      ensures log == old(log) + [ReleaseTexture(handle)] && Replay(log) == Some(gpu)
      ensures gpu == old(gpu).(live := old(gpu).live - {handle})
    {
      Emit(ReleaseTexture(handle));
    }

    /** ComputeBuffer.Dispose(). */
    method DisposeBufferCall(handle: nat)
      requires Replay(log) == Some(gpu) && handle in gpu.live && gpu.live[handle].Buffer?
      modifies this`log, this`gpu
      ensures log == old(log) + [DisposeBuffer(handle)] && Replay(log) == Some(gpu)
      ensures gpu == old(gpu).(live := old(gpu).live - {handle})
    {
      Emit(DisposeBuffer(handle));
    }

    /** ComputeShader.SetTexture(kernel, name, texture). */
    method SetTextureCall(kernel: int, name: Name, handle: nat)
      requires Replay(log) == Some(gpu) && LiveTexture(gpu, handle)
      modifies this`log, this`gpu
      ensures log == old(log) + [SetTexture(kernel, name, handle)] && Replay(log) == Some(gpu)
      ensures gpu == old(gpu).(textures := old(gpu).textures[Slot(kernel, name) := handle])
    {
      Emit(SetTexture(kernel, name, handle));
    }

    /** A new screen Material whose main texture is this texture. */
    method BindScreenMaterialCall(handle: nat)
      requires Replay(log) == Some(gpu) && LiveTexture(gpu, handle)
      modifies this`log, this`gpu
      ensures log == old(log) + [BindScreenMaterial(handle)] && Replay(log) == Some(gpu)
      ensures gpu == old(gpu)
    {
      Emit(BindScreenMaterial(handle));
    }

    /** ComputeBuffer.SetData on the shape buffer. */
    method SetShapeDataCall(handle: nat, data: seq<ShapeStruct>)
      requires Replay(log) == Some(gpu) && LiveBuffer(gpu, handle, ShapeRecords)
      requires |data| <= gpu.live[handle].count
      modifies this`log, this`gpu
      ensures log == old(log) + [SetShapeData(handle, data)] && Replay(log) == Some(gpu)
      ensures gpu == old(gpu)
    {
      Emit(SetShapeData(handle, data));
    }

    /** ComputeBuffer.SetData on the camera buffer. */
    method SetCameraDataCall(handle: nat, data: seq<CameraStruct>)
      requires Replay(log) == Some(gpu) && LiveBuffer(gpu, handle, CameraRecords)
      requires |data| <= gpu.live[handle].count
      modifies this`log, this`gpu
      ensures log == old(log) + [SetCameraData(handle, data)] && Replay(log) == Some(gpu)
      ensures gpu == old(gpu)
    {
      Emit(SetCameraData(handle, data));
    }

    /** ComputeShader.SetBuffer(kernel, name, buffer). */
    method SetBufferCall(kernel: int, name: Name, handle: nat)
      requires Replay(log) == Some(gpu) && handle in gpu.live && gpu.live[handle].Buffer?
      modifies this`log, this`gpu
      ensures log == old(log) + [SetBuffer(kernel, name, handle)] && Replay(log) == Some(gpu)
      ensures gpu == old(gpu).(buffers := old(gpu).buffers[Slot(kernel, name) := handle])
    {
      Emit(SetBuffer(kernel, name, handle));
    }

    /** ComputeShader.SetInt(name, value). */
    method SetIntCall(name: Name, value: int)
      requires Replay(log) == Some(gpu)
      modifies this`log, this`gpu
      ensures log == old(log) + [SetInt(name, value)] && Replay(log) == Some(gpu)
      ensures gpu == old(gpu).(ints := old(gpu).ints[name := value])
    {
      Emit(SetInt(name, value));
    }

    /** ComputeShader.SetInts(name, values). */
    method SetIntsCall(name: Name, values: seq<int>)
      requires Replay(log) == Some(gpu)
      modifies this`log, this`gpu
      ensures log == old(log) + [SetInts(name, values)] && Replay(log) == Some(gpu)
      ensures gpu == old(gpu).(vectors := old(gpu).vectors[name := values])
    {
      Emit(SetInts(name, values));
    }

    /** ComputeShader.SetFloat(name, value). */
    method SetFloatCall(name: Name, number: Float32)
      requires Replay(log) == Some(gpu)
      modifies this`log, this`gpu
      ensures log == old(log) + [SetFloat(name, number)] && Replay(log) == Some(gpu)
      ensures gpu == old(gpu)
    {
      Emit(SetFloat(name, number));
    }

    /** ComputeShader.SetFloats(name, values). */
    method SetFloatsCall(name: Name, numbers: seq<Float32>)
      requires Replay(log) == Some(gpu)
      modifies this`log, this`gpu
      ensures log == old(log) + [SetFloats(name, numbers)] && Replay(log) == Some(gpu)
      ensures gpu == old(gpu)
    {
      Emit(SetFloats(name, numbers));
    }

    /** ComputeShader.Dispatch(kernel, x, y, z). */
    method DispatchCall(kernel: int, gx: int, gy: int, gz: int)
      requires Replay(log) == Some(gpu) && DispatchReady(gpu, kernel, gx, gy, gz)
      modifies this`log, this`gpu
      ensures log == old(log) + [Dispatch(kernel, gx, gy, gz)] && Replay(log) == Some(gpu)
      ensures gpu == old(gpu).(dispatches := old(gpu).dispatches + 1)
    {
      Emit(Dispatch(kernel, gx, gy, gz));
    }

    /** Start: the kernel index found by name and the scene's shapes, both
        supplied by the engine. It runs before any resource exists. */
    method Start(kernel: int, sceneShapes: seq<Shape>)
      requires Valid() && !destroyed && renderTexture.None?
      modifies this`rayMarchIndex, this`shapes
      ensures Valid()
      ensures rayMarchIndex == kernel && shapes == sceneShapes
    {
      rayMarchIndex := kernel;
      shapes := sceneShapes;
    }

    /** An assignment to the public tuning fields between frames, by an
        Inspector edit or by a script. The next frame sets the new values. */
    method AssignSettings(config: Settings)
      requires Valid()
      modifies this`settings
      ensures Valid() && settings == config
    {
      settings := config;
    }

    /** The `if (renderTexture)` block that OnDestroy and InitRenderTexture
        share: frees the live generation, if there is one. The fields keep
        their values. */
    method ReleaseGeneration()
      requires Valid() && !destroyed
      modifies this`log, this`gpu
      ensures Replay(log) == Some(gpu) && gpu.live == map[]
      ensures gpu.used == old(gpu.used) && gpu.dispatches == old(gpu.dispatches)
      ensures log == old(log) + ReleaseCalls()
    {
      if renderTexture.Some? {
        var t, sb, cb := renderTexture.value, shapeBuffer.value, cameraBuffer.value;
        ReleaseTextureCall(t.handle);
        DisposeBufferCall(sb.handle);
        DisposeBufferCall(cb.handle);
        assert gpu.live.Keys == {};
      } else {
        assert gpu.live == map[];
      }
    }

    /** Creates a generation whose handles start at `base`: the texture, bound
        to the kernel's output slot and to the screen material, then the shape
        buffer sized to the scene and the one-record camera buffer. */
    method CreateGeneration(base: nat, w: int, h: int)
      requires Replay(log) == Some(gpu)
      requires base !in gpu.used && base + 1 !in gpu.used && base + 2 !in gpu.used
      modifies this`log, this`gpu
      ensures Replay(log) == Some(gpu)
      ensures gpu == old(gpu).(used := old(gpu).used + {base, base + 1, base + 2},
                               live := old(gpu).live[base := Texture(w, h)]
                                                    [base + 1 := Buffer(ShapeRecords, |shapes|)]
                                                    [base + 2 := Buffer(CameraRecords, 1)],
                               textures := old(gpu).textures[Slot(rayMarchIndex, OutTexture) := base])
      ensures log == old(log) + CreateEvents(rayMarchIndex, base, w, h, |shapes|)
    {
      CreateOutput(base, w, h);
      CreateBuffers(base);
      Regroup4(old(log), [AllocTexture(base, w, h), SetTexture(rayMarchIndex, OutTexture, base)],
                        [BindScreenMaterial(base)],
                        [AllocBuffer(base + 1, ShapeRecords, |shapes|), AllocBuffer(base + 2, CameraRecords, 1)]);
    }

    /** The output texture: created, bound to the kernel's output slot and shown by the screen material. */
    method CreateOutput(base: nat, w: int, h: int)
      requires Replay(log) == Some(gpu) && base !in gpu.used
      modifies this`log, this`gpu
      ensures Replay(log) == Some(gpu)
      ensures gpu == old(gpu).(used := old(gpu).used + {base},
                               live := old(gpu).live[base := Texture(w, h)],
                               textures := old(gpu).textures[Slot(rayMarchIndex, OutTexture) := base])
      ensures log == old(log) + [AllocTexture(base, w, h), SetTexture(rayMarchIndex, OutTexture, base),
                                 BindScreenMaterial(base)]
    {
      CreateTexture(base, w, h);
      SetTextureCall(rayMarchIndex, OutTexture, base);
      BindScreenMaterialCall(base);
    }

    /** The shape buffer, one record per shape, and the one-record camera buffer. */
    method CreateBuffers(base: nat)
      requires Replay(log) == Some(gpu) && base + 1 !in gpu.used && base + 2 !in gpu.used
      modifies this`log, this`gpu
      ensures Replay(log) == Some(gpu)
      ensures gpu == old(gpu).(used := old(gpu).used + {base + 1, base + 2},
                               live := old(gpu).live[base + 1 := Buffer(ShapeRecords, |shapes|)]
                                                    [base + 2 := Buffer(CameraRecords, 1)])
      ensures log == old(log) + [AllocBuffer(base + 1, ShapeRecords, |shapes|), AllocBuffer(base + 2, CameraRecords, 1)]
    {
      CreateBuffer(base + 1, ShapeRecords, |shapes|);
      CreateBuffer(base + 2, CameraRecords, 1);
    }

    /** While a generation is live, the allocations exceed the releases by three. */
    lemma LiveBalance()
      requires Valid() && !destroyed && renderTexture.Some?
      ensures Allocations(log) == Releases(log) + 3
    {
      var t, sb, cb := renderTexture.value.handle, shapeBuffer.value.handle, cameraBuffer.value.handle;
      assert gpu.live.Keys == Generation().Keys == {t, sb, cb};
      GenerationBalance(log, t, sb, cb);
    }

    /** The recreation branch's field updates: the new screen size and the
        references to the three resources about to be created. */
    method Adopt(w: int, h: int)
      modifies this`screenSize, this`renderTexture, this`shapeBuffer, this`cameraBuffer, this`nextHandle
      ensures screenSize == Vector2Int(w, h) &&
              renderTexture == Some(TextureRef(old(nextHandle), w, h)) &&
              shapeBuffer == Some(BufferRef(old(nextHandle) + 1, |shapes|)) &&
              cameraBuffer == Some(BufferRef(old(nextHandle) + 2, 1)) &&
              nextHandle == old(nextHandle) + 3
    {
      screenSize := Vector2Int(w, h);
      var base := nextHandle;
      renderTexture := Some(TextureRef(base, w, h));
      shapeBuffer := Some(BufferRef(base + 1, |shapes|));
      cameraBuffer := Some(BufferRef(base + 2, 1));
      nextHandle := base + 3;
    }

    /** A generation just created at handles base, base + 1 and base + 2,
        with nothing else live, satisfies the object invariant. */
    lemma FreshGenerationValid(base: nat, w: int, h: int)
      requires !destroyed && Replay(log) == Some(gpu)
      requires nextHandle == base + 3 && screenSize == Vector2Int(w, h)
      requires renderTexture == Some(TextureRef(base, w, h))
      requires shapeBuffer == Some(BufferRef(base + 1, |shapes|))
      requires cameraBuffer == Some(BufferRef(base + 2, 1))
      requires gpu.live == map[][base := Texture(w, h)][base + 1 := Buffer(ShapeRecords, |shapes|)]
                                [base + 2 := Buffer(CameraRecords, 1)]
      requires forall h :: h in gpu.used ==> h < nextHandle
      requires Slot(rayMarchIndex, OutTexture) in gpu.textures
      requires gpu.textures[Slot(rayMarchIndex, OutTexture)] == base
      ensures Valid()
    {
    }

    /** Lines the recreation branch runs once nothing is live: records the new
        screen size and creates a generation of that size with fresh handles. */
    method Generate(w: int, h: int)
      requires Replay(log) == Some(gpu) && gpu.live == map[] && !destroyed
      requires forall h :: h in gpu.used ==> h < nextHandle
      requires renderTexture.Some? ==> shapeBuffer.Some? && cameraBuffer.Some?
      modifies this`screenSize, this`renderTexture, this`shapeBuffer, this`cameraBuffer,
               this`nextHandle, this`log, this`gpu
      ensures Valid() && gpu.dispatches == old(gpu.dispatches)
      ensures log == old(log) + CreateEvents(rayMarchIndex, old(nextHandle), w, h, |shapes|)
      ensures screenSize == Vector2Int(w, h) &&
              renderTexture == Some(TextureRef(old(nextHandle), w, h)) &&
              shapeBuffer == Some(BufferRef(old(nextHandle) + 1, |shapes|)) &&
              cameraBuffer == Some(BufferRef(old(nextHandle) + 2, 1)) &&
              nextHandle == old(nextHandle) + 3
    {
      var base := nextHandle;
      Adopt(w, h);
      CreateGeneration(base, w, h);
      FreshGenerationValid(base, w, h);
    }

    /** The recreation branch: releases the old generation if there is one,
        then creates one at the new screen size. */
    method Recreate(w: int, h: int)
      requires Valid() && !destroyed
      modifies this`screenSize, this`renderTexture, this`shapeBuffer, this`cameraBuffer,
               this`nextHandle, this`log, this`gpu
      ensures Valid() && gpu.dispatches == old(gpu.dispatches)
      ensures log == old(log) + (old(ReleaseCalls()) + CreateEvents(rayMarchIndex, old(nextHandle), w, h, |shapes|))
      ensures screenSize == Vector2Int(w, h) &&
              renderTexture == Some(TextureRef(old(nextHandle), w, h)) &&
              shapeBuffer == Some(BufferRef(old(nextHandle) + 1, |shapes|)) &&
              cameraBuffer == Some(BufferRef(old(nextHandle) + 2, 1)) &&
              nextHandle == old(nextHandle) + 3
    {
      ReleaseGeneration();
      Generate(w, h);
      Regroup3(old(log), old(ReleaseCalls()), CreateEvents(rayMarchIndex, old(nextHandle), w, h, |shapes|));
    }

    /** Recreates the generation exactly when there is no texture yet or the
        screen size changed; otherwise changes nothing. */
    method InitRenderTexture(w: int, h: int)
      requires Valid() && !destroyed
      modifies this`screenSize, this`renderTexture, this`shapeBuffer, this`cameraBuffer,
               this`nextHandle, this`log, this`gpu
      ensures Valid()
      ensures log == old(log) + old(InitEvents(w, h))
      ensures !old(NeedsResources(w, h)) ==>
        screenSize == old(screenSize) && renderTexture == old(renderTexture) &&
        shapeBuffer == old(shapeBuffer) && cameraBuffer == old(cameraBuffer) &&
        nextHandle == old(nextHandle)
      ensures old(NeedsResources(w, h)) ==>
        screenSize == Vector2Int(w, h) &&
        renderTexture == Some(TextureRef(old(nextHandle), w, h)) &&
        shapeBuffer == Some(BufferRef(old(nextHandle) + 1, |shapes|)) &&
        cameraBuffer == Some(BufferRef(old(nextHandle) + 2, 1)) &&
        nextHandle == old(nextHandle) + 3
      ensures gpu.live == Generation() && gpu.dispatches == old(gpu.dispatches)
      ensures Allocations(log) == Releases(log) + 3
      ensures !NeedsResources(w, h)
    {
      if renderTexture == None || screenSize.x != w || screenSize.y != h {
        Recreate(w, h);
      }
      LiveBalance();
    }

    /** Builds the snapshot of the shapes' state at this frame and uploads it
        with the camera record. */
    method UploadSnapshot(sb: nat, cb: nat, scene: seq<Shape>, camera: CameraView)
      requires Replay(log) == Some(gpu) && |scene| == |shapes|
      requires LiveBuffer(gpu, sb, ShapeRecords) && gpu.live[sb].count == |shapes|
      requires cb in gpu.live && gpu.live[cb] == Buffer(CameraRecords, 1)
      modifies this`log, this`gpu
      ensures Replay(log) == Some(gpu) && gpu == old(gpu)
      ensures log == old(log) + UploadEvents(sb, cb, ShapeStructs(math, scene), camera)
    {
      var shapeStructs := BuildShapeStructs(math, scene);
      SetShapeDataCall(sb, shapeStructs[..]);
      var camStruct := CameraStructOf(camera);
      SetCameraDataCall(cb, [camStruct]);
    }

    /** Binds both buffers and sets the shape count and the screen size. */
    method BindInputs(sb: nat, cb: nat, w: int, h: int)
      requires Replay(log) == Some(gpu)
      requires sb in gpu.live && gpu.live[sb].Buffer? && cb in gpu.live && gpu.live[cb].Buffer?
      modifies this`log, this`gpu
      ensures Replay(log) == Some(gpu)
      ensures gpu == BindState(old(gpu), rayMarchIndex, sb, cb, |shapes|, w, h)
      ensures log == old(log) + BindEvents(rayMarchIndex, sb, cb, |shapes|, w, h)
    {
      SetBufferCall(rayMarchIndex, Shapes, sb);
      SetBufferCall(rayMarchIndex, Camera, cb);
      SetIntCall(ShapeCount, |shapes|);
      SetIntsCall(ScreenSize, [w, h]);
    }

    /** Sets the projection tangent and the aspect ratio. */
    method SetProjection(tan: Float32, camera: CameraView)
      requires Replay(log) == Some(gpu)
      modifies this`log, this`gpu
      ensures Replay(log) == Some(gpu) && gpu == old(gpu)
      ensures log == old(log) + ProjectionEvents(camera, tan)
    {
      SetFloatCall(Tangent, tan);
      SetFloatCall(Aspect, camera.aspect);
    }

    /** Sets the tuning values. */
    method SetTuning()
      requires Replay(log) == Some(gpu)
      modifies this`log, this`gpu
      ensures Replay(log) == Some(gpu)
      ensures gpu == TuningState(old(gpu), settings)
      ensures log == old(log) + TuningEvents(settings)
    {
      ghost var start := log;
      SetTolerances();
      SetFog();
      SetStepLimits();
      Regroup4(start, ToleranceEvents(settings), FogEvents(settings), StepLimitEvents(settings));
    }

    /** Sets the hit distance and the normal-estimation step. */
    method SetTolerances()
      requires Replay(log) == Some(gpu)
      modifies this`log, this`gpu
      ensures Replay(log) == Some(gpu) && gpu == old(gpu)
      ensures log == old(log) + ToleranceEvents(settings)
    {
      SetFloatCall(Epsilon, settings.epsilon);
      SetFloatCall(Delta, settings.delta);
    }

    /** Sets the fog distance and the fog colour's three channels. */
    method SetFog()
      requires Replay(log) == Some(gpu)
      modifies this`log, this`gpu
      ensures Replay(log) == Some(gpu) && gpu == old(gpu)
      ensures log == old(log) + FogEvents(settings)
    {
      SetFloatCall(FogDistance, settings.fogDistance);
      SetFloatsCall(FogColor, [settings.fogColor.r, settings.fogColor.g, settings.fogColor.b]);
    }

    /** Sets the step and bounce limits. */
    method SetStepLimits()
      requires Replay(log) == Some(gpu)
      modifies this`log, this`gpu
      ensures Replay(log) == Some(gpu) && gpu == TuningState(old(gpu), settings)
      ensures log == old(log) + StepLimitEvents(settings)
    {
      SetIntCall(MaxSteps, settings.maxSteps);
      SetIntCall(MaxBounces, settings.maxBounces);
    }

    /** Sets the kernel's parameters: its inputs, the projection and the tuning values. */
    method SetShaderData(sb: nat, cb: nat, w: int, h: int, camera: CameraView)
      requires Replay(log) == Some(gpu)
      requires sb in gpu.live && gpu.live[sb].Buffer? && cb in gpu.live && gpu.live[cb].Buffer?
      modifies this`log, this`gpu
      ensures Replay(log) == Some(gpu)
      ensures gpu == FrameState(old(gpu), rayMarchIndex, sb, cb, |shapes|, w, h, settings)
      ensures log == old(log) + ParameterEvents(rayMarchIndex, sb, cb, camera,
                                                math.halfFovTangent(camera.fieldOfView), settings, |shapes|, w, h)
    {
      var tan := math.halfFovTangent(camera.fieldOfView);
      BindInputs(sb, cb, w, h);
      SetProjection(tan, camera);
      SetTuning();
    }

    /** The frame's calls against a given texture and buffers: the uploads,
        the parameters and the dispatch over DispatchGrid(w, h). */
    method RunFrame(t: nat, sb: nat, cb: nat, w: int, h: int, scene: seq<Shape>, camera: CameraView)
      requires Replay(log) == Some(gpu) && |scene| == |shapes|
      requires Slot(rayMarchIndex, OutTexture) in gpu.textures && gpu.textures[Slot(rayMarchIndex, OutTexture)] == t
      requires t in gpu.live && gpu.live[t] == Texture(w, h)
      requires sb in gpu.live && gpu.live[sb] == Buffer(ShapeRecords, |shapes|)
      requires cb in gpu.live && gpu.live[cb] == Buffer(CameraRecords, 1)
      modifies this`log, this`gpu
      ensures Replay(log) == Some(gpu)
      ensures gpu == FrameState(old(gpu), rayMarchIndex, sb, cb, |shapes|, w, h, settings)
                       .(dispatches := old(gpu).dispatches + 1)
      ensures log == old(log) + FrameEvents(rayMarchIndex, sb, cb, ShapeStructs(math, scene), camera,
                                            math.halfFovTangent(camera.fieldOfView), settings, |shapes|, w, h)
    {
      ghost var before, start := gpu, log;
      UploadSnapshot(sb, cb, scene, camera);
      SetShaderData(sb, cb, w, h, camera);
      FrameReady(before, rayMarchIndex, t, sb, cb, |shapes|, w, h, settings);
      var grid := Grid.DispatchGrid(w, h);
      DispatchCall(rayMarchIndex, grid.x, grid.y, grid.z);
      Regroup4(start, UploadEvents(sb, cb, ShapeStructs(math, scene), camera),
                        ParameterEvents(rayMarchIndex, sb, cb, camera, math.halfFovTangent(camera.fieldOfView),
                                        settings, |shapes|, w, h),
                        [Dispatch(rayMarchIndex, grid.x, grid.y, grid.z)]);
    }

    /** Uploads the snapshot, sets the kernel's parameters and dispatches over
        the whole screen, against the generation that InitRenderTexture has
        just made current. `scene` is the current state of the shapes Start
        found, in the same order. */
    method DoRayMarch(w: int, h: int, scene: seq<Shape>, camera: CameraView)
      requires Valid() && !destroyed && renderTexture.Some? && screenSize == Vector2Int(w, h)
      requires |scene| == |shapes|
      modifies this`log, this`gpu
      ensures Valid()
      ensures log == old(log) + FrameCalls(w, h, scene, camera)
      ensures gpu.dispatches == old(gpu.dispatches) + 1
    {
      var t, sb, cb := renderTexture.value.handle, shapeBuffer.value.handle, cameraBuffer.value.handle;
      assert gpu.live[t] == Texture(w, h) && gpu.live[sb] == Buffer(ShapeRecords, |shapes|)
        && gpu.live[cb] == Buffer(CameraRecords, 1);
      RunFrame(t, sb, cb, w, h, scene, camera);
    }

    /** Once per frame: nothing at all while the kernel is not found; otherwise
        the resource check, then the frame's uploads and dispatch. `scene` is
        the current state of the shapes Start found, in the same order. */
    method Update(w: int, h: int, scene: seq<Shape>, camera: CameraView)
      requires Valid() && !destroyed && |scene| == |shapes|
      modifies this`screenSize, this`renderTexture, this`shapeBuffer, this`cameraBuffer,
               this`nextHandle, this`log, this`gpu
      ensures Valid()
      ensures rayMarchIndex == -1 ==> unchanged(this)
      ensures rayMarchIndex != -1 ==>
        screenSize == Vector2Int(w, h) && renderTexture.Some? &&
        renderTexture.value.width == w && renderTexture.value.height == h &&
        log == old(log) + old(InitEvents(w, h)) + FrameCalls(w, h, scene, camera) &&
        gpu.dispatches == old(gpu.dispatches) + 1 &&
        Allocations(log) == Releases(log) + 3
    {
      if rayMarchIndex != -1 {
        InitRenderTexture(w, h);
        DoRayMarch(w, h, scene, camera);
        LiveBalance();
      }
    }

    /** Teardown: frees the live generation, if any; afterwards nothing is live
        and every allocation has been matched by exactly one release. */
    method OnDestroy()
      requires Valid() && !destroyed
      modifies this`log, this`gpu, this`destroyed
      ensures Valid() && destroyed
      ensures log == old(log) + ReleaseCalls()
      ensures gpu.live == map[]
      ensures Allocations(log) == Releases(log)
    {
      ReleaseGeneration();
      destroyed := true;
      Accounting(log);
    }
  }
}
