/** The engine calls the renderer makes, as a log of events, and a tracker
    that replays such a log: it follows which textures and compute buffers are
    live, what is bound to the kernel's named slots and which integer
    parameters are set, and it rejects a log that allocates a handle twice,
    releases or binds a resource that is not live, uploads more records than a
    buffer holds, or dispatches against a missing, stale, mis-sized or
    uncovered output. */
module Gpu {
  import opened Values
  import opened Snapshot
  import Grid

  /** The element type of a compute buffer (it fixes the buffer's stride). */
  datatype BufferKind = ShapeRecords | CameraRecords

  datatype Resource =
    | Texture(width: int, height: int)
    | Buffer(kind: BufferKind, count: int)

  /** The names of the kernel parameters the renderer sets. */
  datatype Name =
    | OutTexture | Shapes | Camera | ShapeCount | ScreenSize | Tangent | Aspect
    | Epsilon | Delta | FogDistance | FogColor | MaxSteps | MaxBounces

  /** The name as the kernel declares it. */
  function Text(n: Name): string
  {
    match n
    case OutTexture => "outTexture"
    case Shapes => "shapes"
    case Camera => "camera"
    case ShapeCount => "shapeCount"
    case ScreenSize => "screenSize"
    case Tangent => "tangent"
    case Aspect => "aspect"
    case Epsilon => "epsilon"
    case Delta => "delta"
    case FogDistance => "fogDistance"
    case FogColor => "fogColor"
    case MaxSteps => "maxSteps"
    case MaxBounces => "maxBounces"
  }

  /** Distinct names are distinct strings, so the slots keyed by Name are
      the slots the engine keys by string. */
  lemma TextInjective(a: Name, b: Name)
    ensures Text(a) == Text(b) <==> a == b
  {
  }

  /** A parameter slot of one kernel. */
  datatype Slot = Slot(kernel: int, name: Name)

  datatype Event =
    | AllocTexture(handle: nat, width: int, height: int)     // new RenderTexture(w, h, 24); Create()
    | AllocBuffer(handle: nat, kind: BufferKind, count: int) // new ComputeBuffer(count, stride)
    | ReleaseTexture(handle: nat)                            // RenderTexture.Release()
    | DisposeBuffer(handle: nat)                             // ComputeBuffer.Dispose()
    | SetTexture(kernel: int, name: Name, handle: nat)     // ComputeShader.SetTexture
    | BindScreenMaterial(handle: nat)                        // new screen Material showing the texture
    | SetShapeData(handle: nat, shapeData: seq<ShapeStruct>) // ComputeBuffer.SetData
    | SetCameraData(handle: nat, cameraData: seq<CameraStruct>)
    | SetBuffer(kernel: int, name: Name, handle: nat)      // ComputeShader.SetBuffer
    | SetInt(name: Name, value: int)
    | SetInts(name: Name, values: seq<int>)
    | SetFloat(name: Name, number: Float32)
    | SetFloats(name: Name, numbers: seq<Float32>)
    | Dispatch(kernel: int, groupsX: int, groupsY: int, groupsZ: int)

  /** What the tracker knows after a prefix of the log. `used` holds every
      handle ever allocated, `live` the allocated and not yet released ones. */
  datatype GpuState = GpuState(
    used: set<nat>,
    live: map<nat, Resource>,
    textures: map<Slot, nat>,
    buffers: map<Slot, nat>,
    ints: map<Name, int>,
    vectors: map<Name, seq<int>>,
    dispatches: nat)

  const Empty := GpuState({}, map[], map[], map[], map[], map[], 0)

  predicate IsAllocation(e: Event)
  {
    e.AllocTexture? || e.AllocBuffer?
  }

  predicate IsRelease(e: Event)
  {
    e.ReleaseTexture? || e.DisposeBuffer?
  }

  predicate LiveTexture(s: GpuState, h: nat)
  {
    h in s.live && s.live[h].Texture?
  }

  predicate LiveBuffer(s: GpuState, h: nat, kind: BufferKind)
  {
    h in s.live && s.live[h].Buffer? && s.live[h].kind == kind
  }

  /** A dispatch of kernel k is safe when its output texture, shape buffer and
      camera buffer slots hold live resources, the shape buffer holds exactly
      shapeCount records, the camera buffer one record, screenSize is the
      texture's size and the workgroup grid covers the whole texture. */
  predicate DispatchReady(s: GpuState, k: int, gx: int, gy: int, gz: int)
  {
    var out, shapes, camera := Slot(k, OutTexture), Slot(k, Shapes), Slot(k, Camera);
    out in s.textures && LiveTexture(s, s.textures[out]) &&
    shapes in s.buffers && LiveBuffer(s, s.buffers[shapes], ShapeRecords) &&
    camera in s.buffers && s.buffers[camera] in s.live &&
    s.live[s.buffers[camera]] == Buffer(CameraRecords, 1) &&
    ShapeCount in s.ints && s.live[s.buffers[shapes]].count == s.ints[ShapeCount] &&
    var tex := s.live[s.textures[out]];
    ScreenSize in s.vectors && s.vectors[ScreenSize] == [tex.width, tex.height] &&
    gx * Grid.GroupWidth >= tex.width && gy * Grid.GroupHeight >= tex.height && gz >= 1
  }

  /** One engine call, or None when the call breaks the resource discipline. */
  function Apply(s: GpuState, e: Event): Option<GpuState>
  {
    match e
    case AllocTexture(h, w, ht) =>
      if h in s.used then None
      else Some(s.(used := s.used + {h}, live := s.live[h := Texture(w, ht)]))
    case AllocBuffer(h, kind, n) =>
      if h in s.used || n < 0 then None
      else Some(s.(used := s.used + {h}, live := s.live[h := Buffer(kind, n)]))
    case ReleaseTexture(h) =>
      if LiveTexture(s, h) then Some(s.(live := s.live - {h})) else None
    case DisposeBuffer(h) =>
      if h in s.live && s.live[h].Buffer? then Some(s.(live := s.live - {h})) else None
    case SetTexture(k, name, h) =>
      if LiveTexture(s, h) then Some(s.(textures := s.textures[Slot(k, name) := h])) else None
    case BindScreenMaterial(h) =>
      if LiveTexture(s, h) then Some(s) else None
    case SetShapeData(h, data) =>
      if LiveBuffer(s, h, ShapeRecords) && |data| <= s.live[h].count then Some(s) else None
    case SetCameraData(h, data) =>
      if LiveBuffer(s, h, CameraRecords) && |data| <= s.live[h].count then Some(s) else None
    case SetBuffer(k, name, h) =>
      if h in s.live && s.live[h].Buffer? then Some(s.(buffers := s.buffers[Slot(k, name) := h])) else None
    case SetInt(name, v) => Some(s.(ints := s.ints[name := v]))
    case SetInts(name, vs) => Some(s.(vectors := s.vectors[name := vs]))
    case SetFloat(_, _) => Some(s)
    case SetFloats(_, _) => Some(s)
    case Dispatch(k, gx, gy, gz) =>
      if DispatchReady(s, k, gx, gy, gz) then Some(s.(dispatches := s.dispatches + 1)) else None
  }

  /** The tracker's state after the whole log, or None if some call in it is rejected. */
  function Replay(log: seq<Event>): Option<GpuState>
    decreases |log|
  {
    if log == [] then Some(Empty)
    else match Replay(log[..|log| - 1])
      case None => None
      case Some(s) => Apply(s, log[|log| - 1])
  }

  function Allocations(log: seq<Event>): nat
    decreases |log|
  {
    if log == [] then 0
    else Allocations(log[..|log| - 1]) + (if IsAllocation(log[|log| - 1]) then 1 else 0)
  }

  function Releases(log: seq<Event>): nat
    decreases |log|
  {
    if log == [] then 0
    else Releases(log[..|log| - 1]) + (if IsRelease(log[|log| - 1]) then 1 else 0)
  }

  /** The counts over two consecutive pieces of a log add up. */
  lemma {:induction false} CountsAppend(a: seq<Event>, b: seq<Event>)
    ensures Allocations(a + b) == Allocations(a) + Allocations(b)
    ensures Releases(a + b) == Releases(a) + Releases(b)
    decreases |b|
  {
    if b == [] {
      assert a + b == a;
    } else {
      var init := b[..|b| - 1];
      assert (a + b)[..|a + b| - 1] == a + init;
      assert (a + b)[|a + b| - 1] == b[|b| - 1];
      CountsAppend(a, init);
    }
  }

  /** A log whose calls are all of one kind: all allocations, all releases,
      or neither, counts accordingly. */
  lemma {:induction false} KindCounts(log: seq<Event>, allocation: bool, release: bool)
    requires forall k :: 0 <= k < |log| ==> IsAllocation(log[k]) == allocation && IsRelease(log[k]) == release
    ensures Allocations(log) == (if allocation then |log| else 0)
    ensures Releases(log) == (if release then |log| else 0)
    decreases |log|
  {
    if log != [] {
      var init := log[..|log| - 1];
      assert forall k :: 0 <= k < |init| ==> init[k] == log[k];
      KindCounts(init, allocation, release);
    }
  }

  /** Appending one call to the log is one more step of the tracker. */
  lemma ReplaySnoc(log: seq<Event>, e: Event)
    ensures Replay(log + [e]) == if Replay(log).None? then None else Apply(Replay(log).value, e)
    ensures Allocations(log + [e]) == Allocations(log) + (if IsAllocation(e) then 1 else 0)
    ensures Releases(log + [e]) == Releases(log) + (if IsRelease(e) then 1 else 0)
  {
    assert (log + [e])[..|log|] == log;
  }

  /** A log the tracker accepts has every prefix accepted. */
  lemma {:induction false} ReplayPrefix(log: seq<Event>, k: nat)
    requires Replay(log).Some? && k <= |log|
    ensures Replay(log[..k]).Some?
    decreases |log|
  {
    if k < |log| {
      var init := log[..|log| - 1];
      assert init[..k] == log[..k];
      ReplayPrefix(init, k);
    } else {
      assert log[..k] == log;
    }
  }

  /** One accepted call's effect on the handles: an allocation takes a fresh
      handle and makes it live, a release ends a live one, and no other call
      touches the used set or the live resources. */
  lemma StepHandles(s: GpuState, e: Event)
    requires Apply(s, e).Some?
    ensures IsAllocation(e) ==> e.handle !in s.used && Apply(s, e).value.used == s.used + {e.handle}
                                && e.handle in Apply(s, e).value.live
                                && Apply(s, e).value.live.Keys == s.live.Keys + {e.handle}
    ensures IsRelease(e) ==> e.handle in s.live && Apply(s, e).value.used == s.used
                             && Apply(s, e).value.live == s.live - {e.handle}
    ensures !IsAllocation(e) && !IsRelease(e) ==>
              Apply(s, e).value.used == s.used && Apply(s, e).value.live == s.live
  {
    match e {
      case AllocTexture(h, w, ht) =>
      case AllocBuffer(h, kind, n) =>
      case ReleaseTexture(h) =>
      case DisposeBuffer(h) =>
      case _ =>
    }
  }

  /** The tracker's state after a non-empty accepted log is one step from the state before its last call. */
  lemma LastStep(log: seq<Event>)
    requires log != [] && Replay(log).Some?
    ensures Replay(log[..|log| - 1]).Some?
    ensures Apply(Replay(log[..|log| - 1]).value, log[|log| - 1]) == Replay(log)
  {
  }

  /** Every live handle has been allocated. */
  lemma {:induction false} LiveWasAllocated(log: seq<Event>)
    requires Replay(log).Some?
    ensures Replay(log).value.live.Keys <= Replay(log).value.used
    decreases |log|
  {
    if log != [] {
      var init := log[..|log| - 1];
      LastStep(log);
      LiveWasAllocated(init);
      StepHandles(Replay(init).value, log[|log| - 1]);
    }
  }

  /** One accepted call changes the number of live resources by one for an
      allocation, by minus one for a release, and not at all otherwise. */
  lemma StepAccounting(s: GpuState, e: Event)
    requires Apply(s, e).Some? && s.live.Keys <= s.used
    ensures |Apply(s, e).value.live| + (if IsRelease(e) then 1 else 0)
         == |s.live| + (if IsAllocation(e) then 1 else 0)
  {
    StepHandles(s, e);
    var t := Apply(s, e).value;
    if IsAllocation(e) {
      assert |t.live.Keys| == |s.live.Keys| + 1;
    } else if IsRelease(e) {
      assert t.live.Keys == s.live.Keys - {e.handle};
      assert |t.live.Keys| + 1 == |s.live.Keys|;
    }
  }

  /** Resource accounting: every allocation is matched by a release, except
      for the resources still live. */
  lemma {:induction false} Accounting(log: seq<Event>)
    requires Replay(log).Some?
    ensures Allocations(log) == Releases(log) + |Replay(log).value.live|
    decreases |log|
  {
    if log != [] {
      var init := log[..|log| - 1];
      var e := log[|log| - 1];
      assert log == init + [e];
      ReplaySnoc(init, e);
      Accounting(init);
      LiveWasAllocated(init);
      StepAccounting(Replay(init).value, e);
    }
  }

  /** While exactly three distinct handles are live, the allocations exceed
      the releases by three. */
  lemma GenerationBalance(log: seq<Event>, a: nat, b: nat, c: nat)
    requires Replay(log).Some? && Replay(log).value.live.Keys == {a, b, c}
    requires a != b && b != c && a != c
    ensures Allocations(log) == Releases(log) + 3
  {
    Accounting(log);
    assert |Replay(log).value.live.Keys| == 3;
  }

  /** Once released, a handle stays released: it is never live again. */
  lemma {:induction false} StaysReleased(log: seq<Event>, i: nat, k: nat)
    requires i < k <= |log| && IsRelease(log[i])
    requires Replay(log[..k]).Some?
    ensures log[i].handle in Replay(log[..k]).value.used
    ensures log[i].handle !in Replay(log[..k]).value.live
    decreases k
  {
    var pre := log[..k];
    LastStep(pre);
    assert pre[..|pre| - 1] == log[..k - 1];
    var s := Replay(log[..k - 1]).value;
    StepHandles(s, log[k - 1]);
    if k - 1 == i {
      LiveWasAllocated(log[..k - 1]);
    } else {
      StaysReleased(log, i, k - 1);
    }
  }

  /** No double release: in an accepted log no handle is released twice. */
  lemma ReleasedAtMostOnce(log: seq<Event>, i: nat, j: nat)
    requires Replay(log).Some?
    requires i < j < |log| && IsRelease(log[i]) && IsRelease(log[j])
    ensures log[i].handle != log[j].handle
  {
    ReplayPrefix(log, j + 1);
    ReplayPrefix(log, j);
    var pre := log[..j];
    assert log[..j + 1] == pre + [log[j]];
    ReplaySnoc(pre, log[j]);
    StaysReleased(log, i, j);
  }

  /** Every dispatch in an accepted log found its kernel's slots ready. */
  lemma DispatchesWereReady(log: seq<Event>, i: nat)
    requires Replay(log).Some? && i < |log| && log[i].Dispatch?
    ensures Replay(log[..i]).Some?
    ensures DispatchReady(Replay(log[..i]).value, log[i].kernel, log[i].groupsX, log[i].groupsY, log[i].groupsZ)
  {
    ReplayPrefix(log, i + 1);
    var pre := log[..i + 1];
    LastStep(pre);
    assert pre[..i] == log[..i];
  }
}
