/** The per-frame scene snapshot: the fixed-layout records the compute kernel
    reads (RayMarchRenderer.ShapeStruct and RayMarchRenderer.CameraStruct) and
    the loop that derives them from the scene's shapes. */
module Snapshot {
  import opened Values

  /** One scene shape as the renderer reads it: its transform and the fields
      of the Shape component. */
  datatype Shape = Shape(
    position: Vector3,
    rotation: Quaternion,
    localScale: Vector3,
    color: Color,
    shapeType: ShapeType,
    alterationType: AlterationType,
    reflective: bool)

  /** The live camera: its transform basis, field of view (degrees) and aspect. */
  datatype CameraView = CameraView(
    position: Vector3,
    right: Vector3,
    up: Vector3,
    forward: Vector3,
    fieldOfView: Float32,
    aspect: Float32)

  datatype ShapeStruct = ShapeStruct(
    translateRotateMat: Matrix4x4,
    translateRotateMatInv: Matrix4x4,
    size: Vector3,
    color: Color,
    id: ShapeType,
    alterId: AlterationType,
    reflective: int)

  datatype CameraStruct = CameraStruct(
    position: Vector3,
    right: Vector3,
    up: Vector3,
    forward: Vector3)

  /** The engine's floating-point operations the snapshot relies on:
      Translate(p) * Rotate(q), Matrix4x4.Inverse, v / 2 and
      Tan(fov * Deg2Rad / 2). They are given, not modelled. */
  datatype EngineMath = EngineMath(
    translateRotate: (Vector3, Quaternion) -> Matrix4x4,
    inverse: Matrix4x4 -> Matrix4x4,
    halve: Vector3 -> Vector3,
    halfFovTangent: Float32 -> Float32)

  /** The integer encoding of the reflective flag in the record layout. */
  function EncodeFlag(b: bool): (r: int)
    ensures r == 0 || r == 1
    ensures r == 1 <==> b
  {
    if b then 1 else 0
  }

  /** A non-zero test on the encoded field. */
  function DecodeFlag(r: int): bool
  {
    r != 0
  }

  /** The non-zero test recovers the flag from its encoding. */
  lemma FlagRoundTrip(b: bool)
    ensures DecodeFlag(EncodeFlag(b)) == b
  {
  }

  /** The record derived from one shape (one iteration of the snapshot loop). */
  function ShapeStructOf(math: EngineMath, s: Shape): (r: ShapeStruct)
    ensures r.translateRotateMat == math.translateRotate(s.position, s.rotation)
    ensures r.translateRotateMatInv == math.inverse(r.translateRotateMat)
    ensures r.size == math.halve(s.localScale) && r.color == s.color
    ensures r.id == s.shapeType && r.alterId == s.alterationType
    ensures r.reflective == 0 || r.reflective == 1
    ensures r.reflective == 1 <==> s.reflective
  {
    var trm := math.translateRotate(s.position, s.rotation);
    ShapeStruct(trm, math.inverse(trm), math.halve(s.localScale), s.color,
                s.shapeType, s.alterationType, EncodeFlag(s.reflective))
  }

  /** The records of a whole shape list, built front to back. */
  function ShapeStructs(math: EngineMath, shapes: seq<Shape>): seq<ShapeStruct>
    decreases |shapes|
  {
    if shapes == [] then []
    else ShapeStructs(math, shapes[..|shapes| - 1]) + [ShapeStructOf(math, shapes[|shapes| - 1])]
  }

  /** The snapshot has one record per shape, in the shapes' order; each record
      carries its shape's tags, the 0/1 encoding of its reflective flag, its
      composed transform and that transform's inverse. */
  lemma {:induction false} ShapeStructsAt(math: EngineMath, shapes: seq<Shape>, k: int)
    requires 0 <= k < |shapes|
    ensures |ShapeStructs(math, shapes)| == |shapes|
    ensures ShapeStructs(math, shapes)[k] == ShapeStructOf(math, shapes[k])
    ensures ShapeStructs(math, shapes)[k].id == shapes[k].shapeType
    ensures ShapeStructs(math, shapes)[k].alterId == shapes[k].alterationType
    ensures ShapeStructs(math, shapes)[k].reflective == (if shapes[k].reflective then 1 else 0)
    ensures var trm := math.translateRotate(shapes[k].position, shapes[k].rotation);
            ShapeStructs(math, shapes)[k].translateRotateMat == trm &&
            ShapeStructs(math, shapes)[k].translateRotateMatInv == math.inverse(trm)
    decreases |shapes|
  {
    var init := shapes[..|shapes| - 1];
    if k < |shapes| - 1 {
      ShapeStructsAt(math, init, k);
      assert init[k] == shapes[k];
    } else if init != [] {
      ShapeStructsAt(math, init, 0);
    }
  }

  /** The snapshot has exactly one record per shape, for every shape list
      (the empty scene included). */
  lemma {:induction false} ShapeStructsLength(math: EngineMath, shapes: seq<Shape>)
    ensures |ShapeStructs(math, shapes)| == |shapes|
    decreases |shapes|
  {
    if shapes != [] {
      ShapeStructsLength(math, shapes[..|shapes| - 1]);
    }
  }

  /** The camera record: position and basis copied verbatim. */
  function CameraStructOf(c: CameraView): CameraStruct
  {
    CameraStruct(c.position, c.right, c.up, c.forward)
  }

  /** The snapshot loop of DoRayMarch: allocate one record per shape and fill
      the array in index order. */
  method BuildShapeStructs(math: EngineMath, shapes: seq<Shape>) returns (shapeStructs: array<ShapeStruct>)
    ensures shapeStructs.Length == |shapes|
    ensures shapeStructs[..] == ShapeStructs(math, shapes)
  {
    shapeStructs := new ShapeStruct[|shapes|];
    for i := 0 to |shapes|
      invariant forall k :: 0 <= k < i ==> shapeStructs[k] == ShapeStructOf(math, shapes[k])
    {
      var shape := shapes[i];
      var translateScaleMat := math.translateRotate(shape.position, shape.rotation);
      shapeStructs[i] := ShapeStruct(
        translateScaleMat,
        math.inverse(translateScaleMat),
        math.halve(shape.localScale),
        shape.color,
        shape.shapeType,
        shape.alterationType,
        if shape.reflective then 1 else 0);
    }
    ShapeStructsLength(math, shapes);
    forall k | 0 <= k < |shapes|
      ensures shapeStructs[..][k] == ShapeStructs(math, shapes)[k]
    {
      ShapeStructsAt(math, shapes, k);
    }
  }
}
