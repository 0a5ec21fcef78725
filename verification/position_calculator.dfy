/**
 * Turnaround framing: where to put a camera on +Z so that an asset spinning about the
 * vertical axis through its centre stays in view. The host's scene is given as a map from
 * node names to nodes; "the node exists" is membership in that map.
 */
module PositionCalculator {
  import opened Outcomes
  import opened MathLib
  import opened Geometry

  /** An axis-aligned world-space bounding box, as the host reports it. */
  datatype BoundingBox = BoundingBox(min: Point, max: Point) {
    function Width(): real { max.x - min.x }
    function Height(): real { max.y - min.y }
    function Depth(): real { max.z - min.z }
    function Center(): Point { Point((min.x + max.x) / 2.0, (min.y + max.y) / 2.0, (min.z + max.z) / 2.0) }
    predicate Degenerate() { Width() == 0.0 && Height() == 0.0 && Depth() == 0.0 }
  }

  /** What the host's camera query answers: horizontal and vertical field of view in degrees. */
  datatype Lens = Lens(hFov: real, vFov: real)

  /** A transform lists the names of the camera shapes under it; a camera shape carries its lens. */
  datatype NodeKind =
    | TransformNode(cameraShapes: seq<string>)
    | CameraShapeNode(lens: Lens)
    | OtherNode

  datatype Node = Node(kind: NodeKind, bbox: BoundingBox)

  type Scene = map<string, Node>

  /** The camera shape a camera name stands for: the first camera shape under a transform, else the node itself. */
  function CameraShapeOf(scene: Scene, camNode: string): (r: Result<string>)
    ensures r.Err? <==> camNode in scene && scene[camNode].kind.TransformNode? && scene[camNode].kind.cameraShapes == []
    ensures r.Err? ==> r.error == NoCameraShape(camNode)
    ensures r.Ok? && camNode in scene && scene[camNode].kind.TransformNode? ==> r.value == scene[camNode].kind.cameraShapes[0]
    ensures r.Ok? && !(camNode in scene && scene[camNode].kind.TransformNode?) ==> r.value == camNode
  {
    if camNode in scene && scene[camNode].kind.TransformNode? then
      var shapes := scene[camNode].kind.cameraShapes;
      if shapes == [] then Err(NoCameraShape(camNode)) else Ok(shapes[0])
    else
      Ok(camNode)
  }

  /** `_get_fov`: (h_fov, v_fov) in degrees of the camera behind a transform or camera shape name. */
  function GetFov(scene: Scene, camNode: string): (r: Result<Lens>)
    ensures r.Ok? <==> CameraShapeOf(scene, camNode).Ok?
                       && CameraShapeOf(scene, camNode).value in scene
                       && scene[CameraShapeOf(scene, camNode).value].kind.CameraShapeNode?
    ensures r.Ok? ==> r.value == scene[CameraShapeOf(scene, camNode).value].kind.lens
    ensures camNode in scene && scene[camNode].kind.TransformNode? && scene[camNode].kind.cameraShapes == []
            ==> r == Err(NoCameraShape(camNode))
  {
    var shape :- CameraShapeOf(scene, camNode);
    if shape in scene && scene[shape].kind.CameraShapeNode? then Ok(scene[shape].kind.lens)
    else Err(NotACamera(shape))
  }

  /** The framing padding; fixed, whatever the caller wants. */
  const Padding: real := 1.1

  /** FOVs are clamped to this many degrees from below before conversion to radians. */
  const MinFovDeg: real := 0.000001

  /** Radius of the asset's horizontal (XZ) cross-section: hypot of half width and half depth. */
  function OrbitRadius(m: Math, bb: BoundingBox): (r: real)
    ensures Valid(m) ==> r >= 0.0 && r * r == (bb.Width() * 0.5) * (bb.Width() * 0.5) + (bb.Depth() * 0.5) * (bb.Depth() * 0.5)
  {
    m.hypot(bb.Width() * 0.5, bb.Depth() * 0.5)
  }

  /** Half of the clamped FOV, in radians: the argument handed to `tan`. */
  function HalfAngle(m: Math, fovDeg: real): (r: real)
    ensures r == 0.5 * Radians(m, fovDeg) || r == 0.5 * Radians(m, MinFovDeg)
    ensures m.pi > 0.0 ==> r >= 0.5 * Radians(m, fovDeg) && r >= 0.5 * Radians(m, MinFovDeg) > 0.0
  {
    0.5 * Radians(m, Max(fovDeg, MinFovDeg))
  }

  /** Python's `a / b`, failing on a zero divisor. */
  function Divide(a: real, b: real): (r: Result<real>)
    ensures r.Err? <==> b == 0.0
    ensures r.Err? ==> r.error == ZeroDivision
    ensures r.Ok? ==> r.value * b == a
  {
    if b == 0.0 then Err(ZeroDivision) else Ok(a / b)
  }

  /** The distances that fit the asset horizontally and vertically, each with the orbit term `r_h`. */
  function FitDistances(m: Math, bb: BoundingBox, lens: Lens): (r: Result<(real, real)>)
    ensures r.Err? <==> m.tan(HalfAngle(m, lens.hFov)) == 0.0 || m.tan(HalfAngle(m, lens.vFov)) == 0.0
    ensures r.Err? ==> r.error == ZeroDivision
    ensures r.Ok? ==> (r.value.0 - OrbitRadius(m, bb)) * m.tan(HalfAngle(m, lens.hFov)) == OrbitRadius(m, bb)
    ensures r.Ok? ==> (r.value.1 - OrbitRadius(m, bb)) * m.tan(HalfAngle(m, lens.vFov)) == bb.Height() * 0.5
  {
    var rH := OrbitRadius(m, bb);
    var h := Divide(rH, m.tan(HalfAngle(m, lens.hFov)));
    var v := Divide(bb.Height() * 0.5, m.tan(HalfAngle(m, lens.vFov)));
    if h.Err? then Err(h.error)
    else if v.Err? then Err(v.error)
    else Ok((h.value + rH, v.value + rH))
  }

  /** The camera position for a bounding box and a lens: (0, centre y, padded larger fit distance). */
  function FramePosition(m: Math, bb: BoundingBox, lens: Lens): (r: Result<Point>)
    ensures r.Ok? <==> FitDistances(m, bb, lens).Ok?
    ensures r.Ok? ==> r.value.x == 0.0 && r.value.y == bb.Center().y
    ensures r.Ok? ==> var (dH, dV) := FitDistances(m, bb, lens).value;
                      r.value.z >= Padding * dH && r.value.z >= Padding * dV
                      && (r.value.z == Padding * dH || r.value.z == Padding * dV)
  {
    var d :- FitDistances(m, bb, lens);
    var distance := Max(d.0, d.1);
    Ok(Point(0.0, bb.Center().y, distance * Padding))
  }

  /**
   * `get_turnaround_camera_pos`: Ok(None) when the asset or the camera does not exist (asset checked
   * first), an error when the FOV lookup fails, otherwise the framing position.
   */
  function GetTurnaroundCameraPos(m: Math, scene: Scene, cameraName: string := "camera1", assetGrp: string := "asset")
    : (r: Result<Option<Point>>)
    ensures assetGrp !in scene ==> r == Ok(None)
    ensures cameraName !in scene ==> r == Ok(None)
    ensures assetGrp in scene && cameraName in scene && GetFov(scene, cameraName).Err?
            ==> r == Err(GetFov(scene, cameraName).error)
    ensures assetGrp in scene && cameraName in scene && GetFov(scene, cameraName).Ok?
            ==> r == (var p := FramePosition(m, scene[assetGrp].bbox, GetFov(scene, cameraName).value);
                      if p.Ok? then Ok(Some(p.value)) else Err(p.error))
  {
    if assetGrp !in scene then Ok(None)
    else if cameraName !in scene then Ok(None)
    else
      var bb := scene[assetGrp].bbox;
      var lens :- GetFov(scene, cameraName);
      var p :- FramePosition(m, bb, lens);
      Ok(Some(p))
  }

  /** The XZ radius covers the half width and the half depth, and is their hypotenuse. */
  lemma OrbitRadiusBounds(m: Math, bb: BoundingBox)
    requires Valid(m)
    ensures OrbitRadius(m, bb) >= bb.Width() * 0.5 && OrbitRadius(m, bb) >= bb.Depth() * 0.5
    ensures OrbitRadius(m, bb) >= 0.0
    ensures OrbitRadius(m, bb) * OrbitRadius(m, bb)
            == (bb.Width() * 0.5) * (bb.Width() * 0.5) + (bb.Depth() * 0.5) * (bb.Depth() * 0.5)
  {
    HypotBounds(m, bb.Width() * 0.5, bb.Depth() * 0.5);
  }

  /** Clamping makes the tan argument strictly positive, and below pi/2 for any FOV under 180 degrees. */
  lemma HalfAngleRange(m: Math, fovDeg: real)
    requires Valid(m) && fovDeg < 180.0
    ensures 0.0 < HalfAngle(m, fovDeg) < m.pi / 2.0
    ensures m.tan(HalfAngle(m, fovDeg)) > 0.0
  {
    HalfAngleInRange(m, Max(fovDeg, MinFovDeg));
  }

  /**
   * With FOVs below 180 degrees nothing divides by zero, the horizontal fit is at least `r_h`,
   * and so the camera sits at least 1.10 * r_h away; for a box with non-negative height the
   * vertical fit is at least `r_h` too.
   */
  lemma FramingBounds(m: Math, bb: BoundingBox, lens: Lens)
    requires Valid(m) && lens.hFov < 180.0 && lens.vFov < 180.0
    ensures FitDistances(m, bb, lens).Ok? && FramePosition(m, bb, lens).Ok?
    ensures FitDistances(m, bb, lens).value.0 >= OrbitRadius(m, bb)
    ensures bb.Height() >= 0.0 ==> FitDistances(m, bb, lens).value.1 >= OrbitRadius(m, bb)
    ensures FramePosition(m, bb, lens).value.z >= Padding * OrbitRadius(m, bb)
  {
    HalfAngleRange(m, lens.hFov);
    HalfAngleRange(m, lens.vFov);
    OrbitRadiusBounds(m, bb);
    var rH := OrbitRadius(m, bb);
    var tH := m.tan(HalfAngle(m, lens.hFov));
    var tV := m.tan(HalfAngle(m, lens.vFov));
    assert rH / tH >= 0.0;
    if bb.Height() >= 0.0 {
      assert (bb.Height() * 0.5) / tV >= 0.0;
    }
  }

  /** A box with no extent frames at distance zero, without failing. */
  lemma DegenerateBoxFramesAtZero(m: Math, bb: BoundingBox, lens: Lens)
    requires Valid(m) && lens.hFov < 180.0 && lens.vFov < 180.0
    requires bb.Degenerate()
    ensures FramePosition(m, bb, lens) == Ok(Point(0.0, bb.Center().y, 0.0))
  {
    HalfAngleRange(m, lens.hFov);
    HalfAngleRange(m, lens.vFov);
    HypotZero(m);
    assert OrbitRadius(m, bb) == 0.0;
  }
}
