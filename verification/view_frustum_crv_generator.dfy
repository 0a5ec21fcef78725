/**
 * Frustum curves from a camera's FOV query: the near and far planes at the given distances,
 * moved into world space by the camera's world matrix, drawn as six closed curves named after
 * the camera and grouped under `<camera>_grp`.
 */
module ViewFrustumCrvGenerator {
  import opened MathLib
  import opened Geometry
  import opened Frustum

  /** `get_frustum_plane_points`: the plane corners at `distance` for FOVs in degrees. */
  function GetFrustumPlanePoints(m: Math, distance: real, hFov: real, vFov: real): (pts: seq<Point>)
    ensures |pts| == 4
    ensures forall i :: 0 <= i < 4 ==> pts[i].z == -distance
    ensures pts[0] == Point(PlaneHalfSize(m, distance, hFov, vFov).0, PlaneHalfSize(m, distance, hFov, vFov).1, -distance)
    ensures pts[1] == Point(-PlaneHalfSize(m, distance, hFov, vFov).0, PlaneHalfSize(m, distance, hFov, vFov).1, -distance)
    ensures pts[2] == Point(-pts[0].x, -pts[0].y, pts[0].z) && pts[3] == Point(-pts[1].x, -pts[1].y, pts[1].z)
  {
    var (halfW, halfH) := PlaneHalfSize(m, distance, hFov, vFov);
    PlaneCorners(halfW, halfH, distance)
  }

  /**
   * For a real camera and a plane in front of it the corners lie one in each quadrant, in the
   * order (+,+), (-,+), (-,-), (+,-), and wind counter-clockwise around a positive area.
   */
  lemma PlanePointsWinding(m: Math, distance: real, hFov: real, vFov: real)
    requires Valid(m) && distance > 0.0 && 0.0 < hFov < 180.0 && 0.0 < vFov < 180.0
    ensures var p := GetFrustumPlanePoints(m, distance, hFov, vFov);
            && p[0].x > 0.0 && p[0].y > 0.0
            && p[1].x < 0.0 && p[1].y > 0.0
            && p[2].x < 0.0 && p[2].y < 0.0
            && p[3].x > 0.0 && p[3].y < 0.0
            && TwiceSignedArea(p) > 0.0
  {
    PlaneHalfSizePositive(m, distance, hFov, vFov);
    var (halfW, halfH) := PlaneHalfSize(m, distance, hFov, vFov);
    PlaneCornersWinding(halfW, halfH, distance);
  }

  /** At distance zero all four plane points collapse onto the camera's origin. */
  lemma PlanePointsAtZero(m: Math, hFov: real, vFov: real)
    ensures forall i :: 0 <= i < 4 ==> GetFrustumPlanePoints(m, 0.0, hFov, vFov)[i] == Point(0.0, 0.0, 0.0)
  {
    PlaneHalfSizeScales(m, 0.0, 0.0, hFov, vFov);
  }

  /**
   * `apply_camera_offset_to_points`: each point is multiplied by the world matrix, but the product
   * is only bound to the loop variable, so the points are left as they were and nothing is returned.
   */
  method ApplyCameraOffsetToPoints(worldMatrix: Matrix, points: array<Point>)
    ensures points[..] == old(points[..])
  {
    for i := 0 to points.Length {
      var p := Transform(points[i], worldMatrix);
    }
  }

  /** What the offset step evidently intends: every point replaced by its product with the world matrix. */
  method ApplyCameraOffsetInPlace(worldMatrix: Matrix, points: array<Point>)
    modifies points
    ensures points[..] == TransformAll(old(points[..]), worldMatrix)
  {
    for i := 0 to points.Length
      invariant points[i..] == old(points[i..])
      invariant forall j :: 0 <= j < i ==> points[j] == Transform(old(points[j]), worldMatrix)
    {
      points[i] := Transform(points[i], worldMatrix);
    }
  }

  /**
   * The two differ on real input: a camera one unit along +X moves the origin to (1, 0, 0), which
   * the step as written leaves at the origin.
   */
  lemma ApplyCameraOffsetDiscrepancy()
    ensures TransformAll([Point(0.0, 0.0, 0.0)], Translation(Point(1.0, 0.0, 0.0))) != [Point(0.0, 0.0, 0.0)]
  {
    assert TransformAll([Point(0.0, 0.0, 0.0)], Translation(Point(1.0, 0.0, 0.0)))[0] == Point(1.0, 0.0, 0.0);
  }

  /** The world-space corners of the plane at `distance`: the plane points times the camera's world matrix. */
  function WorldPlanePoints(m: Math, distance: real, hFov: real, vFov: real, worldMatrix: Matrix): (pts: seq<Point>)
    ensures |pts| == 4
    ensures forall i :: 0 <= i < 4 ==> pts[i] == Transform(GetFrustumPlanePoints(m, distance, hFov, vFov)[i], worldMatrix)
  {
    TransformAll(GetFrustumPlanePoints(m, distance, hFov, vFov), worldMatrix)
  }

  /** The six curves `make_camera_frustum_curves` asks the host for, in the order it creates them. */
  function FrustumCurves(m: Math, cameraName: string, hFov: real, vFov: real, worldMatrix: Matrix,
                         nearDistance: real, farDistance: real): (curves: seq<Curve>)
    ensures |curves| == 6
  {
    FaceCurves(cameraName, WorldPlanePoints(m, nearDistance, hFov, vFov, worldMatrix),
               WorldPlanePoints(m, farDistance, hFov, vFov, worldMatrix))
  }

  /** The group the curves are parented under. */
  function GroupName(cameraName: string): (r: string)
    ensures |r| == |cameraName| + 4 && r[..|cameraName|] == cameraName && r[|cameraName|..] == "_grp"
  {
    cameraName + "_grp"
  }

  /**
   * The six curves are named `<camera>_near`, `_far`, `_top`, `_left`, `_bottom`, `_right`: all
   * distinct, none equal to the group or the camera; each is closed with five points; near and
   * far pass through the world plane points; side face i joins near i, i+1 to far i+1, i.
   */
  lemma FrustumCurvesShape(m: Math, cameraName: string, hFov: real, vFov: real, worldMatrix: Matrix,
                           nearDistance: real, farDistance: real)
    ensures var curves := FrustumCurves(m, cameraName, hFov, vFov, worldMatrix, nearDistance, farDistance);
            var nearW := WorldPlanePoints(m, nearDistance, hFov, vFov, worldMatrix);
            var farW := WorldPlanePoints(m, farDistance, hFov, vFov, worldMatrix);
            && (forall f :: 0 <= f < 6 ==> curves[f].name == cameraName + "_" + FaceSuffixes[f])
            && (forall f :: 0 <= f < 6 ==> curves[f].name != GroupName(cameraName) && curves[f].name != cameraName)
            && (forall f, g :: 0 <= f < g < 6 ==> curves[f].name != curves[g].name)
            && (forall f :: 0 <= f < 6 ==> |curves[f].points| == 5 && curves[f].points[4] == curves[f].points[0])
            && curves[0].points[..4] == nearW
            && curves[1].points[..4] == farW
            && (forall i :: 0 <= i < 4 ==> curves[2 + i].points[..4] == SideQuad(nearW, farW, i))
  {
    var curves := FrustumCurves(m, cameraName, hFov, vFov, worldMatrix, nearDistance, farDistance);
    var nearW := WorldPlanePoints(m, nearDistance, hFov, vFov, worldMatrix);
    var farW := WorldPlanePoints(m, farDistance, hFov, vFov, worldMatrix);
    assert curves == FaceCurves(cameraName, nearW, farW);
    forall f | 0 <= f < 6
      ensures curves[f].name != GroupName(cameraName) && curves[f].name != cameraName
    {
      GroupNameIsNotFaceName(cameraName, f);
    }
    forall f, g | 0 <= f < g < 6
      ensures curves[f].name != curves[g].name
    {
      FaceNamesDistinct(cameraName, f, g);
    }
    forall i | 0 <= i < 4
      ensures curves[2 + i].points[..4] == SideQuad(nearW, farW, i)
    {
      SideFacePattern(nearW, farW, i);
    }
  }

  /** The six face curve names in creation order. */
  function FaceNames(cameraName: string): (names: seq<string>)
    ensures |names| == 6 && forall f :: 0 <= f < 6 ==> names[f] == FaceName(cameraName, f)
  {
    seq(6, f requires 0 <= f < 6 => FaceName(cameraName, f))
  }

  /** The group's name differs from the camera's and from every face curve's. */
  lemma GroupNameIsNotFaceName(cameraName: string, f: int)
    requires 0 <= f < 6
    ensures GroupName(cameraName) != FaceName(cameraName, f)
    ensures GroupName(cameraName) != cameraName && FaceName(cameraName, f) != cameraName
  {
    var head := cameraName + "_";
    assert GroupName(cameraName)[|head|..] == "grp";
    assert FaceName(cameraName, f)[|head|..] == FaceSuffixes[f];
    FaceNamesDistinct(cameraName, f, f);
    assert |GroupName(cameraName)| > |cameraName|;
  }

  /** A node of the host scene, as far as the frustum script sees it. */
  datatype SceneNode =
    | CameraNode(hFov: real, vFov: real, worldMatrix: Matrix)  // answers the FOV and matrix queries
    | GroupNode                                                // an empty transform group
    | CurveNode(points: seq<Point>)                            // a degree-1 curve through `points`
    | OtherNode

  /** The host scene: nodes by name, and each parented node's parent (absent means world level). */
  class Scene {
    var nodes: map<string, SceneNode>
    var parentOf: map<string, string>

    /** Only existing nodes have a parent link. */
    predicate Valid()
      reads this
    {
      parentOf.Keys <= nodes.Keys
    }

    constructor(nodes0: map<string, SceneNode>, parentOf0: map<string, string>)
      requires parentOf0.Keys <= nodes0.Keys
      ensures Valid()
      ensures nodes == nodes0 && parentOf == parentOf0
    {
      nodes := nodes0;
      parentOf := parentOf0;
    }

    /**
     * `_make_closed_curve`: delete any node already called `crvName`, then create a curve of that
     * name at world level through the points and back to the first one.
     */
    method MakeClosedCurve(points: seq<Point>, crvName: string) returns (crv: string)
      requires Valid() && |points| > 0
      modifies this
      ensures Valid()
      ensures crv == crvName
      ensures nodes == old(nodes)[crvName := CurveNode(ClosedCurve(points))]
      ensures parentOf == old(parentOf) - {crvName}
    {
      if crvName in nodes {
        nodes := nodes - {crvName};
        parentOf := parentOf - {crvName};
      }
      nodes := nodes[crvName := CurveNode(ClosedCurve(points))];
      crv := crvName;
    }

    /**
     * The six `_make_closed_curve` calls: face f becomes a curve named `FaceName(prefix, f)` at
     * world level, closed over the face's corners; every other node and link is unchanged.
     */
    method MakeFaceCurves(prefix: string, quads: seq<seq<Point>>) returns (made: seq<string>)
      requires Valid()
      requires |quads| == 6 && forall f :: 0 <= f < 6 ==> |quads[f]| > 0
      modifies this
      ensures Valid()
      ensures made == FaceNames(prefix)
      ensures forall f :: 0 <= f < 6 ==> made[f] in nodes && nodes[made[f]] == CurveNode(ClosedCurve(quads[f]))
      ensures forall f :: 0 <= f < 6 ==> made[f] !in parentOf
      ensures forall k :: k !in made ==> (k in nodes <==> k in old(nodes)) && (k in nodes ==> nodes[k] == old(nodes)[k])
      ensures forall k :: k !in made ==> (k in parentOf <==> k in old(parentOf)) && (k in parentOf ==> parentOf[k] == old(parentOf)[k])
    {
      made := [];
      for f := 0 to 6
        invariant Valid()
        invariant |made| == f && forall g :: 0 <= g < f ==> made[g] == FaceName(prefix, g)
        invariant forall g :: 0 <= g < f ==> made[g] in nodes && nodes[made[g]] == CurveNode(ClosedCurve(quads[g]))
        invariant forall g :: 0 <= g < f ==> made[g] !in parentOf
        invariant forall k :: k !in made ==> (k in nodes <==> k in old(nodes)) && (k in nodes ==> nodes[k] == old(nodes)[k])
        invariant forall k :: k !in made ==> (k in parentOf <==> k in old(parentOf)) && (k in parentOf ==> parentOf[k] == old(parentOf)[k])
      {
        var name := FaceName(prefix, f);
        forall g | 0 <= g < f
          ensures made[g] != name
        {
          FaceNamesDistinct(prefix, g, f);
        }
        var crv := MakeClosedCurve(quads[f], name);
        made := made + [crv];
      }
      assert made == FaceNames(prefix);
    }

    /** The parenting loop: every node in `children` is put under `parent`; nothing else changes. */
    method ParentAll(children: seq<string>, parent: string)
      requires Valid() && forall c :: c in children ==> c in nodes
      modifies this
      ensures Valid()
      ensures nodes == old(nodes)
      ensures forall c :: c in children ==> c in parentOf && parentOf[c] == parent
      ensures forall k :: k !in children ==> (k in parentOf <==> k in old(parentOf)) && (k in parentOf ==> parentOf[k] == old(parentOf)[k])
    {
      for i := 0 to |children|
        invariant Valid() && nodes == old(nodes)
        invariant forall c :: c in children[..i] ==> c in parentOf && parentOf[c] == parent
        invariant forall k :: k !in children[..i] ==> (k in parentOf <==> k in old(parentOf)) && (k in parentOf ==> parentOf[k] == old(parentOf)[k])
      {
        parentOf := parentOf[children[i] := parent];
      }
    }

    /**
     * The scene edits of `make_camera_frustum_curves` once the world corners are known: reuse or
     * create the group, make the six face curves, parent them under the group, and parent the
     * group under the camera.
     */
    method BuildRig(cameraName: string, nearW: seq<Point>, farW: seq<Point>)
      requires Valid() && |nearW| == 4 && |farW| == 4
      modifies this
      ensures Valid()
      ensures var curves := FaceCurves(cameraName, nearW, farW);
              var grp := GroupName(cameraName);
              && (forall f :: 0 <= f < 6 ==> curves[f].name in nodes && nodes[curves[f].name] == CurveNode(curves[f].points))
              && (forall f :: 0 <= f < 6 ==> curves[f].name in parentOf && parentOf[curves[f].name] == grp)
              && grp in nodes && nodes[grp] == (if grp in old(nodes) then old(nodes)[grp] else GroupNode)
              && grp in parentOf && parentOf[grp] == cameraName
              && (forall k :: k != grp && k !in FaceNames(cameraName) ==>
                    && (k in nodes <==> k in old(nodes)) && (k in nodes ==> nodes[k] == old(nodes)[k])
                    && (k in parentOf <==> k in old(parentOf)) && (k in parentOf ==> parentOf[k] == old(parentOf)[k]))
    {
      var grp := GroupName(cameraName);
      if grp !in nodes {
        nodes := nodes[grp := GroupNode];
      }
      var quads := FaceQuads(nearW, farW);
      var made := MakeFaceCurves(cameraName, quads);
      forall f | 0 <= f < 6
        ensures made[f] != grp
      {
        GroupNameIsNotFaceName(cameraName, f);
      }
      ParentAll(made, grp);
      parentOf := parentOf[grp := cameraName];
      ghost var curves := FaceCurves(cameraName, nearW, farW);
      forall f | 0 <= f < 6
        ensures curves[f].name == made[f] && curves[f].points == ClosedCurve(quads[f])
      {
      }
    }

    /**
     * `make_camera_frustum_curves`. Without a camera of that name the FOV query fails and nothing
     * changes. Otherwise the six curves replace any nodes of their names, sit under
     * `<camera>_grp` (reused when it exists, created empty otherwise), the group sits under the
     * camera, and every other node and parent link is as before.
     */
    method MakeCameraFrustumCurves(m: Math, cameraName: string := "camera1",
                                   nearDistance: real := 1.0, farDistance: real := 10.0) returns (ok: bool)
      requires Valid()
      modifies this
      ensures Valid()
      ensures ok <==> cameraName in old(nodes) && old(nodes)[cameraName].CameraNode?
      ensures !ok ==> nodes == old(nodes) && parentOf == old(parentOf)
      ensures ok ==>
                var cam := old(nodes)[cameraName];
                var curves := FrustumCurves(m, cameraName, cam.hFov, cam.vFov, cam.worldMatrix, nearDistance, farDistance);
                var grp := GroupName(cameraName);
                && (forall f :: 0 <= f < 6 ==> curves[f].name in nodes && nodes[curves[f].name] == CurveNode(curves[f].points))
                && (forall f :: 0 <= f < 6 ==> curves[f].name in parentOf && parentOf[curves[f].name] == grp)
                && grp in nodes && nodes[grp] == (if grp in old(nodes) then old(nodes)[grp] else GroupNode)
                && grp in parentOf && parentOf[grp] == cameraName
                && (forall k :: k != grp && k !in FaceNames(cameraName) ==>
                      && (k in nodes <==> k in old(nodes)) && (k in nodes ==> nodes[k] == old(nodes)[k])
                      && (k in parentOf <==> k in old(parentOf)) && (k in parentOf ==> parentOf[k] == old(parentOf)[k]))
    {
      if !(cameraName in nodes && nodes[cameraName].CameraNode?) {
        return false;
      }
      var cam := nodes[cameraName];
      var nearW := WorldPlanePoints(m, nearDistance, cam.hFov, cam.vFov, cam.worldMatrix);
      var farW := WorldPlanePoints(m, farDistance, cam.hFov, cam.vFov, cam.worldMatrix);
      ghost var curves := FrustumCurves(m, cameraName, cam.hFov, cam.vFov, cam.worldMatrix, nearDistance, farDistance);
      assert curves == FaceCurves(cameraName, nearW, farW);

      BuildRig(cameraName, nearW, farW);
      ok := true;
    }
  }
}
