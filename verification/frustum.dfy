/**
 * Frustum geometry shared by the frustum-curve scripts: the half size of a frustum plane,
 * its four corners in camera space, the closed point lists of the six faces, and their names.
 */
module Frustum {
  import opened MathLib
  import opened Geometry

  /** Half width and half height of the plane at `distance` in front of a camera with FOVs in degrees. */
  function PlaneHalfSize(m: Math, distance: real, hFov: real, vFov: real): (r: (real, real))
    ensures r.0 == distance * m.tan(0.5 * Radians(m, hFov)) && r.1 == distance * m.tan(0.5 * Radians(m, vFov))
    ensures distance == 0.0 ==> r.0 == 0.0 && r.1 == 0.0
  {
    assert Radians(m, hFov * 0.5) == 0.5 * Radians(m, hFov);
    assert Radians(m, vFov * 0.5) == 0.5 * Radians(m, vFov);
    (distance * m.tan(Radians(m, hFov * 0.5)), distance * m.tan(Radians(m, vFov * 0.5)))
  }

  /** The half size is linear in the distance: scaling the distance by `k` scales both halves by `k`. */
  lemma PlaneHalfSizeScales(m: Math, k: real, distance: real, hFov: real, vFov: real)
    ensures PlaneHalfSize(m, k * distance, hFov, vFov).0 == k * PlaneHalfSize(m, distance, hFov, vFov).0
    ensures PlaneHalfSize(m, k * distance, hFov, vFov).1 == k * PlaneHalfSize(m, distance, hFov, vFov).1
    ensures PlaneHalfSize(m, 0.0, hFov, vFov) == (0.0, 0.0)
  {
  }

  /** For a real camera (FOVs strictly between 0 and 180 degrees) a plane in front of it has positive size. */
  lemma PlaneHalfSizePositive(m: Math, distance: real, hFov: real, vFov: real)
    requires Valid(m)
    requires distance > 0.0 && 0.0 < hFov < 180.0 && 0.0 < vFov < 180.0
    ensures PlaneHalfSize(m, distance, hFov, vFov).0 > 0.0
    ensures PlaneHalfSize(m, distance, hFov, vFov).1 > 0.0
  {
    HalfAngleInRange(m, hFov);
    HalfAngleInRange(m, vFov);
  }

  /**
   * The corners of the plane at `distance` (camera looks down -Z), starting top-right and
   * going (+,+), (-,+), (-,-), (+,-).
   */
  function PlaneCorners(hw: real, hh: real, distance: real): (r: seq<Point>)
    ensures |r| == 4
    ensures forall i :: 0 <= i < 4 ==> r[i].z == -distance
    ensures r[2] == Point(-r[0].x, -r[0].y, r[0].z) && r[3] == Point(-r[1].x, -r[1].y, r[1].z)
  {
    [Point(hw, hh, -distance), Point(-hw, hh, -distance), Point(-hw, -hh, -distance), Point(hw, -hh, -distance)]
  }

  /** The z component of the cross product of two points read as vectors in the XY plane. */
  function Cross(a: Point, b: Point): real {
    a.x * b.y - b.x * a.y
  }

  /** Twice the signed area of the quadrilateral p0 p1 p2 p3 in the XY plane (the shoelace sum). */
  function TwiceSignedArea(p: seq<Point>): real
    requires |p| == 4
  {
    Cross(p[0], p[1]) + Cross(p[1], p[2]) + Cross(p[2], p[3]) + Cross(p[3], p[0])
  }

  /**
   * The winding is counter-clockwise in the XY plane and encloses the full 2hw x 2hh rectangle:
   * the signed area is 4 * hw * hh, positive whenever both half sizes are.
   */
  lemma PlaneCornersWinding(hw: real, hh: real, distance: real)
    ensures TwiceSignedArea(PlaneCorners(hw, hh, distance)) == 2.0 * (2.0 * hw) * (2.0 * hh)
    ensures hw > 0.0 && hh > 0.0 ==> TwiceSignedArea(PlaneCorners(hw, hh, distance)) > 0.0
  {
    var p := PlaneCorners(hw, hh, distance);
    assert Cross(p[0], p[1]) == 2.0 * hw * hh;
    assert Cross(p[1], p[2]) == 2.0 * hw * hh;
    assert Cross(p[2], p[3]) == 2.0 * hw * hh;
    assert Cross(p[3], p[0]) == 2.0 * hw * hh;
    if hw > 0.0 && hh > 0.0 {
      assert hw * hh > 0.0;
    }
  }

  /** The point list of a closed degree-1 curve through `points`: the points, then the first again. */
  function ClosedCurve(points: seq<Point>): (pts: seq<Point>)
    requires |points| > 0
    ensures |pts| == |points| + 1
    ensures pts[..|points|] == points
    ensures pts[|points|] == pts[0] == points[0]
  {
    points + [points[0]]
  }

  /** The curve names' suffixes, in the order the faces are built. */
  const FaceSuffixes: seq<string> := ["near", "far", "top", "left", "bottom", "right"]

  /** The four corners of each face, in the order near, far, top, left, bottom, right. */
  function FaceQuads(nearW: seq<Point>, farW: seq<Point>): (quads: seq<seq<Point>>)
    requires |nearW| == 4 && |farW| == 4
    ensures |quads| == 6
    ensures forall f :: 0 <= f < 6 ==> |quads[f]| == 4
    ensures quads[0] == nearW && quads[1] == farW
  {
    [ nearW,
      farW,
      [nearW[0], nearW[1], farW[1], farW[0]],
      [nearW[1], nearW[2], farW[2], farW[1]],
      [nearW[2], nearW[3], farW[3], farW[2]],
      [nearW[3], nearW[0], farW[0], farW[3]] ]
  }

  /** The six faces as closed point lists: each face's corners followed by its first corner. */
  function FaceLoops(nearW: seq<Point>, farW: seq<Point>): (faces: seq<seq<Point>>)
    requires |nearW| == 4 && |farW| == 4
    ensures |faces| == 6
    ensures forall f :: 0 <= f < 6 ==> |faces[f]| == 5 && faces[f][4] == faces[f][0]
    ensures faces[0][..4] == nearW && faces[1][..4] == farW
  {
    var quads := FaceQuads(nearW, farW);
    seq(6, f requires 0 <= f < 6 => ClosedCurve(quads[f]))
  }

  /** The four corners of side face i: near i, near i+1, far i+1, far i (indices mod 4). */
  function SideQuad(nearW: seq<Point>, farW: seq<Point>, i: int): seq<Point>
    requires |nearW| == 4 && |farW| == 4 && 0 <= i < 4
  {
    [nearW[i], nearW[(i + 1) % 4], farW[(i + 1) % 4], farW[i]]
  }

  /** The side faces (top, left, bottom, right) follow one pattern: face 2 + i is side quad i, closed. */
  lemma SideFacePattern(nearW: seq<Point>, farW: seq<Point>, i: int)
    requires |nearW| == 4 && |farW| == 4 && 0 <= i < 4
    ensures FaceQuads(nearW, farW)[2 + i] == SideQuad(nearW, farW, i)
    ensures FaceLoops(nearW, farW)[2 + i] == ClosedCurve(SideQuad(nearW, farW, i))
  {
    var quads := FaceQuads(nearW, farW);
    if i == 0 {
      assert quads[2] == [nearW[0], nearW[1], farW[1], farW[0]];
    } else if i == 1 {
      assert quads[3] == [nearW[1], nearW[2], farW[2], farW[1]];
    } else if i == 2 {
      assert quads[4] == [nearW[2], nearW[3], farW[3], farW[2]];
    } else {
      assert quads[5] == [nearW[3], nearW[0], farW[0], farW[3]];
    }
  }

  /** A curve the scripts create: its requested name and the points it passes through. */
  datatype Curve = Curve(name: string, points: seq<Point>)

  /** The name of face curve f: `prefix + "_" + suffix`. */
  function FaceName(prefix: string, f: int): string
    requires 0 <= f < 6
  {
    prefix + "_" + FaceSuffixes[f]
  }

  /** No two faces ask for the same name, and no face name is the prefix itself. */
  lemma FaceNamesDistinct(prefix: string, f: int, g: int)
    requires 0 <= f < 6 && 0 <= g < 6
    ensures f != g ==> FaceName(prefix, f) != FaceName(prefix, g)
    ensures FaceName(prefix, f) != prefix
  {
    var head := prefix + "_";
    assert |FaceName(prefix, f)| > |prefix|;
    assert FaceName(prefix, f)[|head|..] == FaceSuffixes[f];
    assert FaceName(prefix, g)[|head|..] == FaceSuffixes[g];
  }

  /** The six face curves, face f named `FaceName(prefix, f)` and passing through face loop f. */
  function FaceCurves(prefix: string, nearW: seq<Point>, farW: seq<Point>): (curves: seq<Curve>)
    requires |nearW| == 4 && |farW| == 4
    ensures |curves| == 6
    ensures forall f :: 0 <= f < 6 ==> curves[f].name == FaceName(prefix, f)
    ensures forall f :: 0 <= f < 6 ==> curves[f].points == FaceLoops(nearW, farW)[f]
  {
    var faces := FaceLoops(nearW, farW);
    seq(6, f requires 0 <= f < 6 => Curve(FaceName(prefix, f), faces[f]))
  }
}
