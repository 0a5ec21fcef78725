/**
 * Frustum curves from a camera's physical lens: the film aperture is fitted to the image aspect
 * ("fill"), the FOVs follow from the focal length, and the near and far planes are turned into
 * six closed face curves in world space.
 */
module FilmFitFrustum {
  import opened Outcomes
  import opened MathLib
  import opened Geometry
  import opened Frustum

  const InchToMm: real := 25.4

  /** The camera attributes the script reads: focal length in mm, film aperture in inches. */
  datatype CameraLens = CameraLens(focalLength: real, horizontalFilmAperture: real, verticalFilmAperture: real)

  /** `_effective_aperture_mm`: (width, height) in mm of the film gate fitted to `imageAspect`. */
  function EffectiveApertureMm(cam: CameraLens, imageAspect: real): (r: Result<(real, real)>)
    ensures cam.verticalFilmAperture == 0.0 ==> r == Err(ZeroDivision)
    ensures cam.verticalFilmAperture != 0.0 && imageAspect != 0.0 ==> r.Ok?
    ensures r.Err? <==> cam.verticalFilmAperture == 0.0
                        || (imageAspect == 0.0
                            && imageAspect <= (cam.horizontalFilmAperture * InchToMm) / (cam.verticalFilmAperture * InchToMm))
    ensures r.Err? ==> r.error == ZeroDivision
    ensures r.Ok? ==> r.value.0 == r.value.1 * imageAspect
    ensures r.Ok? ==> r.value.1 == cam.verticalFilmAperture * InchToMm
                      || r.value.0 == cam.horizontalFilmAperture * InchToMm
  {
    var apW := cam.horizontalFilmAperture * InchToMm;
    var apH := cam.verticalFilmAperture * InchToMm;
    if apH == 0.0 then Err(ZeroDivision)
    else
      var sensorAspect := apW / apH;
      if imageAspect > sensorAspect then Ok((apH * imageAspect, apH))
      else if imageAspect == 0.0 then Err(ZeroDivision)
      else Ok((apW, apW / imageAspect))
  }

  /**
   * For a real film gate and image, the fitted gate covers the sensor; it keeps the sensor's height
   * when the image is wider than the sensor and the sensor's width otherwise.
   */
  lemma EffectiveApertureCovers(cam: CameraLens, imageAspect: real)
    requires cam.horizontalFilmAperture > 0.0 && cam.verticalFilmAperture > 0.0 && imageAspect > 0.0
    ensures var r := EffectiveApertureMm(cam, imageAspect);
            var apW := cam.horizontalFilmAperture * InchToMm;
            var apH := cam.verticalFilmAperture * InchToMm;
            && r.Ok?
            && r.value.0 >= apW && r.value.1 >= apH
            && (imageAspect > apW / apH ==> r.value.1 == apH && r.value.0 > apW)
            && (imageAspect <= apW / apH ==> r.value.0 == apW)
  {
    var apW := cam.horizontalFilmAperture * InchToMm;
    var apH := cam.verticalFilmAperture * InchToMm;
    assert apW > 0.0 && apH > 0.0;
    if imageAspect > apW / apH {
      assert apH * imageAspect > apH * (apW / apH);
      assert apH * (apW / apH) == apW;
    } else {
      assert imageAspect * apH <= (apW / apH) * apH;
      assert (apW / apH) * apH == apW;
      assert apW / imageAspect >= apH by {
        assert (apW / imageAspect) * imageAspect == apW;
        assert (apW / imageAspect - apH) * imageAspect >= 0.0;
      }
    }
  }

  /** `_fov_from_aperture`: (hfov, vfov) in radians. */
  function FovFromAperture(m: Math, focalMm: real, effW: real, effH: real): (r: Result<(real, real)>)
    ensures r.Err? <==> focalMm == 0.0
  {
    if focalMm == 0.0 then Err(ZeroDivision)
    else Ok((2.0 * m.atan((effW * 0.5) / focalMm), 2.0 * m.atan((effH * 0.5) / focalMm)))
  }

  /** The FOV undoes its own tangent: tan(fov / 2) is half the gate over the focal length. */
  lemma FovTangent(m: Math, focalMm: real, effW: real, effH: real)
    requires Valid(m) && focalMm != 0.0
    ensures m.tan(FovFromAperture(m, focalMm, effW, effH).value.0 * 0.5) == (effW * 0.5) / focalMm
    ensures m.tan(FovFromAperture(m, focalMm, effW, effH).value.1 * 0.5) == (effH * 0.5) / focalMm
  {
    var xw := (effW * 0.5) / focalMm;
    var xh := (effH * 0.5) / focalMm;
    assert (2.0 * m.atan(xw)) * 0.5 == m.atan(xw);
    assert (2.0 * m.atan(xh)) * 0.5 == m.atan(xh);
  }

  /** A gate and a focal length of the same sign give an FOV strictly between 0 and pi. */
  lemma FovRange(m: Math, focalMm: real, effW: real, effH: real)
    requires Valid(m) && focalMm != 0.0
    ensures (effW * 0.5) / focalMm > 0.0 ==> 0.0 < FovFromAperture(m, focalMm, effW, effH).value.0 < m.pi
    ensures (effH * 0.5) / focalMm > 0.0 ==> 0.0 < FovFromAperture(m, focalMm, effW, effH).value.1 < m.pi
  {
  }

  /** The dictionary `make_camera_frustum_curves` returns, with the curves it created. */
  datatype FrustumInfo = FrustumInfo(
    group: string,
    curves: seq<Curve>,
    hFovDeg: real,
    vFovDeg: real,
    nearHalfWidth: real,
    nearHalfHeight: real,
    farHalfWidth: real,
    farHalfHeight: real)

  /** Half width and half height of the plane at `distance` for FOVs in radians. */
  function HalfExtents(m: Math, distance: real, hFov: real, vFov: real): (r: (real, real))
    ensures distance == 0.0 ==> r.0 == 0.0 && r.1 == 0.0
    ensures Valid(m) && distance > 0.0 && 0.0 < hFov < m.pi ==> r.0 > 0.0
    ensures Valid(m) && distance > 0.0 && 0.0 < vFov < m.pi ==> r.1 > 0.0
  {
    (distance * m.tan(hFov * 0.5), distance * m.tan(vFov * 0.5))
  }

  /** The frustum for FOVs in radians: corners of both planes moved by the world matrix, six face curves. */
  function BuildFrustum(m: Math, hFov: real, vFov: real, worldMatrix: Matrix,
                        nearDistance: real, farDistance: real, name: string): (info: FrustumInfo)
    requires m.pi != 0.0
    ensures info.group == name && |info.curves| == 6
  {
    var (nearHw, nearHh) := HalfExtents(m, nearDistance, hFov, vFov);
    var (farHw, farHh) := HalfExtents(m, farDistance, hFov, vFov);
    var nearW := TransformAll(PlaneCorners(nearHw, nearHh, nearDistance), worldMatrix);
    var farW := TransformAll(PlaneCorners(farHw, farHh, farDistance), worldMatrix);
    FrustumInfo(name, FaceCurves(name, nearW, farW), Degrees(m, hFov), Degrees(m, vFov),
                nearHw, nearHh, farHw, farHh)
  }

  /** The frustum seen through a fitted gate: FOVs from the gate and the focal length, then the frustum. */
  function FrustumFromGate(m: Math, focalMm: real, effW: real, effH: real, worldMatrix: Matrix,
                           nearDistance: real, farDistance: real, name: string): (r: Result<FrustumInfo>)
    requires m.pi != 0.0
    ensures r.Err? <==> focalMm == 0.0
    ensures r.Ok? ==> var fov := FovFromAperture(m, focalMm, effW, effH).value;
                      r.value == BuildFrustum(m, fov.0, fov.1, worldMatrix, nearDistance, farDistance, name)
  {
    var fov :- FovFromAperture(m, focalMm, effW, effH);
    Ok(BuildFrustum(m, fov.0, fov.1, worldMatrix, nearDistance, farDistance, name))
  }

  /**
   * `make_camera_frustum_curves` without its host calls: the fitted gate, the FOVs, and the frustum
   * they give, with the curves named `name + "_" + face` under the group `name`.
   */
  function MakeCameraFrustumCurves(m: Math, cam: CameraLens, worldMatrix: Matrix,
                                   nearDistance: real := 1.0, farDistance: real := 10.0,
                                   imageAspect: real := 16.0 / 9.0, name: string := "camFrustum_CURVES")
    : (r: Result<FrustumInfo>)
    requires m.pi != 0.0
    ensures r.Ok? <==> EffectiveApertureMm(cam, imageAspect).Ok? && cam.focalLength != 0.0
    ensures r.Ok? ==> r.value.group == name && |r.value.curves| == 6
    ensures r.Ok? ==> var eff := EffectiveApertureMm(cam, imageAspect).value;
                      r == FrustumFromGate(m, cam.focalLength, eff.0, eff.1, worldMatrix, nearDistance, farDistance, name)
  {
    var eff :- EffectiveApertureMm(cam, imageAspect);
    FrustumFromGate(m, cam.focalLength, eff.0, eff.1, worldMatrix, nearDistance, farDistance, name)
  }

  /**
   * Half extents for FOVs derived from a gate are the pinhole ones: distance times half the gate
   * over the focal length.
   */
  lemma HalfExtentsPinhole(m: Math, focalMm: real, effW: real, effH: real, distance: real)
    requires Valid(m) && focalMm != 0.0
    ensures var fov := FovFromAperture(m, focalMm, effW, effH).value;
            HalfExtents(m, distance, fov.0, fov.1)
              == (distance * ((effW * 0.5) / focalMm), distance * ((effH * 0.5) / focalMm))
  {
    var fov := FovFromAperture(m, focalMm, effW, effH).value;
    FovTangent(m, focalMm, effW, effH);
    var half := HalfExtents(m, distance, fov.0, fov.1);
    assert half.0 == distance * ((effW * 0.5) / focalMm);
    assert half.1 == distance * ((effH * 0.5) / focalMm);
  }

  /** The half sizes a frustum reports are those of its near and far planes. */
  lemma BuildFrustumHalfSizes(m: Math, hFov: real, vFov: real, worldMatrix: Matrix,
                              nearDistance: real, farDistance: real, name: string)
    requires m.pi != 0.0
    ensures var info := BuildFrustum(m, hFov, vFov, worldMatrix, nearDistance, farDistance, name);
            && (info.nearHalfWidth, info.nearHalfHeight) == HalfExtents(m, nearDistance, hFov, vFov)
            && (info.farHalfWidth, info.farHalfHeight) == HalfExtents(m, farDistance, hFov, vFov)
  {
  }

  /** The reported FOVs in degrees convert back to the FOVs in radians the frustum was built from. */
  lemma BuildFrustumFovDegrees(m: Math, hFov: real, vFov: real, worldMatrix: Matrix,
                               nearDistance: real, farDistance: real, name: string)
    requires m.pi != 0.0
    ensures var info := BuildFrustum(m, hFov, vFov, worldMatrix, nearDistance, farDistance, name);
            Radians(m, info.hFovDeg) == hFov && Radians(m, info.vFovDeg) == vFov
  {
    var info := BuildFrustum(m, hFov, vFov, worldMatrix, nearDistance, farDistance, name);
    var k := m.pi / 180.0;
    assert (180.0 / m.pi) * k == 1.0;
    assert info.hFovDeg * k == hFov * ((180.0 / m.pi) * k);
    assert info.vFovDeg * k == vFov * ((180.0 / m.pi) * k);
  }

  /** Half extents at two distances are in the ratio of the distances. */
  lemma HalfExtentsProportional(m: Math, d1: real, d2: real, hFov: real, vFov: real)
    ensures HalfExtents(m, d1, hFov, vFov).0 * d2 == HalfExtents(m, d2, hFov, vFov).0 * d1
    ensures HalfExtents(m, d1, hFov, vFov).1 * d2 == HalfExtents(m, d2, hFov, vFov).1 * d1
  {
    var tw := m.tan(hFov * 0.5);
    var th := m.tan(vFov * 0.5);
    assert (d1 * tw) * d2 == (d2 * tw) * d1;
    assert (d1 * th) * d2 == (d2 * th) * d1;
  }

  /**
   * The curves are, in order, near, far, top, left, bottom, right; each is closed with five
   * points; near and far go through the transformed plane corners, and side face i joins near
   * corners i, i+1 to far corners i+1, i.
   */
  lemma FrustumFaces(m: Math, hFov: real, vFov: real, worldMatrix: Matrix,
                     nearDistance: real, farDistance: real, name: string)
    requires m.pi != 0.0
    ensures var info := BuildFrustum(m, hFov, vFov, worldMatrix, nearDistance, farDistance, name);
            var nearW := TransformAll(PlaneCorners(info.nearHalfWidth, info.nearHalfHeight, nearDistance), worldMatrix);
            var farW := TransformAll(PlaneCorners(info.farHalfWidth, info.farHalfHeight, farDistance), worldMatrix);
            && |info.curves| == 6
            && (forall f :: 0 <= f < 6 ==> info.curves[f].name == name + "_" + FaceSuffixes[f])
            && (forall f :: 0 <= f < 6 ==> |info.curves[f].points| == 5
                                           && info.curves[f].points[4] == info.curves[f].points[0])
            && info.curves[0].points[..4] == nearW
            && info.curves[1].points[..4] == farW
            && (forall i {:trigger SideQuad(nearW, farW, i)} :: 0 <= i < 4 ==>
                  info.curves[2 + i].points == ClosedCurve(SideQuad(nearW, farW, i)))
  {
    var info := BuildFrustum(m, hFov, vFov, worldMatrix, nearDistance, farDistance, name);
    var nearW := TransformAll(PlaneCorners(info.nearHalfWidth, info.nearHalfHeight, nearDistance), worldMatrix);
    var farW := TransformAll(PlaneCorners(info.farHalfWidth, info.farHalfHeight, farDistance), worldMatrix);
    assert info.curves == FaceCurves(name, nearW, farW);
    forall i {:trigger SideQuad(nearW, farW, i)} | 0 <= i < 4
      ensures info.curves[2 + i].points == ClosedCurve(SideQuad(nearW, farW, i))
    {
      SideFacePattern(nearW, farW, i);
    }
  }

  /** With the identity world matrix the near and far faces go through the camera-space corners. */
  lemma FrustumIdentityMatrix(m: Math, hFov: real, vFov: real,
                              nearDistance: real, farDistance: real, name: string)
    requires m.pi != 0.0
    ensures var info := BuildFrustum(m, hFov, vFov, Identity(), nearDistance, farDistance, name);
            && info.curves[0].points[..4] == PlaneCorners(info.nearHalfWidth, info.nearHalfHeight, nearDistance)
            && info.curves[1].points[..4] == PlaneCorners(info.farHalfWidth, info.farHalfHeight, farDistance)
  {
    FrustumFaces(m, hFov, vFov, Identity(), nearDistance, farDistance, name);
  }
}
