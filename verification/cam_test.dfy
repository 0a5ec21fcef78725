/** The tuple variant of the frustum plane helpers, taking the half sizes directly. */
module CamTest {
  import opened MathLib
  import opened Geometry
  import opened Frustum

  /**
   * `get_frustum_plane_points(half_w, half_h, distance)`: four (x, y, z) tuples with third
   * component -distance; p1 and p4 share x = half_w, p2 and p3 x = -half_w, p1 and p2 y = half_h,
   * p3 and p4 y = -half_h; in order they are the corners of the list variant.
   */
  function GetFrustumPlanePoints(halfW: real, halfH: real, distance: real): (r: (Point, Point, Point, Point))
    ensures r.0.z == -distance && r.1.z == -distance && r.2.z == -distance && r.3.z == -distance
    ensures r.0.x == r.3.x == halfW && r.1.x == r.2.x == -halfW
    ensures r.0.y == r.1.y == halfH && r.2.y == r.3.y == -halfH
    ensures [r.0, r.1, r.2, r.3] == PlaneCorners(halfW, halfH, distance)
  {
    (Point(halfW, halfH, -distance), Point(-halfW, halfH, -distance),
     Point(-halfW, -halfH, -distance), Point(halfW, -halfH, -distance))
  }

  /** `get_frustum_plane_half_size`: doubling the distance doubles both half sizes; distance 0 gives (0, 0). */
  lemma HalfSizeDoubling(m: Math, distance: real, hFov: real, vFov: real)
    ensures PlaneHalfSize(m, 2.0 * distance, hFov, vFov).0 == 2.0 * PlaneHalfSize(m, distance, hFov, vFov).0
    ensures PlaneHalfSize(m, 2.0 * distance, hFov, vFov).1 == 2.0 * PlaneHalfSize(m, distance, hFov, vFov).1
    ensures PlaneHalfSize(m, 0.0, hFov, vFov) == (0.0, 0.0)
  {
    PlaneHalfSizeScales(m, 2.0, distance, hFov, vFov);
  }
}
