# Turnaround camera, frustum curves and playblast options — a Dafny model

This project models the computational core of a set of Maya scripts that prepare asset
turnarounds and playblasts:

- **Turnaround framing** (`position_calculator.py`). Given an asset's bounding box and a camera's
  horizontal and vertical field of view, the script computes the camera position on +Z that keeps
  the asset in view while it spins about its vertical axis. It uses the XZ radius `hypot(w/2, d/2)`,
  the horizontal fit `r_h / tan(h/2) + r_h`, the vertical fit `half_h / tan(v/2) + r_h` (half the
  box height over the vertical tangent, plus the same XZ radius), the larger of the two, and a fixed
  1.10 padding.
  Missing nodes and non-camera nodes take the same paths as in the script.
- **Frustum curves from a physical lens** (`test.py`). The film aperture (inches → mm) is fitted to
  the image aspect ("fill"). The FOVs follow from the focal length through `atan`, the near and far
  planes are built from `d·tan(fov/2)`, moved into world space by the camera matrix, and drawn as
  six closed face curves.
- **Frustum curves from the FOV query** (`view_frustum_crv_generator.py`). The same plane corners
  come from FOVs in degrees. The curves are created in a host scene, modelled as a class with a node
  map and a parent map: same-named nodes are deleted first, the `<camera>_grp` group is reused or
  created, the curves are parented under it, and the group goes under the camera.
- **The tuple helpers** of `cam_test.py`.
- **Playblast option state** (`playblast_generator.py`). `PlayblastGenerator` is a class whose
  options dictionary is a `map<string, Value>` updated in place. The frame range is coerced with a
  model of Python's `int()`, and `run` merges an optional range and path into the options.

Python's `tan`, `atan`, `hypot` and `pi` are parameters (`MathLib.Math`), with the facts the proofs
use stated in `MathLib.Valid`. Host queries are inputs: the bounding box, FOV, focal length, film
aperture, world matrix and node existence. In the pure functions, a Python exception that reaches
the caller becomes an `Outcomes.Result` error. `Scene.MakeCameraFrustumCurves`, which changes the
scene in place, instead reports a failed FOV query as `ok == false` and leaves the scene unchanged.

Files: `outcomes.dfy`, `math_lib.dfy`, `geometry.dfy`, `frustum.dfy` (geometry shared by the three
frustum scripts), `position_calculator.dfy`, `film_fit_frustum.dfy` (test.py),
`view_frustum_crv_generator.dfy`, `cam_test.dfy`, `playblast_generator.dfy`.

## Model

| member | source | states |
|---|---|---|
| MathLib.Max | position_calculator.py:78 | `max(a, b)` is at least both arguments and is one of them |
| PositionCalculator.CameraShapeOf | position_calculator.py:21-28 | fails with "no camera shape" exactly when the name is a transform with no camera shape; otherwise gives the first camera shape under a transform, or the name itself for any other node |
| PositionCalculator.GetFov | position_calculator.py:12-32 | the lens is returned exactly when the resolved shape is a camera, and it is that camera's lens; a transform without camera shapes raises "no camera shape" |
| PositionCalculator.OrbitRadius | position_calculator.py:61-66 | for a valid `hypot` the XZ radius is non-negative and its square is (w/2)² + (d/2)² |
| PositionCalculator.HalfAngle | position_calculator.py:69-71 | the half angle is half of either the FOV or the 1e-6-degree floor in radians; with pi > 0 it is at least both, so it is strictly positive |
| PositionCalculator.FitDistances | position_calculator.py:66-75 | fails (ZeroDivision) exactly when a half-angle tangent is zero; otherwise (d_h - r_h)·tan(h/2) = r_h and (d_v - r_h)·tan(v/2) = half_h |
| PositionCalculator.Divide | position_calculator.py:74-75 | division fails exactly on a zero divisor; otherwise quotient × divisor = dividend |
| PositionCalculator.FramePosition | position_calculator.py:73-85 | fails only when a fit distance does; x = 0, y = box centre y, z = 1.10 × the larger fit distance (at least both, equal to one) |
| PositionCalculator.GetTurnaroundCameraPos | position_calculator.py:34-85 | missing asset gives None, checked before the camera; missing camera gives None; an FOV lookup error propagates; otherwise the framing position |
| PositionCalculator.OrbitRadiusBounds | position_calculator.py:65-66 | the XZ radius is non-negative, at least half the width and half the depth, and its square is the sum of their squares |
| PositionCalculator.HalfAngleRange | position_calculator.py:68-71 | clamping at 1e-6 degrees puts the half angle strictly in (0, pi/2) for any FOV below 180, so its tangent is positive |
| PositionCalculator.FramingBounds | position_calculator.py:73-83 | for FOVs below 180 nothing divides by zero; the horizontal fit is at least r_h, the vertical one too for a box of non-negative height, and the camera is at least 1.10 × r_h away |
| PositionCalculator.DegenerateBoxFramesAtZero | position_calculator.py:60-85 | a box with no extent is framed at (0, centre y, 0) |
| Geometry.Transform | test.py:77-79 | the identity matrix leaves a point unchanged; a translation matrix adds its offset |
| Geometry.TransformAll | test.py:78-79 | the list comprehension keeps the length and transforms each point by the same matrix; the identity keeps the list |
| FilmFitFrustum.EffectiveApertureMm | test.py:24-34 | raises ZeroDivision exactly when the vertical aperture is zero, or the image aspect is zero and not wider than the sensor; a nonzero aperture and aspect succeed; the fitted gate has exactly the image aspect and keeps the sensor's mm height or width |
| FilmFitFrustum.EffectiveApertureCovers | test.py:27-34 | for positive apertures and aspect the fitted gate covers the sensor; it keeps the height when the image is wider than the sensor and the width otherwise |
| FilmFitFrustum.FovFromAperture | test.py:36-40 | fails exactly when the focal length is zero |
| FilmFitFrustum.FovTangent | test.py:38-39 | tan(fov/2) is half the gate over the focal length, on both axes |
| FilmFitFrustum.FovRange | test.py:38-39 | a positive half-gate ratio gives an FOV strictly between 0 and pi |
| FilmFitFrustum.BuildFrustum | test.py:58-116 | the returned group is the given name and there are six curves; `BuildFrustumFovDegrees`, `BuildFrustumHalfSizes` and `FrustumFaces` state the other entries |
| FilmFitFrustum.FrustumFromGate | test.py:56-60 | fails exactly when the focal length is zero; otherwise the frustum of the FOVs the gate gives |
| FilmFitFrustum.MakeCameraFrustumCurves | test.py:42-116 | succeeds exactly when the gate fit succeeds and the focal length is nonzero; the result is the frustum of the fitted gate, grouped under `name`, with six curves |
| FilmFitFrustum.HalfExtents | test.py:59-60 | distance 0 gives (0, 0); for a valid `tan`, a positive distance and an FOV in (0, pi) the half size on that axis is positive |
| FilmFitFrustum.HalfExtentsPinhole | test.py:59-60 | the plane half sizes are distance × half gate / focal length (the pinhole relation) |
| FilmFitFrustum.BuildFrustumFovDegrees | test.py:110-111 | the reported `hfov_deg` and `vfov_deg` are the FOVs in degrees: converting them back to radians gives the FOVs the frustum was built from |
| FilmFitFrustum.BuildFrustumHalfSizes | test.py:112-115 | the reported near/far half sizes are those of the near and far planes |
| FilmFitFrustum.HalfExtentsProportional | test.py:59-60 | half sizes at two distances are in the ratio of the distances |
| FilmFitFrustum.FrustumFaces | test.py:92-99 | curves are named `name_near … name_right`; each is closed with five points; near and far go through the transformed corners; side face i joins near i, i+1 to far i+1, i |
| FilmFitFrustum.FrustumIdentityMatrix | test.py:76-79 | with the identity world matrix the near and far faces go through the camera-space corners |
| Frustum.PlaneHalfSize | view_frustum_crv_generator.py:23-26 | each half size is distance × tan of half the FOV in radians (the halving may be taken before or after the conversion); distance 0 gives (0, 0) |
| Frustum.PlaneHalfSizeScales | view_frustum_crv_generator.py:23-26 | the half sizes are linear in the distance; distance 0 gives (0, 0) |
| Frustum.PlaneHalfSizePositive | view_frustum_crv_generator.py:23-26 | a plane in front of a camera with FOVs in (0, 180) has positive half sizes |
| Frustum.PlaneCorners | view_frustum_crv_generator.py:28-34 | four corners, all at z = -distance; p3 is the x/y negation of p1 and p4 of p2 |
| Frustum.PlaneCornersWinding | view_frustum_crv_generator.py:30-33 | the corners wind counter-clockwise around the full 2hw × 2hh rectangle (signed area 4·hw·hh, positive for positive half sizes) |
| Frustum.ClosedCurve | view_frustum_crv_generator.py:52-53 | the curve points are the given points followed by the first one again |
| Frustum.FaceQuads | view_frustum_crv_generator.py:65-70 | six faces of four corners each; the first two are the near and far corners |
| Frustum.FaceLoops | view_frustum_crv_generator.py:65-70 | six faces, each closed with five points; near and far loops start with the near and far corners |
| Frustum.SideFacePattern | view_frustum_crv_generator.py:67-70 | side face i (top, left, bottom, right) is the quad near i, near i+1, far i+1, far i (mod 4), closed |
| Frustum.FaceNamesDistinct | view_frustum_crv_generator.py:65-70 | the six face names are pairwise distinct and differ from the prefix |
| Frustum.FaceCurves | test.py:94-99 | six curves; curve f is named `prefix_<face f>` and passes through face loop f |
| ViewFrustumCrvGenerator.GetFrustumPlanePoints | view_frustum_crv_generator.py:28-34 | four points at z = -distance; p1 = (half_w, half_h) and p2 = (-half_w, half_h) for the half sizes of that distance; p3 and p4 are the x/y negations of p1 and p2 |
| ViewFrustumCrvGenerator.PlanePointsWinding | view_frustum_crv_generator.py:28-34 | for a plane in front of a real camera the points lie in quadrants (+,+), (-,+), (-,-), (+,-) and wind around a positive area |
| ViewFrustumCrvGenerator.PlanePointsAtZero | view_frustum_crv_generator.py:23-34 | at distance zero all four points are the origin |
| ViewFrustumCrvGenerator.ApplyCameraOffsetToPoints | view_frustum_crv_generator.py:36-39 | as written, the points are left unchanged (the product is only bound to the loop variable) |
| ViewFrustumCrvGenerator.ApplyCameraOffsetInPlace | view_frustum_crv_generator.py:36-39 | the intended step: each point is replaced by its product with the world matrix |
| ViewFrustumCrvGenerator.ApplyCameraOffsetDiscrepancy | view_frustum_crv_generator.py:36-39 | for a camera one unit along +X the intended result differs from the unchanged points |
| ViewFrustumCrvGenerator.WorldPlanePoints | view_frustum_crv_generator.py:49-50 | four world-space corners; corner i is camera-space plane point i multiplied by the world matrix |
| ViewFrustumCrvGenerator.GroupName | view_frustum_crv_generator.py:59 | the group name is the camera name followed by exactly `_grp` |
| ViewFrustumCrvGenerator.FrustumCurves | view_frustum_crv_generator.py:46-70 | six curves |
| ViewFrustumCrvGenerator.FrustumCurvesShape | view_frustum_crv_generator.py:59-70 | curve names are `<camera>_near … _right`, pairwise distinct and distinct from the group and the camera; each face is closed with five points; near/far go through the world plane points; side face i joins near i, i+1 to far i+1, i |
| ViewFrustumCrvGenerator.GroupNameIsNotFaceName | view_frustum_crv_generator.py:59-70 | `<camera>_grp` differs from every face name and from the camera; no face name is the camera's |
| ViewFrustumCrvGenerator.Scene.MakeClosedCurve | view_frustum_crv_generator.py:52-56 | any node of that name is deleted; a curve of that name through the closed point list then exists at world level; nothing else changes |
| ViewFrustumCrvGenerator.Scene.MakeFaceCurves | view_frustum_crv_generator.py:65-70 | the six face curves exist under their names, closed over their corners, at world level; every other node and parent link is unchanged |
| ViewFrustumCrvGenerator.Scene.ParentAll | view_frustum_crv_generator.py:72-75 | every listed curve is parented under the group; nodes and all other links are unchanged |
| ViewFrustumCrvGenerator.Scene.BuildRig | view_frustum_crv_generator.py:58-79 | the face curves exist under `<camera>_grp` with their closed point lists; the group is reused or created empty and sits under the camera; every other node and link is unchanged |
| ViewFrustumCrvGenerator.Scene.MakeCameraFrustumCurves | view_frustum_crv_generator.py:40-79 | without a camera of that name nothing changes (the FOV query fails). Otherwise the six curves replace same-named nodes and sit under `<camera>_grp` (reused, or created empty), the group sits under the camera, and every other node and link is unchanged |
| CamTest.GetFrustumPlanePoints | cam_test.py:40-45 | all four tuples have z = -distance; p1.x = p4.x = half_w, p2.x = p3.x = -half_w, p1.y = p2.y = half_h, p3.y = p4.y = -half_h; in order they are the shared plane corners |
| CamTest.HalfSizeDoubling | cam_test.py:35-38 | doubling the distance doubles both half sizes; distance 0 gives (0, 0) |
| Playblast.Truncate | playblast_generator.py:80-81 | `int()` of a float truncates toward zero: within one of the value, never past it |
| Playblast.ToInt | playblast_generator.py:80-81 | `int()` of an int is itself; of None, a list or a tuple it raises |
| Playblast.ParseIntRepr | playblast_generator.py:80-81 | `int(str(n)) == n` for every integer n |
| Playblast.ParseIntIgnoresPadding | playblast_generator.py:80-81 | surrounding whitespace does not change what `int()` reads from a string |
| Playblast.CoerceFrameRange | playblast_generator.py:77-87 | when both values convert, the result is the two ints, ordered, as a permutation of the converted pair |
| Playblast.CoerceSwapsOnlyWhenReversed | playblast_generator.py:85-87 | with convertible values the pair is swapped exactly when last < first |
| Playblast.CoerceKeepsRawOnFailure | playblast_generator.py:79-84 | if either value fails to convert, both are returned exactly as given |
| Playblast.CoerceIdempotent | playblast_generator.py:77-87 | coercing a coerced range changes nothing |
| Playblast.DefaultOptions | playblast_generator.py:9-25 | the defaults hold the range and file-name keys, and the default range is already coerced |
| Playblast.DefaultValues | playblast_generator.py:9-25 | a new generator has startTime = endTime = 0, filename "", framePadding 4, widthHeight (1280, 720) |
| Playblast.WithFrameRange | playblast_generator.py:55-58 | only startTime and endTime change, and they hold the coerced pair; every other key keeps its value |
| Playblast.RangedOptions | playblast_generator.py:130-137 | the range merge keeps the key set |
| Playblast.RunOptions | playblast_generator.py:129-139 | `run` keeps the key set |
| Playblast.RunFirstFrameOnly | playblast_generator.py:132-134 | with only first_frame the range is coerce(first, current end); an int end is kept when first ≤ end and becomes the start otherwise |
| Playblast.RunLastFrameOnly | playblast_generator.py:135-137 | with only last_frame the range is coerce(current start, last); an int start is kept when start ≤ last and becomes the end otherwise |
| Playblast.RunRangeCases | playblast_generator.py:130-137 | with both frames the range is their coercion; with neither it is untouched |
| Playblast.RunPathAndFrame | playblast_generator.py:138-139 | filename becomes path exactly when path is truthy; no key other than the range and filename changes |
| Playblast.PlayblastGenerator.constructor | playblast_generator.py:8-25 | a new generator holds the default options |
| Playblast.PlayblastGenerator.GetFrameRange | playblast_generator.py:52-53 | the stored start and end |
| Playblast.PlayblastGenerator.SetFrameRange | playblast_generator.py:55-59 | the new options are the old ones with the coerced range, so reading the range back gives the coerced pair |
| Playblast.PlayblastGenerator.AssignFrameRange | playblast_generator.py:66-70 | a list or tuple of length 2 sets the range; anything else leaves the options unchanged |
| Playblast.PlayblastGenerator.Run | playblast_generator.py:129-139 | the new options are the old ones with the range merged and the path applied |

## Left out

- Host calls (`cmds.*`, `mel.eval`, OpenMaya) are inputs or scene maps. This covers bounding boxes, FOV and lens queries, world matrices and node existence. The warning messages `cmds.warning` prints are not modelled.
- Floating point: all arithmetic is on reals. `tan`, `atan` and `hypot` are uninterpreted, with only the facts in `MathLib.Valid`. IEEE rounding, infinities and NaN are not modelled.
- `get_camera_dagpath` (test.py:8-22) is not modelled: the film-fit model takes the camera's lens attributes directly, so the "not a camera" errors it raises are not represented.
- FilmFitFrustum.MakeCameraFrustumCurves: the curves are reported with the names requested. The host's renaming when a node of that name already exists (test.py does not delete first) is not modelled, and neither is creating or reusing the group.
- Matrix products keep the x, y, z of the row-vector product. The w component is dropped, which is exact for the affine matrices a camera's world matrix has.
- ViewFrustumCrvGenerator.Scene.MakeClosedCurve: deleting a node removes only that node and its parent link, not its descendants.
- ViewFrustumCrvGenerator.Scene.MakeCameraFrustumCurves: parenting the group under the camera is modelled as always taking effect. The host refuses it when the group is already there, which gives the same end state, and the model does not check other refusals.
- `get_resolution` and `_get_camera_dagpath` in view_frustum_crv_generator.py are host queries. A missing camera makes the FOV query fail first, which is the failure the model reports.
- Playblast.ToInt: `int()` on strings accepts ASCII digits only, with ASCII whitespace stripped. Underscore separators and non-ASCII digits and whitespace are not modelled. `int()` of an infinite or NaN float is not modelled.
- The `options` property and its setter are not modelled. Replacing the dictionary wholesale could drop the keys `get_frame_range` reads; the class keeps them present as its invariant.
- The `path` and `resolution` properties are not modelled. Their setters are malformed: one is defined under the name `set_path`, and the other takes two arguments. The getters only read `filename` and `widthHeight`.
- The `frame_range` getter is not modelled separately: it returns `get_frame_range()`.
- `get_persp_camera`, `set_persp_camera`, `playblast`, and the empty `pre_process`/`post_process`/`_on_frame_range_changed` hooks are viewport or capture I/O or no-ops. `Run` models only the option merging that precedes them.
- The scripts that create turntable cameras, keyframe rotation or drive animated playblasts are not part of this model. Nor are `main.py`, the top-level example code in test.py and cam_test.py, and `get_translate_rotate_from_dagpath` (host matrix decomposition).

## Findings

| source | as written | input that shows it | evidently intended | confidence | as-written member | corrected member |
|---|---|---|---|---|---|---|
| view_frustum_crv_generator.py:36-39 | `apply_camera_offset_to_points` binds each product `p * matrix` to the loop variable only, so the points never move and nothing is returned. Nothing in the script calls it: `make_camera_frustum_curves` transforms its points inline (view_frustum_crv_generator.py:49-50), so the drawn curves are not affected | a camera translated one unit along +X and the point (0, 0, 0): the point stays at the origin instead of moving to (1, 0, 0) | replace each point by its product with the camera's world matrix | high (not executed) | ViewFrustumCrvGenerator.ApplyCameraOffsetToPoints, ViewFrustumCrvGenerator.ApplyCameraOffsetDiscrepancy | ViewFrustumCrvGenerator.ApplyCameraOffsetInPlace |
