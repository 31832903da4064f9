# Infinite grid menu — a Dafny model of its geometry, controls and physics

The repository draws an "infinite" menu of items. Three variants exist:

- a sphere of discs, one per icosphere vertex, turned with an arcball
  (`src/infinite-grid-menu.js`, `src/infinite-grid-menu-3.js` and their built
  copies under `dist/`);
- a flat hexagonal grid that scrolls and wraps around (`src/infinite-grid-menu-1.js`);
- a cloth of spring-connected nodes that the pointer drags (`src/infinite-grid-menu-2.js`).

This project models the parts of those programs that compute something:

- **Mesh construction.** The `Geometry` class (`dist/geometry/geometry.js`) is
  modelled in module `Mesh`, with its icosahedron and disc constructors. Its
  pure core lives in modules `Topology`, `Icosahedron` and `Disc`: midpoint
  cache, one subdivision pass, repeated passes, spherising and the flat
  buffers.
- **The two arcball controllers.** `dist/arcball-control.js` is module
  `ArcballDist`. `src/utils/arcball-control.js` is module `ArcballSrc`. The
  shared trackball projection is module `Trackball`.
- **The sphere menus.** Module `Menus` covers the frame clock, the nearest
  vertex search (module `Nearest`), the snapping written back into the
  controller, the camera easing and the disc scale.
- **The scrolling grid menu.** Module `GridMenu1` covers pointer following,
  velocity, even item counts, wrap-around and item indices.
- **The spring cloth.** Module `Springs` models `SpringNode2`,
  `SpringConstraint2` and `SpringSimulation2`. Module `GridMenu2` models the
  cloth menu: mesh construction, the pointer constraint and the frame step.

All numbers are `real`. The floating-point routines the code calls are
parameters of the model, bundled as a `GlMath.Routines` value or passed as a
single `sqrt`:

- `Math.sqrt`, `acos`, `sin`, `cos`;
- gl-matrix `normalize`, `slerp`, `setAxisAngle`, `getAxisAngle`, `transformQuat`.

A property that needs the square root to behave takes `SqrtLaw(sqrt)` as a
precondition. Quaternion multiplication, conjugation, the cross product and
the dot product are written out with gl-matrix's formulas.

Classes whose fields the source updates in place are Dafny classes:

- `Geometry`, both `ArcballControl`s, the menu classes;
- `SpringNode`, `SpringConstraint`, `SpringSimulation`;
- `InfiniteGridMenu1`, `InfiniteGridMenu2`.

Their methods are proved against specification functions. Those functions'
properties are proved as lemmas:

- midpoint sharing, the face count `4^d · |faces|` and the vertex count of a pass;
- the 12/20/30 shape of the icosahedron and the 42-vertex/80-face first pass;
- round trips of the flat buffers;
- the first strict maximum in the nearest-vertex search;
- spring relaxation keeping the midpoint and reaching the rest length;
- Verlet integration with drag;
- removal of the pointer constraint.

## Model

| member | source | states |
|---|---|---|
| GlMath.ClampUnit | dist/arcball-control.js:140 | the clamped cosine lies in [-1, 1] and equals its input when the input already does |
| GlMath.Ceil | src/infinite-grid-menu-1.js:212-213 | the result is the least integer not below the argument |
| Topology.NewVertex | dist/geometry/vertex.js:4-8 | a new vertex holds the given position, a zero normal and a zero uv |
| Topology.MidPoint | dist/geometry/geometry.js:103-118 | the vertex list only grows, the returned index points into it, and every cached index stays in range |
| Topology.MidPointHitOrMiss | dist/geometry/geometry.js:104-117 | a cached edge returns its stored index and changes nothing; an uncached edge appends exactly the midpoint of its two ends, returns its index and records it under the edge key |
| Topology.MidPointSymmetric | dist/geometry/geometry.js:104-105 | asking for edge (j, i) right after (i, j) returns the same index and adds no vertex |
| Topology.MidPointExtends | dist/geometry/geometry.js:105-115 | the cache keeps every old entry and gains exactly the edge just asked for, mapped to the returned index |
| Topology.MidPointCount | dist/geometry/geometry.js:105-115 | the vertex count grows by one exactly when the edge was not cached |
| Topology.SplitFace | dist/geometry/geometry.js:45-58 | splitting one face gives four faces, all indexing existing vertices |
| Topology.SplitFaceSteps | dist/geometry/geometry.js:47-56 | the split asks for the midpoints of ab, bc and ca in that order and forms the four faces from them |
| Topology.SplitFaceCache | dist/geometry/geometry.js:47-49 | the split keeps old cache entries and adds the three edge keys of the face |
| Topology.SplitFaceFaces | dist/geometry/geometry.js:52-56 | the four faces are (a,ab,ca), (b,bc,ab), (c,ca,bc) and (ab,bc,ca), with the cached midpoint indices |
| Topology.SplitFaceCount | dist/geometry/geometry.js:47-49 | the split adds one vertex per edge of the face not yet in the cache |
| Topology.Pass | dist/geometry/geometry.js:43-61 | one pass yields exactly four faces per input face, all in range |
| Topology.PassStep | dist/geometry/geometry.js:45-58 | a pass over n faces is the pass over the first n-1 faces followed by splitting the last one |
| Topology.PassPrefixIsPass | dist/geometry/geometry.js:45-58 | the state after the first n iterations of the face loop equals a pass over the first n faces |
| Topology.PassNext | dist/geometry/geometry.js:45-58 | one more iteration of the face loop splits the next face and appends its four faces |
| Topology.PassExtends | dist/geometry/geometry.js:38-61 | the cache shared across a pass keeps old entries, and its keys become the old keys plus every edge of the faces |
| Topology.PassLayout | dist/geometry/geometry.js:52-56 | faces 4n to 4n+3 of the pass are the four quarters of input face n, built from that face's three midpoints |
| Topology.PassVertexCount | dist/geometry/geometry.js:41-62 | a pass adds exactly one vertex per distinct edge not already cached, so shared edges are split once |
| Topology.Subdivision | dist/geometry/geometry.js:37-67 | repeated passes keep every face index and cache entry in range |
| Topology.SubdivisionNext | dist/geometry/geometry.js:41-62 | d+1 divisions are one more pass over the result of d divisions, with the cache carried over |
| Topology.SubdivisionFaceCount | dist/geometry/geometry.js:41-64 | d divisions multiply the face count by 4^d |
| Topology.SubdivisionZero | dist/geometry/geometry.js:41-64 | zero divisions leave vertices, faces and cache unchanged |
| Topology.EdgeSetMembers | dist/geometry/geometry.js:104 | an unordered edge occurs in the mesh exactly when some face has it |
| Mesh.VerticesFrom | dist/geometry/geometry.js:11-20 | a flat list of 3k coordinates yields k vertices |
| Mesh.FacesFrom | dist/geometry/geometry.js:22-31 | a flat list of 3k indices yields k faces |
| Mesh.FacesFromTriple | dist/geometry/geometry.js:22-31 | three indices make one face, in order |
| Mesh.VertexData | dist/geometry/geometry.js:87-89 | the position buffer holds three numbers per vertex |
| Mesh.NormalData | dist/geometry/geometry.js:91-93 | the normal buffer holds three numbers per vertex |
| Mesh.UvData | dist/geometry/geometry.js:95-97 | the uv buffer holds two numbers per vertex |
| Mesh.IndexList | dist/geometry/geometry.js:99-101 | the index list holds three indices per face |
| Mesh.IndexData | dist/geometry/geometry.js:99-101 | the 16-bit index buffer holds three entries per face |
| Mesh.VertexDataRoundTrip | dist/geometry/geometry.js:11-20 | flattening the vertices added from a coordinate list gives back that list |
| Mesh.VerticesFromRoundTrip | dist/geometry/geometry.js:87-89 | rebuilding fresh vertices from the position buffer gives back the same vertices |
| Mesh.FacesFromRoundTrip | dist/geometry/geometry.js:99-101 | rebuilding faces from the flat index list gives back the same faces |
| Mesh.IndexListRoundTrip | dist/geometry/geometry.js:22-31 | flattening the faces added from an index list gives back that list |
| Mesh.IndexDataAt | dist/geometry/geometry.js:99-101 | entry 3k+j of the 16-bit buffer is corner j of face k modulo 65536 |
| Mesh.IndexDataLossless | dist/geometry/geometry.js:99-101 | when every index is below 65536, the 16-bit buffer equals the plain index list |
| Mesh.Spherized | dist/geometry/geometry.js:69-76 | spherising keeps the vertex count |
| Mesh.SpherizedShape | dist/geometry/geometry.js:69-76 | each vertex's normal becomes its normalised position, its position becomes that normal times the radius, and its uv is kept |
| Mesh.SpherizeIdempotent | dist/geometry/geometry.js:69-76 | spherising twice with the same radius equals spherising once |
| Mesh.Geometry.constructor | dist/geometry/geometry.js:6-9 | a new geometry has no vertices and no faces |
| Mesh.Geometry.AddVertex | dist/geometry/geometry.js:11-20 | the vertex list becomes the old list followed by the vertices of the coordinate triples |
| Mesh.Geometry.AddFace | dist/geometry/geometry.js:22-31 | the face list becomes the old list followed by the faces of the index triples |
| Mesh.Geometry.SetLastUv | src/geometry/disc-geometry.js:13-14 | only the uv of the last vertex changes |
| Mesh.Geometry.AddVertexWithUv | src/geometry/disc-geometry.js:17-23 | one vertex with the given position and uv is appended |
| Mesh.Geometry.GetMidPoint | dist/geometry/geometry.js:103-118 | the new vertex list, index and cache are those of the midpoint specification |
| Mesh.Geometry.SplitOne | dist/geometry/geometry.js:45-58 | the vertex list, the four faces and the cache are those of splitting the face |
| Mesh.Geometry.SplitAt | dist/geometry/geometry.js:45-58 | one loop iteration moves the pass from the first n faces to the first n+1 |
| Mesh.Geometry.DividePass | dist/geometry/geometry.js:43-61 | the loop over the faces computes one pass |
| Mesh.Geometry.Subdivide | dist/geometry/geometry.js:37-67 | after the call, vertices and faces are those of `divisions` passes sharing one cache that starts empty |
| Mesh.Geometry.Spherize | dist/geometry/geometry.js:69-76 | the vertices become their spherised version |
| Mesh.Geometry.Icosahedron | dist/geometry/icosahedron-geometry.js:7-51 | the geometry holds the 12 corners built from the golden ratio and the 20 listed triangles |
| Mesh.Geometry.RimStep | src/geometry/disc-geometry.js:16-28 | one iteration appends rim vertex i+1 and the fan face before it |
| Mesh.Geometry.Disc | src/geometry/disc-geometry.js:4-31 | the disc holds the centre, n rim vertices and n fan faces, with n the clamped step count |
| Icosahedron.GoldenRatio | dist/geometry/icosahedron-geometry.js:10 | t = (1 + sqrt 5) / 2 satisfies t·t = t + 1 and exceeds 1 |
| Icosahedron.Corners | dist/geometry/icosahedron-geometry.js:11-25 | there are twelve corners |
| Icosahedron.CornerShape | dist/geometry/icosahedron-geometry.js:11-25 | every corner's absolute coordinates are 0, 1 and t in some order |
| Icosahedron.TrianglesWellFormed | dist/geometry/icosahedron-geometry.js:26-50 | there are 20 triangles, each indexing three distinct corners among the twelve |
| Icosahedron.FiveTrianglesPerCorner | dist/geometry/icosahedron-geometry.js:26-50 | every corner lies on exactly five triangles |
| Icosahedron.AroundCorner | dist/geometry/icosahedron-geometry.js:26-50 | the given corner lies on exactly five triangles |
| Icosahedron.SharedByTwo | dist/geometry/icosahedron-geometry.js:26-50 | each listed edge belongs to exactly two triangles |
| Icosahedron.EdgesListed | dist/geometry/icosahedron-geometry.js:26-50 | every edge of every triangle is in the list of thirty edges |
| Icosahedron.EdgesAscend | dist/geometry/icosahedron-geometry.js:26-50 | the edge list is strictly ordered, so it has no repeats |
| Icosahedron.ThirtyEdges | dist/geometry/icosahedron-geometry.js:26-50 | the triangles have exactly thirty distinct edges, each shared by two triangles, so the surface is closed |
| Icosahedron.Vertices | dist/geometry/icosahedron-geometry.js:11-25 | twelve vertices are added |
| Icosahedron.OnePass | dist/geometry/icosahedron-geometry.js:26-50 | one subdivision pass of the icosahedron yields 42 vertices and 80 faces |
| Icosahedron.EdgeCount | dist/geometry/icosahedron-geometry.js:26-50 | the icosahedron has thirty edges |
| Disc.Steps | src/geometry/disc-geometry.js:7 | the step count is the requested count, or 4 when fewer are requested |
| Disc.VerticesPrefix | src/geometry/disc-geometry.js:16-23 | vertex i+1 is rim point i |
| Disc.FacesPrefix | src/geometry/disc-geometry.js:26-30 | face k is (0, k+1, k+2), except the last, which closes the fan as (0, n, 1) |
| Disc.VertexLayout | src/geometry/disc-geometry.js:12-23 | there are n+1 vertices; the centre comes first with uv (0.5, 0.5), and all lie in the z = 0 plane with zero normal |
| Disc.FanLayout | src/geometry/disc-geometry.js:26-30 | there are n faces, all in range, all share the centre, and the centre lies on every face |
| Disc.RimInTwoFaces | src/geometry/disc-geometry.js:26-30 | every rim vertex lies on exactly two faces, the two neighbouring fan slices |
| Trackball.ProjectCentre | dist/arcball-control.js:160-179 | the canvas centre projects to the top of the ball, (0, 0, r) |
| Trackball.HeightPositive | dist/arcball-control.js:173-176 | the projected height is positive both on the sphere and on the hyperbolic sheet |
| Trackball.ProjectAbove | dist/arcball-control.js:160-179 | every pointer position projects to a point with positive z |
| Trackball.CanonicalMirror | dist/arcball-control.js:167-168 | mirroring a pixel across the canvas centre negates its canonical coordinate |
| Trackball.ProjectMirrorsX | dist/arcball-control.js:160-179 | mirroring the pointer horizontally mirrors the projected point's x and keeps y and z |
| Trackball.BranchesMeet | dist/arcball-control.js:173-176 | the sphere and hyperbola branches agree at the switch point d = r²/2 |
| Trackball.CosBetween | dist/arcball-control.js:140 | the clamped cosine between two directions lies in [-1, 1] |
| Nearest.FirstMaxUnique | src/infinite-grid-menu.js:317-325 | the strict-greater scan picks at most one index |
| Nearest.FirstMaxOrNone | src/infinite-grid-menu.js:317-325 | a found index rules out the "no dot product above -1" outcome |
| Nearest.FirstMax | src/infinite-grid-menu.js:308-328 | the loop returns none exactly when no dot product exceeds -1; otherwise it returns the first index with the largest dot product |
| Nearest.FirstMaxWithPosition | dist/infinite-grid-menu.js:288-298 | the same search also returns the position at the found index, or none |
| Menus.Positions | src/infinite-grid-menu.js:126 | instance positions are the vertex positions, in order |
| Menus.FrameDelta | src/infinite-grid-menu.js:69 | the frame delta is capped at 32 ms and is exact below the cap |
| Menus.FramesTelescope | src/infinite-grid-menu.js:68-72 | when no gap exceeds 32 ms, the frames counted over several runs equal the elapsed time divided by the target frame duration of 1000/60 ms |
| Menus.FrameClock.constructor | src/infinite-grid-menu.js:16-24 | the clock starts at time zero with no frames |
| Menus.FrameClock.Run | src/infinite-grid-menu.js:68-72 | run stores the time, the capped delta and delta/(1000/60), and adds delta/(1000/60) to the frame count |
| Menus.EaseBetween | src/infinite-grid-menu.js:304 | an easing step with damping ≥ 1 stays between the current and target z and is fixed at the target |
| Menus.SphereMenu.constructor | src/infinite-grid-menu.js:26-32 | instance positions come from the icosphere and the camera starts at z = 3 |
| Menus.SphereMenu.FindNearestVertexIndex | src/infinite-grid-menu.js:308-328 | the result is the first index with the largest dot product against the inverse-rotated view axis, or none exactly when no dot product exceeds -1 |
| Menus.SphereMenu.OnControlUpdate | src/infinite-grid-menu.js:290-306 | while dragging, the snap is left alone and the camera eases toward a speed-dependent z; after release, the snap direction is the world direction of the nearest vertex, and an empty search throws before the camera moves |
| Menus.DepthScaleRange | src/infinite-grid-menu.js:206-209 | the base scale is always 0.25, whatever the camera distance |
| Menus.BuiltSphereMenu.constructor | dist/infinite-grid-menu.js:26-32 | instance positions come from the icosphere and the camera starts at z = 3 |
| Menus.BuiltSphereMenu.FindNearestSnapDirection | dist/infinite-grid-menu.js:280-302 | the direction is the world direction of the first best vertex, or none exactly when no dot product exceeds -1 |
| Menus.BuiltSphereMenu.OnControlUpdate | dist/infinite-grid-menu.js:264-278 | while dragging, the snap is left alone; after release, the snap target becomes the found direction and the camera eases toward z = 3, or, when the search finds nothing, the update throws before the camera moves |
| Menus.GrowingScaleFloor | dist/infinite-grid-menu.js:184-186 | the base scale is 0.15 and the depth-adjusted scale never drops below 0.06 |
| Menus.SphereMenu3.constructor | src/infinite-grid-menu-3.js:80-86 | instance positions come from the icosphere and the camera starts at z = 7 |
| Menus.SphereMenu3.FindNearestSnapDirection | src/infinite-grid-menu-3.js:320-341 | the direction is the world direction of the first best vertex, or none exactly when none exceeds -1 |
| Menus.SphereMenu3.OnControlUpdate | src/infinite-grid-menu-3.js:304-318 | the snap target after release is the found direction; the camera eases toward the wide-angle-distance target |
| Menus.BuiltSphereMenu3.constructor | dist/infinite-grid-menu-3.js:63-69 | the menu keeps the icosphere vertices and the camera starts at z = 7 |
| Menus.BuiltSphereMenu3.FindNearestSnapDirection | dist/infinite-grid-menu-3.js:241-262 | the direction is the world direction of the first best vertex position, or none exactly when none exceeds -1 |
| Menus.BuiltSphereMenu3.OnControlUpdate | dist/infinite-grid-menu-3.js:226-239 | the snap target after release is the found direction; the camera eases as written |
| ArcballDist.MovesScale | dist/arcball-control.js:71-74 | with time scale 0 the smoothed pointer never counts as moving |
| ArcballDist.Velocity | dist/arcball-control.js:127-128 | the rotation velocity is undefined (NaN) exactly when the time scale is 0 |
| ArcballDist.SnapIdentity | dist/arcball-control.js:62-117 | while the pointer is down or no snap target is set, the snap rotation is the identity and leaves any rotation unchanged when combined |
| ArcballDist.DistanceFactorBounds | dist/arcball-control.js:109-110 | the snap distance factor lies in [0.1, 1] |
| ArcballDist.DragAngleFactor | dist/arcball-control.js:66-90 | a moving drag rotates from the previous projected point to the smoothed one, with angle factor 5 |
| ArcballDist.FirstFrameVelocity | dist/arcball-control.js:127-128 | on a first run at time 0, the velocity divides by a zero time scale and is undefined |
| ArcballDist.GuardedVelocityDefined | src/utils/arcball-control.js:63 | with the (deltaTime + 0.01) / 16 time scale, the velocity is defined for every non-negative delta |
| ArcballDist.ArcballControl.constructor | dist/arcball-control.js:6-35 | all fields start as declared: identity rotations, zero velocity and axis, snap direction (0,0,1), no snap target, pointer up |
| ArcballDist.ArcballControl.PointerDown | dist/arcball-control.js:37-41 | the pointer and previous pointer take the event position and the pointer is down |
| ArcballDist.ArcballControl.PointerRelease | dist/arcball-control.js:42-47 | the pointer is up, on pointerup and on pointerleave |
| ArcballDist.ArcballControl.PointerMove | dist/arcball-control.js:48-52 | the pointer follows the event only while down |
| ArcballDist.ArcballControl.Update | dist/arcball-control.js:58-132 | the frame step moves the previous pointer toward the pointer, sets the drag or decay rotation and combines it with the snap rotation into the orientation; it records axis and velocity and fires the callback once |
| ArcballDist.ArcballControl.Report | dist/arcball-control.js:119-131 | the orientation is the normalised product of the combined rotation and the old one, and the axis and velocity come from that rotation |
| ArcballDist.ArcballControl.TurnPointer | dist/arcball-control.js:64-100 | while down, the pointer rotation is the drag rotation and the previous pointer moves only if the smoothed pointer moved; while up, it slerps toward identity |
| ArcballSrc.TimeScale | src/utils/arcball-control.js:63 | the divisor 16 / (deltaTime + 0.01) is never zero, and lies in (0, 1600] for non-negative deltas |
| ArcballSrc.FollowerScales | src/utils/arcball-control.js:63-68 | the follower moves by the pointer offset times (deltaTime + 0.01) / 16 and keeps its z |
| ArcballSrc.FollowerApproaches | src/utils/arcball-control.js:63-68 | for frames of at most 15.99 ms (damping 16/(deltaTime+0.01) ≥ 1) the follower lands between its old place and the pointer, and stays put when already there |
| ArcballSrc.FollowerOvershoots | src/utils/arcball-control.js:63-68 | for frames longer than 15.99 ms, 60 fps frames of 16.67 ms included, the gap to the pointer is multiplied by the negative factor 1 − (deltaTime+0.01)/16, so the follower ends beyond the pointer |
| ArcballSrc.FollowerNeverSettles | src/utils/arcball-control.js:63-68 | for frames of 31.99 ms or more, which the 32 ms cap on the delta admits, the gap to a held pointer never shrinks, and beyond 31.99 ms a non-zero gap grows every frame |
| ArcballSrc.SlerpDamping | src/utils/arcball-control.js:121 | the slerp factor is strictly between 0 and 1 |
| ArcballSrc.NoSnapKeepsPointer | src/utils/arcball-control.js:104-124 | with no snap vertex, the target rotation is the pointer rotation alone |
| ArcballSrc.ArcballControl.constructor | src/utils/arcball-control.js:13-31 | the control keeps the vertices and starts with identity rotations, no snap vertex and the pointer up |
| ArcballSrc.ArcballControl.PointerDown | src/utils/arcball-control.js:33-41 | down, pointer and follower positions take the event position; auto-rotation and the snap vertex are cleared |
| ArcballSrc.ArcballControl.PointerRelease | src/utils/arcball-control.js:42-53 | releasing a held pointer snaps to the nearest vertex; releasing when up changes no snap |
| ArcballSrc.ArcballControl.PointerMove | src/utils/arcball-control.js:54-59 | the pointer follows the event only while down |
| ArcballSrc.ArcballControl.SnapToNearestPoint | src/utils/arcball-control.js:155-173 | the snap vertex is the first vertex with the largest dot product against the view axis in model space, or none exactly when no vertex's dot product exceeds -1 |
| ArcballSrc.ArcballControl.Update | src/utils/arcball-control.js:62-140 | the follower moves toward the pointer; the pointer rotation follows the drag or decays; the target is the snap rotation times the pointer rotation, and the rotation slerps toward it; the previous follower is updated and the callback fires once |
| ArcballSrc.ArcballControl.FollowPointer | src/utils/arcball-control.js:66-68 | the follower moves by the follower formula |
| ArcballSrc.ArcballControl.TurnPointer | src/utils/arcball-control.js:76-102 | while down, axis and angle come from the two projected follower points; while up, the angle decays |
| GridMenu1.EvenCount | src/infinite-grid-menu-1.js:209-216 | the item count along an axis is even and is the viewport count plus padding, rounded up to even |
| GridMenu1.EvenCountSmallest | src/infinite-grid-menu-1.js:209-216 | no smaller even count covers the viewport with padding |
| GridMenu1.Wrapped | src/infinite-grid-menu-1.js:218-225 | a coordinate moves by at most one grid size and stays put inside the padded viewport |
| GridMenu1.WrappedStaysNear | src/infinite-grid-menu-1.js:218-225 | a coordinate within one grid size of the padded viewport stays so, and wrapping moves it back toward the viewport |
| GridMenu1.ItemIndex | src/infinite-grid-menu-1.js:203 | the item index always points into the item list |
| GridMenu1.LengthFollower | src/infinite-grid-menu-1.js:157-161 | the smoothed speed never exceeds 0.1 |
| GridMenu1.LengthFollowerRange | src/infinite-grid-menu-1.js:157-161 | the speed level lies in [0, 1] and the smoothed speed stays in [0, 0.1] |
| GridMenu1.StillPress | src/infinite-grid-menu-1.js:141-146 | while down with the follower on the pointer, the velocity is zero and the follower stays |
| GridMenu1.Decay | src/infinite-grid-menu-1.js:147-153 | the accumulated coasting decay lies in (0, 1] |
| GridMenu1.CoastDecays | src/infinite-grid-menu-1.js:147-153 | n frames of coasting scale the velocity by the accumulated decay |
| GridMenu1.InfiniteGridMenu1.constructor | src/infinite-grid-menu-1.js:76-106 | spacing, even item counts, scroll offset at the viewport centre and pointer state start as set up in init |
| GridMenu1.InfiniteGridMenu1.Resize | src/infinite-grid-menu-1.js:53-63 | the viewport takes the new size and the item counts are recomputed |
| GridMenu1.InfiniteGridMenu1.ResizeItemGrid | src/infinite-grid-menu-1.js:209-216 | the item counts are the even counts for the viewport |
| GridMenu1.InfiniteGridMenu1.PointerDown | src/infinite-grid-menu-1.js:116-122 | the scroll offset is saved and pointer, follower and down position take the event position |
| GridMenu1.InfiniteGridMenu1.PointerRelease | src/infinite-grid-menu-1.js:123-128 | the pointer is up, on pointerup and on pointerleave |
| GridMenu1.InfiniteGridMenu1.PointerMove | src/infinite-grid-menu-1.js:129-134 | the pointer follows the event only while down |
| GridMenu1.InfiniteGridMenu1.Animate | src/infinite-grid-menu-1.js:137-166 | velocity, follower, smoothed speed (at most 0.1) and scroll offset follow the frame formulas |
| GridMenu1.InfiniteGridMenu1.StepFollower | src/infinite-grid-menu-1.js:141-155 | the velocity is recomputed and added to the follower |
| GridMenu1.InfiniteGridMenu1.StepLengthFollower | src/infinite-grid-menu-1.js:157-161 | the smoothed speed follows the length formula |
| GridMenu1.InfiniteGridMenu1.Run | src/infinite-grid-menu-1.js:65-74 | the capped delta and the frame count in 16 ms frames advance, one animation step is taken, and the render step sets the grid size to spacing times count and returns each cell's item index |
| GridMenu1.InfiniteGridMenu1.Render | src/infinite-grid-menu-1.js:168-207 | the grid size is spacing times count, and item k of the grid gets item index k mod the item count |
| GridMenu1.InfiniteGridMenu1.WrapPositionComponent | src/infinite-grid-menu-1.js:218-225 | only the chosen component of the position array is wrapped |
| GridMenu2.RowRodsPush | src/infinite-grid-menu-2.js:93-109 | a row with one more column appends that column's cell of six rods |
| GridMenu2.GridRodsCount | src/infinite-grid-menu-2.js:92-110 | a nested loop over cols × rows pushes six rods per cell |
| GridMenu2.MeshRodsCount | src/infinite-grid-menu-2.js:92-129 | the two nested loops push 150 constraints |
| GridMenu2.CellRodsWithin | src/infinite-grid-menu-2.js:94-108 | every rod of a cell joins two distinct nodes and has the cell's length or twice it |
| GridMenu2.RowRodsWithin | src/infinite-grid-menu-2.js:93-109 | every rod of a row joins two distinct nodes with a valid length |
| GridMenu2.GridRodsWithin | src/infinite-grid-menu-2.js:92-110 | every rod of a nested loop joins two distinct nodes with a valid length |
| GridMenu2.MeshRodsWithin | src/infinite-grid-menu-2.js:92-129 | every mesh constraint joins two distinct existing nodes, at one or two cell lengths |
| GridMenu2.RowMajor | src/infinite-grid-menu-2.js:85-89 | node k lies in column k mod stride and row k div stride |
| GridMenu2.MatchesPush | src/infinite-grid-menu-2.js:98 | pushing a constraint that fits its rod keeps constraints and rods in step |
| GridMenu2.BuildNodes | src/infinite-grid-menu-2.js:85-89 | the node list holds one fresh free node per grid point, at rest at its origin |
| GridMenu2.PushCell | src/infinite-grid-menu-2.js:94-108 | one cell pushes six constraints, those of its six rods, after the earlier ones, which are kept |
| GridMenu2.PushTriangle | src/infinite-grid-menu-2.js:98-100 | the three constraints going round a triangle are pushed after the earlier ones, which are kept |
| GridMenu2.Push | src/infinite-grid-menu-2.js:98 | one constraint between nodes i and j at the given length is appended and the earlier ones are kept |
| GridMenu2.PushGrid | src/infinite-grid-menu-2.js:92-110 | a nested loop pushes the constraints of all its cells, row by row, after the earlier ones, which are kept |
| GridMenu2.BuildConstraints | src/infinite-grid-menu-2.js:91-129 | the 150 constraints are exactly those of the mesh rods, in push order |
| GridMenu2.BuildSimulation | src/infinite-grid-menu-2.js:83-133 | the simulation holds the fresh distinct nodes and the mesh constraints, and excludes the pointer node and constraint |
| GridMenu2.IndexOf | src/infinite-grid-menu-2.js:177 | the index is -1 exactly when the element is absent, and otherwise its first position |
| GridMenu2.Removed | src/infinite-grid-menu-2.js:176-181 | removing an absent element changes nothing; otherwise it removes one copy and keeps the rest |
| GridMenu2.RemovedPushed | src/infinite-grid-menu-2.js:169-181 | removing the constraint just pushed gives back the list before the push |
| GridMenu2.RemovedCopy | src/infinite-grid-menu-2.js:176-181 | with pointer constraints pushed after the mesh, removal drops exactly the last one |
| GridMenu2.InfiniteGridMenu2.constructor | src/infinite-grid-menu-2.js:71-145 | the simulation holds the mesh constraints and nodes at rest at their origins; the pointer node is fixed at the origin and its constraint unattached |
| GridMenu2.InfiniteGridMenu2.AddPointerConstraint | src/infinite-grid-menu-2.js:169-174 | a search finding no node throws and changes nothing; otherwise the constraint attaches to the nearest node with the offset to it, and is pushed |
| GridMenu2.InfiniteGridMenu2.Attach | src/infinite-grid-menu-2.js:171-173 | the pointer constraint is tied to the node, the offset is set and one more copy of it is pushed |
| GridMenu2.InfiniteGridMenu2.RemovePointerConstraint | src/infinite-grid-menu-2.js:176-181 | the first copy of the pointer constraint, if any, is removed |
| GridMenu2.InfiniteGridMenu2.Splice | src/infinite-grid-menu-2.js:178-180 | splicing one pointer copy out drops the last constraint |
| GridMenu2.InfiniteGridMenu2.PointerDown | src/infinite-grid-menu-2.js:147-152 | the pointer is down at the event position and the pointer constraint is added, or the search throws with the constraints unchanged |
| GridMenu2.InfiniteGridMenu2.PointerRelease | src/infinite-grid-menu-2.js:153-160 | the pointer is up and one copy of the pointer constraint is removed |
| GridMenu2.InfiniteGridMenu2.PointerMove | src/infinite-grid-menu-2.js:161-166 | the pointer follows the event only while down |
| GridMenu2.InfiniteGridMenu2.Animate | src/infinite-grid-menu-2.js:183-195 | the pointer node is placed at pointer plus offset and stays there; every mesh node ends at the Verlet step of its relaxed position |
| GridMenu2.InfiniteGridMenu2.Place | src/infinite-grid-menu-2.js:186-187 | only the pointer node's position changes, to pointer plus offset |
| GridMenu2.InfiniteGridMenu2.Run | src/infinite-grid-menu-2.js:60-69 | the capped delta and frame count advance and one animation step is taken |
| Springs.Integrated | src/SpringNode2.js:25-45 | a fixed node snaps back to its original position; a free node's previous position becomes its old position and its acceleration is cleared |
| Springs.IntegratedVelocity | src/SpringNode2.js:29-43 | the new velocity is the old velocity times drag plus acceleration times time² |
| Springs.IntegratedRest | src/SpringNode2.js:29-43 | a free node at rest with no force stays at rest |
| Springs.IntegratedTwice | src/SpringNode2.js:29-43 | with no force, two steps scale the velocity by drag² |
| Springs.SpringNode.constructor | src/SpringNode2.js:8-18 | a node starts at rest at its original position, with mass 100.25 and inverse mass 1/100.25 |
| Springs.SpringNode.AddForce | src/SpringNode2.js:20-23 | the acceleration grows by force times inverse mass |
| Springs.SpringNode.Integrate | src/SpringNode2.js:25-45 | the node state becomes the integrated state |
| Springs.SpringNode.IsRelaxed | src/SpringNode2.js:47-50 | a node never reports relaxed, since its scratch vector is never set |
| Springs.SpringNode.Reset | src/SpringNode2.js:52-55 | position and previous position return to the original position |
| Springs.Relaxed | dist/physics/SpringConstraint2.js:11-25 | fixed ends do not move, and coincident ends are left alone |
| Springs.RelaxedKeepsMidpoint | dist/physics/SpringConstraint2.js:18-24 | relaxing two free ends keeps their midpoint |
| Springs.RelaxedReachesRest | dist/physics/SpringConstraint2.js:12-24 | relaxing two free ends rescales their separation to exactly the rest length |
| Springs.RelaxedAtRest | dist/physics/SpringConstraint2.js:18 | a constraint already at rest length moves nothing |
| Springs.SpringConstraint.constructor | dist/physics/SpringConstraint2.js:4-9 | a constraint keeps its two ends and rest length |
| Springs.SpringConstraint.Satisfy | dist/physics/SpringConstraint2.js:11-25 | the two end positions become the relaxed pair |
| Springs.RelaxKeeps | dist/physics/SpringSimulation2.js:23-25 | a sweep leaves untouched every fixed node and every node no constraint names |
| Springs.SweepsKeep | dist/physics/SpringSimulation2.js:23-25 | repeated sweeps leave untouched every fixed node and every node no constraint names |
| Springs.RelaxOneKeepsMidpoint | dist/physics/SpringConstraint2.js:20-24 | one free–free constraint in the position map keeps the midpoint of its ends |
| Springs.TimeSquared | dist/physics/SpringSimulation2.js:28 | time² is non-negative, and is the step squared at scale 1 |
| Springs.FirstMinUnique | dist/physics/SpringSimulation2.js:38-52 | the strict-less scan picks at most one node, and finding one rules out "none below the maximum value" |
| Springs.SpringSimulation.constructor | dist/physics/SpringSimulation2.js:10-13 | the simulation keeps its nodes and constraints |
| Springs.SpringSimulation.Distances | dist/physics/SpringSimulation2.js:44 | one squared distance per node |
| Springs.SpringSimulation.Reset | dist/physics/SpringSimulation2.js:15-17 | every node returns to its original position and keeps its acceleration |
| Springs.SpringSimulation.IsRelaxed | dist/physics/SpringSimulation2.js:34-36 | the simulation is relaxed exactly when it has no nodes |
| Springs.SpringSimulation.FindNearestNode | dist/physics/SpringSimulation2.js:38-52 | the result is null exactly when no squared distance is below the maximum value, and otherwise the first nearest node |
| Springs.SpringSimulation.SatisfyAt | dist/physics/SpringSimulation2.js:24 | satisfying constraint i advances the sweep by one constraint |
| Springs.SpringSimulation.SatisfyAll | dist/physics/SpringSimulation2.js:24 | one loop over the constraints computes one sweep |
| Springs.SpringSimulation.IntegrateAll | dist/physics/SpringSimulation2.js:29-31 | every node takes its integrated state |
| Springs.SpringSimulation.SatisfyRepeatedly | dist/physics/SpringSimulation2.js:23-25 | the positions become those after the fixed number of sweeps |
| Springs.SpringSimulation.Update | dist/physics/SpringSimulation2.js:19-32 | positions are relaxed by the sweeps, then every node is integrated from its relaxed position with time² at deltaTime/16; bodies outside the node list only move by the sweeps |

## Left out

- WebGL: shader programs, buffers, textures, draw calls and canvas sizing
  (`#render` of the sphere menus, `canvas-utils`, `app.js`, `MenuItem`) are not
  part of this model. They draw and compute nothing the menus later read,
  except the camera distance, which is kept.
- `requestAnimationFrame` scheduling is left out. Each menu's `Run` is one call of
  `run(time)`. For the grid menu that includes the non-drawing part of `#render`.
- GridMenu1.InfiniteGridMenu1.constructor: ensures `pointerPos == Zero2`.
  src/infinite-grid-menu-1.js:111 assigns the function `vec2.create` itself
  rather than a vector. Nothing reads `pointerPos` before a pointer-down
  overwrites it, so the model starts it at the zero vector.
- The gl-matrix and `Math` float routines are parameters. Float rounding,
  NaN and Infinity are not modelled, except the undefined velocity
  (`Option.None`) of `ArcballDist.Velocity`. `Number.MAX_VALUE` is treated as
  an exact bound.
- `quatToString`, debug logging and the scratch vectors are left out. The
  commented-out and unreachable code is left out too:
  - src/infinite-grid-menu-1.js:227-236;
  - src/infinite-grid-menu-2.js:213-220.
- `#animate` in src/infinite-grid-menu-2.js loops over the nodes without
  effect, and the model leaves that loop out.
- Viewport resize of the cloth menu is left out, since it only feeds drawing.
- A `TypeError` that the source would throw on a null search result is
  modelled as the `thrown` result or the `Thrown` snap. It is not modelled as
  an exception that unwinds the caller.
- Mesh.Geometry.Subdivide: requires every face index to be in range. The
  source reads an undefined vertex and throws otherwise.
- ArcballDist.ArcballControl.Update: requires a non-degenerate canvas
  (`Span(w, h) != 0`). The projection divides by that span.
- ArcballSrc.ArcballControl.Update: requires `deltaTime + 0.01 != 0` and a
  non-degenerate canvas. Both are divisors in the source.
- ArcballSrc.FollowerApproaches: covers only frames of at most 15.99 ms. For
  longer frames, which the 32 ms cap admits, the follower overshoots the
  pointer (`ArcballSrc.FollowerOvershoots`), and from 31.99 ms on it does not
  settle (`ArcballSrc.FollowerNeverSettles`).
- ArcballSrc.TimeScale: requires `deltaTime + 0.01 != 0` for the same reason.
- Menus.SphereMenu3: the menus read the controller's fields
  (`isPointerDown`, `rotationVelocity`, `snapDirection`, `orientation`) as a
  `ControlView` value. The source-tree third menu is wired to a controller
  that has none of these fields:
  - src/infinite-grid-menu-3.js:4 imports `./utils/arcball-control`;
  - line 183 calls `new ArcballControl(this.canvas, () => this.#onControlUpdate())`
    against the signature `(canvas, vertices, updateCallback)` of
    src/utils/arcball-control.js:13-15.
  So the arrow function becomes `vertices` and `updateCallback` becomes
  `() => null`, and `#onControlUpdate` never runs. `#animate` then hands the
  undefined `this.control.orientation` to `vec3.transformQuat`
  (src/infinite-grid-menu-3.js:237), so the first frame throws.
  `snapToNearestPoint` of that controller loops up to the arrow function's
  arity, 0, and finds nothing. The model describes the callback as written,
  for a controller that provides these fields; it does not model this
  wiring.
- Menus.BuiltSphereMenu3 and Menus.SphereMenu: the controller files that
  dist/infinite-grid-menu-3.js:3 (`./utils/arcball-control.js`) and
  src/infinite-grid-menu.js:4 (`./arcball-control`) import are not part of
  this model. Their fields are taken as the `ControlView` value, and the
  wiring at dist/infinite-grid-menu-3.js:160 cannot be confirmed.
- Menus.DepthScaleRange: requires a non-zero `cameraWideAngleDistance`,
  which the source divides by.
- Menus.GrowingScaleFloor: requires a non-zero `cameraWideAngleDistance` too.
- GridMenu1.InfiniteGridMenu1.constructor: requires a non-negative viewport
  size, as a canvas client size always is.
- GridMenu1.InfiniteGridMenu1.Resize: requires a non-negative viewport size too.
- Springs.SpringConstraint.Satisfy: requires both ends to be set. The source
  would throw on a null end, and the cloth menu satisfies the pointer
  constraint only after attaching it.
- Springs.SpringSimulation.Update: requires distinct nodes and constraints
  whose ends are set. The model does not cover aliasing between two entries
  of the node list.
- Springs.SpringNode.IsRelaxed: always false. The source's threshold test is
  unreachable, because its scratch vector is never assigned.
- The ghost sets `bodies` and `links` of `SpringSimulation` are proof
  bookkeeping for the nodes the constraints reach. They have no
  counterpart in the source.

## Findings

| source | as written | input that shows it | evidently intended | confidence | as-written member | corrected member |
|---|---|---|---|---|---|---|
| dist/arcball-control.js:127-128 | the rotation velocity divides the turn angle by `timeScale = deltaTime / 16` | the first `run(0)` with the clock at 0 gives `deltaTime = 0`, so the velocity is 0/0 = NaN | a time scale shifted by 0.01 ms, as src/utils/arcball-control.js:63 does, giving `(deltaTime + 0.01) / 16`, which is never zero | not executed | ArcballDist.FirstFrameVelocity | ArcballDist.GuardedVelocityDefined |
