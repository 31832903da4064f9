/**
 * The logic the four sphere menus wrap around their WebGL drawing: the frame
 * clock of `run`, the nearest-anchor search that picks the snap target, the
 * camera z that eases toward a target while the controller reports back, and
 * the per-instance scale of the discs.
 *
 * A menu reads four fields of its controller (`isPointerDown`,
 * `rotationVelocity`, `snapDirection`, `orientation`) and writes one
 * (`snapTargetDirection`); the model hands the four in as a `ControlView`
 * and returns what is written as a `SnapWrite`.
 */
module Menus {
  import opened GlMath
  import opened Nearest
  import opened Topology

  /** `TARGET_FRAME_DURATION`: 1000 / 60 ms, one frame at 60 fps. */
  const TargetFrameDuration: real := 1000.0 / 60.0

  /** `SPHERE_RADIUS` of the sphere menus. */
  const SphereRadius: real := 2.0

  /**
   * The controller fields a menu's callback reads, taken as a value. The
   * controller object that owns them is not part of this value.
   */
  datatype ControlView = ControlView(isPointerDown: bool, rotationVelocity: real, snapDirection: Vec3, orientation: Quat)

  /**
   * What a callback does to `control.snapTargetDirection`: nothing (pointer
   * down), a new direction, or a `TypeError` when the search found no anchor
   * and `vec3.transformQuat` is handed `undefined`; the exception also skips
   * the camera update.
   */
  datatype SnapWrite = Unchanged | Written(direction: Vec3) | Thrown

  /** `vertices.map(v => v.position)`. */
  function Positions(vs: seq<Vertex>): (ps: seq<Vec3>)
    ensures |ps| == |vs|
    ensures forall i :: 0 <= i < |vs| ==> ps[i] == vs[i].position
  {
    seq(|vs|, i requires 0 <= i < |vs| => vs[i].position)
  }

  // ---------------------------------------------------------------------------
  // The frame clock of `run`

  /** `Math.min(32, time - previous)`: the frame length, clamped to 32 ms. */
  function FrameDelta(time: real, previous: real): (d: real)
    ensures d <= 32.0
    ensures time - previous <= 32.0 ==> d == time - previous
  {
    Min(32.0, time - previous)
  }

  /** The frames counted over a run of timestamps after `previous`. */
  function FramesOver(previous: real, times: seq<real>): real
    decreases |times|
  {
    if times == [] then 0.0
    else FrameDelta(times[0], previous) / TargetFrameDuration + FramesOver(times[0], times[1..])
  }

  /** No two consecutive timestamps are more than 32 ms apart. */
  predicate SmallGaps(previous: real, times: seq<real>)
    decreases |times|
  {
    times == [] || (times[0] - previous <= 32.0 && SmallGaps(times[0], times[1..]))
  }

  /**
   * While no frame is longer than 32 ms the clamp never fires and the frame
   * count is the elapsed time in 60 fps frames.
   */
  lemma {:induction false} FramesTelescope(previous: real, times: seq<real>)
    requires times != [] && SmallGaps(previous, times)
    ensures FramesOver(previous, times) == (times[|times| - 1] - previous) / TargetFrameDuration
    decreases |times|
  {
    if |times| > 1 {
      FramesTelescope(times[0], times[1..]);
      assert times[1..][|times[1..]| - 1] == times[|times| - 1];
    }
  }

  /** The time fields every menu class keeps. */
  class FrameClock {
    var time: real
    var deltaTime: real
    var deltaFrames: real
    var frames: real

    /** `#time`, `#deltaTime`, `#deltaFrames` and `#frames` all start at 0. */
    constructor ()
      ensures time == 0.0 && deltaTime == 0.0 && deltaFrames == 0.0 && frames == 0.0
    {
      time, deltaTime, deltaFrames, frames := 0.0, 0.0, 0.0, 0.0;
    }

    /** `run(time)`: the clamped delta, the new time, and the frames it adds to the total. */
    method Run(time: real)
      modifies this
      ensures deltaTime == FrameDelta(time, old(this.time)) && deltaTime <= 32.0
      ensures this.time == time
      ensures deltaFrames == deltaTime / TargetFrameDuration
      ensures frames == old(frames) + deltaFrames
    {
      deltaTime := Min(32.0, time - this.time);
      this.time := time;
      deltaFrames := deltaTime / TargetFrameDuration;
      frames := frames + deltaFrames;
    }
  }

  // ---------------------------------------------------------------------------
  // Camera easing and the snap request

  /** `z += (target - z) / damping`. */
  function Ease(z: real, target: real, damping: real): real
    requires damping != 0.0
  {
    z + (target - z) / damping
  }

  /**
   * With a damping of at least 1 the camera never overshoots: it lands
   * between where it was and the target, and it stays at the target once
   * there.
   */
  lemma EaseBetween(z: real, target: real, damping: real)
    requires damping >= 1.0
    ensures Min(z, target) <= Ease(z, target, damping) <= Max(z, target)
    ensures Ease(target, target, damping) == target
  {
    Between(z, target, damping);
  }

  /**
   * The snap request of a callback with the pointer up: a `TypeError`
   * exactly when no anchor beats -1, else the first anchor of largest dot
   * product with `nt`, carried to world space and normalized.
   */
  ghost predicate SnapsToFirstMax(snap: SnapWrite, nt: Vec3, ps: seq<Vec3>, orientation: Quat, lib: Routines)
  {
    !snap.Unchanged? &&
    (snap.Thrown? <==> NoneAbove(nt, ps)) &&
    (snap.Written? ==> exists i: nat :: IsFirstMax(nt, ps, i) && snap.direction == WorldDirection(ps[i], orientation, lib))
  }

  /** The view axis of the controller carried into model space: what the searches score against. */
  function SearchAxis(control: ControlView, lib: Routines): Vec3
  {
    ModelSpaceNormal(control.snapDirection, control.orientation, lib)
  }

  // ---------------------------------------------------------------------------
  // The four menus

  /** The sphere menu of the source tree: anchors by index, camera between 3 and 5.25 + velocity. */
  class SphereMenu {
    var cameraZ: real
    const instancePositions: seq<Vec3>

    /** The anchors are the positions of the menu sphere's vertices; the camera starts at z = 3. */
    constructor (vertices: seq<Vertex>)
      ensures instancePositions == Positions(vertices) && cameraZ == 3.0
    {
      instancePositions := Positions(vertices);
      cameraZ := 3.0;
    }

    /** `#findNearestVertexIndex`: the first index of largest dot product, or `undefined` (`None`). */
    method FindNearestVertexIndex(control: ControlView, lib: Routines) returns (index: Option<nat>)
      ensures index.None? <==> NoneAbove(SearchAxis(control, lib), instancePositions)
      ensures index.Some? ==> IsFirstMax(SearchAxis(control, lib), instancePositions, index.value)
    {
      var nt := ModelSpaceNormal(control.snapDirection, control.orientation, lib);
      index := FirstMax(nt, instancePositions);
    }

    /**
     * `#onControlUpdate`: with the pointer up, snap to the nearest anchor
     * and ease toward z = 3 by a fifth; with it down, ease toward
     * 3 + velocity * 80 + 2.25 by a seventh.
     */
    method OnControlUpdate(control: ControlView, lib: Routines) returns (snap: SnapWrite)
      modifies this`cameraZ
      ensures control.isPointerDown ==>
                snap == Unchanged && cameraZ == Ease(old(cameraZ), 3.0 + (control.rotationVelocity * 80.0 + 2.25), 7.0)
      ensures !control.isPointerDown ==>
                SnapsToFirstMax(snap, SearchAxis(control, lib), instancePositions, control.orientation, lib) &&
                cameraZ == if snap.Thrown? then old(cameraZ) else Ease(old(cameraZ), 3.0, 5.0)
    {
      var damping := 5.0;
      var cameraTargetZ := 3.0;
      snap := Unchanged;
      if !control.isPointerDown {
        var nearestVertexIndex := FindNearestVertexIndex(control, lib);
        if nearestVertexIndex.None? {
          return Thrown;
        }
        snap := Written(WorldDirection(instancePositions[nearestVertexIndex.value], control.orientation, lib));
      } else {
        cameraTargetZ := cameraTargetZ + (control.rotationVelocity * 80.0 + 2.25);
        damping := 7.0;
      }
      cameraZ := cameraZ + (cameraTargetZ - cameraZ) / damping;
    }
  }

  /** `0.25 + (|z| / wideAngleDistance) * 0`: the base disc scale, whatever the camera distance. */
  function SphereMenuBaseScale(cameraZ: real, wideAngleDistance: real): real
    requires wideAngleDistance != 0.0
  {
    0.25 + (Abs(cameraZ) / wideAngleDistance) * 0.0
  }

  /** The disc scale at depth `z`: `((|z| / SPHERE_RADIUS) * 1 + (1 - 1)) * scale`. */
  function DepthScale(z: real, scale: real): real
  {
    ((Abs(z) / SphereRadius) * 1.0 + (1.0 - 1.0)) * scale
  }

  /** The discs of the source-tree menu scale linearly with depth, from 0 at the rim to 0.25 at the poles. */
  lemma DepthScaleRange(z: real, cameraZ: real, wideAngleDistance: real)
    requires wideAngleDistance != 0.0
    ensures SphereMenuBaseScale(cameraZ, wideAngleDistance) == 0.25
    ensures var s := DepthScale(z, SphereMenuBaseScale(cameraZ, wideAngleDistance));
            s == Abs(z) / 8.0 && 0.0 <= s && (Abs(z) <= SphereRadius ==> s <= 0.25)
  {
  }

  /** The built sphere menu: the same callback, the search keeping index and position together. */
  class BuiltSphereMenu {
    var cameraZ: real
    const instancePositions: seq<Vec3>

    /** The anchors are the positions of the menu sphere's vertices; the camera starts at z = 3. */
    constructor (vertices: seq<Vertex>)
      ensures instancePositions == Positions(vertices) && cameraZ == 3.0
    {
      instancePositions := Positions(vertices);
      cameraZ := 3.0;
    }

    /**
     * `#findNearestSnapDirection`: the world direction of the first anchor
     * of largest dot product; `None` for the `TypeError` of an empty search.
     */
    method FindNearestSnapDirection(control: ControlView, lib: Routines) returns (direction: Option<Vec3>)
      ensures direction.None? <==> NoneAbove(SearchAxis(control, lib), instancePositions)
      ensures direction.Some? ==>
                exists i: nat :: IsFirstMax(SearchAxis(control, lib), instancePositions, i) &&
                                 direction.value == WorldDirection(instancePositions[i], control.orientation, lib)
    {
      var nt := ModelSpaceNormal(control.snapDirection, control.orientation, lib);
      var nearestVertexIndex, nearestVertexPos := FirstMaxWithPosition(nt, instancePositions);
      if nearestVertexPos.None? {
        return None;
      }
      direction := Some(WorldDirection(nearestVertexPos.value, control.orientation, lib));
    }

    /** `#onControlUpdate`: as in the source-tree menu. */
    method OnControlUpdate(control: ControlView, lib: Routines) returns (snap: SnapWrite)
      modifies this`cameraZ
      ensures control.isPointerDown ==>
                snap == Unchanged && cameraZ == Ease(old(cameraZ), 3.0 + (control.rotationVelocity * 80.0 + 2.25), 7.0)
      ensures !control.isPointerDown ==>
                SnapsToFirstMax(snap, SearchAxis(control, lib), instancePositions, control.orientation, lib) &&
                cameraZ == if snap.Thrown? then old(cameraZ) else Ease(old(cameraZ), 3.0, 5.0)
    {
      var damping := 5.0;
      var cameraTargetZ := 3.0;
      snap := Unchanged;
      if !control.isPointerDown {
        var direction := FindNearestSnapDirection(control, lib);
        if direction.None? {
          return Thrown;
        }
        snap := Written(direction.value);
      } else {
        cameraTargetZ := cameraTargetZ + (control.rotationVelocity * 80.0 + 2.25);
        damping := 7.0;
      }
      cameraZ := cameraZ + (cameraTargetZ - cameraZ) / damping;
    }
  }

  /** `0.15 + (|z| / wideAngleDistance) * 0`: the base disc scale of the built menu. */
  function BuiltMenuBaseScale(cameraZ: real, wideAngleDistance: real): real
    requires wideAngleDistance != 0.0
  {
    0.15 + (Abs(cameraZ) / wideAngleDistance) * 0.0
  }

  /** The disc scale at depth `z`: `(|z| * 0.6 + 0.4) * scale`. */
  function GrowingScale(z: real, scale: real): real
  {
    (Abs(z) * 0.6 + 0.4) * scale
  }

  /** Every disc of the built menu, and of the source-tree third menu (scale 0.15), is at least 0.06 across. */
  lemma GrowingScaleFloor(z: real, cameraZ: real, wideAngleDistance: real)
    requires wideAngleDistance != 0.0
    ensures BuiltMenuBaseScale(cameraZ, wideAngleDistance) == 0.15
    ensures GrowingScale(z, BuiltMenuBaseScale(cameraZ, wideAngleDistance)) >= 0.06
    ensures GrowingScale(z, 0.15) >= 0.06
  {
  }

  /** The third sphere menu of the source tree: the camera eases between fractions of the wide-angle distance. */
  class SphereMenu3 {
    var cameraZ: real
    var cameraWideAngleDistance: real
    const instancePositions: seq<Vec3>

    /** The anchors are the positions of the menu sphere's vertices; the camera starts at z = 7. */
    constructor (vertices: seq<Vertex>, wideAngleDistance: real)
      ensures instancePositions == Positions(vertices) && cameraZ == 7.0
      ensures cameraWideAngleDistance == wideAngleDistance
    {
      instancePositions := Positions(vertices);
      cameraZ := 7.0;
      cameraWideAngleDistance := wideAngleDistance;
    }

    /** `#findNearestSnapDirection`: the search keeps only the winning position. */
    method FindNearestSnapDirection(control: ControlView, lib: Routines) returns (direction: Option<Vec3>)
      ensures direction.None? <==> NoneAbove(SearchAxis(control, lib), instancePositions)
      ensures direction.Some? ==>
                exists i: nat :: IsFirstMax(SearchAxis(control, lib), instancePositions, i) &&
                                 direction.value == WorldDirection(instancePositions[i], control.orientation, lib)
    {
      var nt := ModelSpaceNormal(control.snapDirection, control.orientation, lib);
      var index, nearestVertexPos := FirstMaxWithPosition(nt, instancePositions);
      if nearestVertexPos.None? {
        return None;
      }
      direction := Some(WorldDirection(nearestVertexPos.value, control.orientation, lib));
    }

    /**
     * `#onControlUpdate`: with the pointer up, snap and ease toward
     * 0.6 * 0.9 of the wide-angle distance by a sixth; with it down, ease
     * toward velocity * 9 + 0.7 of the wide-angle distance by a quarter.
     */
    method OnControlUpdate(control: ControlView, lib: Routines) returns (snap: SnapWrite)
      modifies this`cameraZ
      ensures control.isPointerDown ==>
                snap == Unchanged &&
                cameraZ == Ease(old(cameraZ), control.rotationVelocity * 9.0 + cameraWideAngleDistance * 0.7, 4.0)
      ensures !control.isPointerDown ==>
                SnapsToFirstMax(snap, SearchAxis(control, lib), instancePositions, control.orientation, lib) &&
                cameraZ == if snap.Thrown? then old(cameraZ) else Ease(old(cameraZ), cameraWideAngleDistance * 0.6 * 0.9, 6.0)
    {
      var damping := 6.0;
      var cameraTargetZ := cameraWideAngleDistance * 0.6;
      snap := Unchanged;
      if !control.isPointerDown {
        cameraTargetZ := cameraTargetZ * 0.9;
        var direction := FindNearestSnapDirection(control, lib);
        if direction.None? {
          return Thrown;
        }
        snap := Written(direction.value);
      } else {
        cameraTargetZ := control.rotationVelocity * 9.0 + cameraWideAngleDistance * 0.7;
        damping := 4.0;
      }
      cameraZ := cameraZ + (cameraTargetZ - cameraZ) / damping;
    }
  }

  /** The third built menu: the search runs over the sphere's vertex records. */
  class BuiltSphereMenu3 {
    var cameraZ: real
    var cameraWideAngleDistance: real
    const icoVertices: seq<Vertex>

    /** The camera starts at z = 7. */
    constructor (vertices: seq<Vertex>, wideAngleDistance: real)
      ensures icoVertices == vertices && cameraZ == 7.0
      ensures cameraWideAngleDistance == wideAngleDistance
    {
      icoVertices := vertices;
      cameraZ := 7.0;
      cameraWideAngleDistance := wideAngleDistance;
    }

    /** `#findNearestSnapDirection` over `icoGeo.vertices[i].position`. */
    method FindNearestSnapDirection(control: ControlView, lib: Routines) returns (direction: Option<Vec3>)
      ensures direction.None? <==> NoneAbove(SearchAxis(control, lib), Positions(icoVertices))
      ensures direction.Some? ==>
                exists i: nat :: IsFirstMax(SearchAxis(control, lib), Positions(icoVertices), i) &&
                                 direction.value == WorldDirection(icoVertices[i].position, control.orientation, lib)
    {
      var nt := ModelSpaceNormal(control.snapDirection, control.orientation, lib);
      var index, nearestVertexPos := FirstMaxWithPosition(nt, Positions(icoVertices));
      if nearestVertexPos.None? {
        return None;
      }
      direction := Some(WorldDirection(nearestVertexPos.value, control.orientation, lib));
    }

    /**
     * `#onControlUpdate`: with the pointer up, snap and ease toward 0.6 of
     * the wide-angle distance by a sixth; with it down, ease toward the
     * wide-angle distance by a quarter.
     */
    method OnControlUpdate(control: ControlView, lib: Routines) returns (snap: SnapWrite)
      modifies this`cameraZ
      ensures control.isPointerDown ==>
                snap == Unchanged && cameraZ == Ease(old(cameraZ), cameraWideAngleDistance, 4.0)
      ensures !control.isPointerDown ==>
                SnapsToFirstMax(snap, SearchAxis(control, lib), Positions(icoVertices), control.orientation, lib) &&
                cameraZ == if snap.Thrown? then old(cameraZ) else Ease(old(cameraZ), cameraWideAngleDistance * 0.6, 6.0)
    {
      var damping := 6.0;
      var cameraTargetZ := cameraWideAngleDistance * 0.6;
      snap := Unchanged;
      if !control.isPointerDown {
        var direction := FindNearestSnapDirection(control, lib);
        if direction.None? {
          return Thrown;
        }
        snap := Written(direction.value);
      } else {
        cameraTargetZ := cameraWideAngleDistance;
        damping := 4.0;
      }
      cameraZ := cameraZ + (cameraTargetZ - cameraZ) / damping;
    }
  }
}
