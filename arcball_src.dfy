/**
 * The arcball controller of the source tree: a follower that eases toward the
 * pointer by `1 / timeScale` of the gap each frame, a drag rotation between
 * the projected follower positions of two frames, a snap rotation that turns
 * the nearest anchor vertex toward the viewer once the pointer is released,
 * and a current rotation slerped toward the accumulated target rotation.
 */
module ArcballSrc {
  import opened GlMath
  import opened Trackball
  import opened Nearest
  import ArcballDist

  /** The arcball radius `#project` uses here. */
  const BallRadius: real := 1.0

  /** The view axis (0, 0, 1) that anchors are snapped to. */
  const ViewAxis := Vec3(0.0, 0.0, 1.0)

  /** `16 / (deltaTime + 0.01)`: the inverse of the time scale of the other controller. */
  function TimeScale(deltaTime: real): (ts: real)
    requires deltaTime + 0.01 != 0.0
    ensures ts != 0.0
    ensures deltaTime >= 0.0 ==> 0.0 < ts <= 1600.0
  {
    16.0 / (deltaTime + 0.01)
  }

  /** One step of the follower: x and y move by the gap to the pointer divided by the damping; z stays. */
  function Follower(follow: Vec3, pointer: Vec2, damping: real): Vec3
    requires damping != 0.0
  {
    Vec3(follow.x + (pointer.x - follow.x) / damping, follow.y + (pointer.y - follow.y) / damping, follow.z)
  }

  /**
   * Dividing by `16 / (deltaTime + 0.01)` is multiplying by
   * `(deltaTime + 0.01) / 16`: the follower moves by the gap scaled by the
   * guarded time scale of the other controller.
   */
  lemma FollowerScales(follow: Vec3, pointer: Vec2, deltaTime: real)
    requires deltaTime + 0.01 != 0.0
    ensures var k := ArcballDist.GuardedTimeScale(deltaTime);
            var f := Follower(follow, pointer, TimeScale(deltaTime));
            f.x == follow.x + (pointer.x - follow.x) * k && f.y == follow.y + (pointer.y - follow.y) * k && f.z == follow.z
  {
    var k := ArcballDist.GuardedTimeScale(deltaTime);
    var ts := TimeScale(deltaTime);
    assert ts * k == 1.0;
    assert (pointer.x - follow.x) / ts == (pointer.x - follow.x) * k;
    assert (pointer.y - follow.y) / ts == (pointer.y - follow.y) * k;
  }

  /**
   * Frames of at most 15.99 ms give a damping of at least 1, and then the
   * follower never overshoots: each coordinate lands between where it was
   * and where the pointer is, and it stays put once it has reached the pointer.
   */
  lemma FollowerApproaches(follow: Vec3, pointer: Vec2, deltaTime: real)
    requires 0.0 <= deltaTime <= 15.99
    ensures var f := Follower(follow, pointer, TimeScale(deltaTime));
            Min(follow.x, pointer.x) <= f.x <= Max(follow.x, pointer.x) &&
            Min(follow.y, pointer.y) <= f.y <= Max(follow.y, pointer.y)
    ensures follow.x == pointer.x && follow.y == pointer.y ==> Follower(follow, pointer, TimeScale(deltaTime)) == follow
  {
    var d := TimeScale(deltaTime);
    assert d * (deltaTime + 0.01) == 16.0;
    assert d >= 1.0;
    Between(follow.x, pointer.x, d);
    Between(follow.y, pointer.y, d);
  }

  /**
   * Frames longer than 15.99 ms give a damping below 1, and then the follower
   * overshoots: the gap to the pointer is multiplied by `1 - (deltaTime + 0.01) / 16`,
   * a negative factor, so a follower short of the pointer ends beyond it.
   */
  lemma FollowerOvershoots(follow: Vec3, pointer: Vec2, deltaTime: real)
    requires deltaTime > 15.99
    ensures var k := ArcballDist.GuardedTimeScale(deltaTime);
            var f := Follower(follow, pointer, TimeScale(deltaTime));
            pointer.x - f.x == (pointer.x - follow.x) * (1.0 - k) &&
            pointer.y - f.y == (pointer.y - follow.y) * (1.0 - k) && 1.0 - k < 0.0
    ensures var f := Follower(follow, pointer, TimeScale(deltaTime));
            (follow.x < pointer.x ==> f.x > pointer.x) && (follow.x > pointer.x ==> f.x < pointer.x) &&
            (follow.y < pointer.y ==> f.y > pointer.y) && (follow.y > pointer.y ==> f.y < pointer.y)
  {
    FollowerScales(follow, pointer, deltaTime);
    var k := ArcballDist.GuardedTimeScale(deltaTime);
    var f := Follower(follow, pointer, TimeScale(deltaTime));
    PastTarget(follow.x, pointer.x, f.x, k);
    PastTarget(follow.y, pointer.y, f.y, k);
  }

  /**
   * Arithmetic helper (nonlinear step the solver needs named): moving from
   * `u` by `k > 1` times the gap to `v` lands on the far side of `v`.
   */
  lemma PastTarget(u: real, v: real, w: real, k: real)
    requires k > 1.0 && w == u + (v - u) * k
    ensures v - w == (v - u) * (1.0 - k)
    ensures (u < v ==> w > v) && (u > v ==> w < v)
  {
    var g := v - u;
    assert g * (1.0 - k) == g - g * k;
    assert g * k == g + g * (k - 1.0);
    assert w - v == g * (k - 1.0);
    if g > 0.0 {
      assert g * (k - 1.0) > 0.0;
    } else if g < 0.0 {
      assert (-g) * (k - 1.0) > 0.0;
    }
  }

  /**
   * From 31.99 ms on, which the 32 ms cap on the frame delta still admits,
   * the gap to a held pointer does not shrink: the follower swings from side
   * to side of the pointer, and past 31.99 ms it moves further away each frame.
   */
  lemma FollowerNeverSettles(follow: Vec3, pointer: Vec2, deltaTime: real)
    requires deltaTime >= 31.99
    ensures var f := Follower(follow, pointer, TimeScale(deltaTime));
            Abs(pointer.x - f.x) >= Abs(pointer.x - follow.x) &&
            Abs(pointer.y - f.y) >= Abs(pointer.y - follow.y)
    ensures var f := Follower(follow, pointer, TimeScale(deltaTime));
            deltaTime > 31.99 && follow.x != pointer.x ==> Abs(pointer.x - f.x) > Abs(pointer.x - follow.x)
  {
    FollowerOvershoots(follow, pointer, deltaTime);
    var k := ArcballDist.GuardedTimeScale(deltaTime);
    GapGrows(pointer.x - follow.x, k, deltaTime > 31.99);
    GapGrows(pointer.y - follow.y, k, deltaTime > 31.99);
  }

  /** Arithmetic helper (nonlinear step the solver needs named): `|g·(1-k)| >= |g|` when `k >= 2`, strictly when `k > 2`. */
  lemma GapGrows(g: real, k: real, strict: bool)
    requires k >= 2.0 && (strict ==> k > 2.0)
    ensures Abs(g * (1.0 - k)) >= Abs(g)
    ensures strict && g != 0.0 ==> Abs(g * (1.0 - k)) > Abs(g)
  {
    if g > 0.0 {
      assert g * (1.0 - k) == -(g * (k - 1.0));
      assert g * (k - 1.0) >= g * 1.0;
      if strict { assert g * (k - 1.0) > g * 1.0; }
    } else if g < 0.0 {
      assert g * (1.0 - k) == (-g) * (k - 1.0);
      assert (-g) * (k - 1.0) >= (-g) * 1.0;
      if strict { assert (-g) * (k - 1.0) > (-g) * 1.0; }
    }
  }

  /** The two points a drag rotates between: the projected, normalized follower positions of this and the last frame. */
  function DragPoints(follow: Vec3, prevFollow: Vec3, w: real, h: real, lib: Routines): (Vec3, Vec3)
    requires SqrtLaw(lib.sqrt) && Span(w, h) != 0.0
  {
    (lib.normalize3(Project(follow.x, follow.y, w, h, BallRadius, lib.sqrt)),
     lib.normalize3(Project(prevFollow.x, prevFollow.y, w, h, BallRadius, lib.sqrt)))
  }

  /** The snap rotation: from the anchor carried to world space by the target rotation to the view axis, at half the angle. */
  function SnapQuat(snapVertexPos: Option<Vec3>, target: Quat, lib: Routines): Quat
  {
    if snapVertexPos.None? then IdentityQuat
    else FromVectors(WorldDirection(snapVertexPos.value, target, lib), ViewAxis, 0.5, lib)
  }

  /** The slerp damping: 0.3 while snapping to an anchor, else 0.8. */
  function SlerpDamping(snapVertexPos: Option<Vec3>): (d: real)
    ensures 0.0 < d < 1.0
  {
    if snapVertexPos.Some? then 0.3 else 0.8
  }

  /** Without an anchor the target rotation only takes up the pointer rotation. */
  lemma NoSnapKeepsPointer(pointerQuat: Quat, lib: Routines)
    ensures Multiply(SnapQuat(None, IdentityQuat, lib), pointerQuat) == pointerQuat
  {
    MultiplyIdentityLeft(pointerQuat);
  }

  class ArcballControl {
    var rotationQuat: Quat
    var targetRotationQuat: Quat
    var pointerQuat: Quat
    /** `null` or `undefined` in the source is `None`. */
    var snapVertexPos: Option<Vec3>
    var pointerDown: bool
    var pointerDownPos: Vec2
    var pointerPos: Vec2
    var followPos: Vec3
    var prevFollowPos: Vec3
    var autoRotationSpeed: real
    var pointerAngle: real
    var pointerAxis: Vec3
    /** The positions of the anchor vertices, in the order the search visits them. */
    var vertices: seq<Vec3>
    /** How many times `update` has run `updateCallback`. */
    var callbacks: nat

    /** `new ArcballControl(canvas, vertices, cb)`: normalized identity rotations, pointer up, everything at zero. */
    constructor (vertices: seq<Vec3>, lib: Routines)
      ensures this.vertices == vertices
      ensures rotationQuat == lib.normalizeQuat(IdentityQuat) && targetRotationQuat == rotationQuat
      ensures pointerQuat == IdentityQuat && snapVertexPos.None? && !pointerDown
      ensures pointerDownPos == Zero2 && pointerPos == Zero2 && followPos == Zero3 && prevFollowPos == Zero3
      ensures autoRotationSpeed == 0.0 && pointerAngle == 0.0 && pointerAxis == Zero3 && callbacks == 0
    {
      this.vertices := vertices;
      rotationQuat := lib.normalizeQuat(IdentityQuat);
      targetRotationQuat := lib.normalizeQuat(IdentityQuat);
      pointerQuat := IdentityQuat;
      snapVertexPos := None;
      pointerDown := false;
      pointerDownPos := Zero2;
      pointerPos := Zero2;
      followPos := Zero3;
      prevFollowPos := Zero3;
      autoRotationSpeed := 0.0;
      pointerAngle := 0.0;
      pointerAxis := Zero3;
      callbacks := 0;
    }

    /** `pointerdown`: every pointer position at the event point, pointer down, no auto rotation, no anchor. */
    method PointerDown(x: real, y: real)
      modifies this`pointerDownPos, this`followPos, this`pointerPos, this`prevFollowPos
      modifies this`pointerDown, this`autoRotationSpeed, this`snapVertexPos
      ensures pointerDownPos == Vec2(x, y) && pointerPos == Vec2(x, y)
      ensures followPos == Vec3(x, y, 0.0) && prevFollowPos == Vec3(x, y, 0.0)
      ensures pointerDown && autoRotationSpeed == 0.0 && snapVertexPos.None?
    {
      pointerDownPos := Vec2(x, y);
      followPos := Vec3(x, y, 0.0);
      pointerPos := Vec2(x, y);
      prevFollowPos := Vec3(x, y, 0.0);
      pointerDown := true;
      autoRotationSpeed := 0.0;
      snapVertexPos := None;
    }

    /**
     * `pointerup` and `pointerleave`: ignored while the pointer is up;
     * otherwise the pointer goes up and the nearest anchor is chosen.
     */
    method PointerRelease(lib: Routines)
      modifies this`pointerDown, this`snapVertexPos
      ensures !pointerDown
      ensures !old(pointerDown) ==> snapVertexPos == old(snapVertexPos)
      ensures old(pointerDown) ==> Snapped(ModelSpaceNormal(ViewAxis, rotationQuat, lib))
    {
      if !pointerDown {
        return;
      }
      pointerDown := false;
      SnapToNearestPoint(lib);
    }

    /** `pointermove`: the pointer position follows the event only while the pointer is down. */
    method PointerMove(x: real, y: real)
      modifies this`pointerPos
      ensures pointerPos == if pointerDown then Vec2(x, y) else old(pointerPos)
    {
      if pointerDown {
        pointerPos := Vec2(x, y);
      }
    }

    /**
     * The anchor is the first vertex of largest dot product with `nt`, or
     * none when no dot product exceeds -1.
     */
    ghost predicate Snapped(nt: Vec3)
      reads this`snapVertexPos, this`vertices
    {
      (snapVertexPos.None? <==> NoneAbove(nt, vertices)) &&
      (snapVertexPos.Some? ==> exists i: nat :: IsFirstMax(nt, vertices, i) && snapVertexPos.value == vertices[i])
    }

    /** `snapToNearestPoint`: search along the view axis carried into model space by the inverse rotation. */
    method SnapToNearestPoint(lib: Routines)
      modifies this`snapVertexPos
      ensures Snapped(ModelSpaceNormal(ViewAxis, rotationQuat, lib))
    {
      var nt := ModelSpaceNormal(ViewAxis, rotationQuat, lib);
      var index, position := FirstMaxWithPosition(nt, vertices);
      snapVertexPos := position;
    }

    /**
     * `update(deltaTime)` on a `w` by `h` canvas: the follower step, the
     * pointer rotation, the snap rotation, the new target and current
     * rotations, and one run of the callback.
     */
    method Update(deltaTime: real, w: real, h: real, lib: Routines)
      requires deltaTime + 0.01 != 0.0
      requires SqrtLaw(lib.sqrt) && Span(w, h) != 0.0
      modifies this`followPos, this`pointerAngle, this`pointerAxis, this`pointerQuat
      modifies this`targetRotationQuat, this`rotationQuat, this`prevFollowPos, this`callbacks
      ensures followPos == Follower(old(followPos), pointerPos, TimeScale(deltaTime))
      ensures pointerDown ==>
                var ab := DragPoints(followPos, old(prevFollowPos), w, h, lib);
                pointerAxis == TurnAxis(ab.0, ab.1, lib) &&
                pointerAngle == TurnAngle(ab.0, ab.1, TimeScale(deltaTime) * 1.5, lib) &&
                pointerQuat == lib.setAxisAngle(pointerAxis, pointerAngle)
      ensures !pointerDown ==>
                pointerAxis == old(pointerAxis) && pointerAngle == old(pointerAngle) &&
                pointerQuat == lib.slerp(old(pointerQuat), IdentityQuat, 0.1)
      ensures targetRotationQuat ==
                Multiply(Multiply(SnapQuat(snapVertexPos, old(targetRotationQuat), lib), pointerQuat), old(targetRotationQuat))
      ensures rotationQuat == lib.slerp(old(rotationQuat), targetRotationQuat, SlerpDamping(snapVertexPos))
      ensures prevFollowPos == followPos
      ensures callbacks == old(callbacks) + 1
    {
      var timeScale := 16.0 / (deltaTime + 0.01);
      FollowPointer(timeScale);
      TurnPointer(timeScale, w, h, lib);
      var snapQuat := SnapQuat(snapVertexPos, targetRotationQuat, lib);
      var slerpDamping := SlerpDamping(snapVertexPos);
      var combinedQuat := Multiply(snapQuat, pointerQuat);
      targetRotationQuat := Multiply(combinedQuat, targetRotationQuat);
      rotationQuat := lib.slerp(rotationQuat, targetRotationQuat, slerpDamping);
      prevFollowPos := followPos;
      callbacks := callbacks + 1;
    }

    /** The mouse follower: x and y move by the gap to the pointer divided by `pointerDamping = timeScale`. */
    method FollowPointer(timeScale: real)
      requires timeScale != 0.0
      modifies this`followPos
      ensures followPos == Follower(old(followPos), pointerPos, timeScale)
    {
      var pointerDamping := 1.0 * timeScale;
      followPos := followPos.(x := followPos.x + (pointerPos.x - followPos.x) / pointerDamping);
      followPos := followPos.(y := followPos.y + (pointerPos.y - followPos.y) / pointerDamping);
    }

    /**
     * The pointer half of `update`: with the pointer down the axis and angle
     * (scrolling 1.5 times faster) between the projected follower positions,
     * stored and turned into the pointer rotation; with the pointer up the
     * pointer rotation slerped a tenth of the way to the identity.
     */
    method TurnPointer(timeScale: real, w: real, h: real, lib: Routines)
      requires SqrtLaw(lib.sqrt) && Span(w, h) != 0.0
      modifies this`pointerAngle, this`pointerAxis, this`pointerQuat
      ensures pointerDown ==>
                var ab := DragPoints(followPos, prevFollowPos, w, h, lib);
                pointerAxis == TurnAxis(ab.0, ab.1, lib) &&
                pointerAngle == TurnAngle(ab.0, ab.1, timeScale * 1.5, lib) &&
                pointerQuat == lib.setAxisAngle(pointerAxis, pointerAngle)
      ensures !pointerDown ==>
                pointerAxis == old(pointerAxis) && pointerAngle == old(pointerAngle) &&
                pointerQuat == lib.slerp(old(pointerQuat), IdentityQuat, 0.1)
    {
      if pointerDown {
        var ab := DragPoints(followPos, prevFollowPos, w, h, lib);
        var angleFactor := timeScale * 1.5;
        var axis := TurnAxis(ab.0, ab.1, lib);
        var angle := TurnAngle(ab.0, ab.1, angleFactor, lib);
        pointerAngle := angle;
        pointerAxis := axis;
        pointerQuat := lib.setAxisAngle(pointerAxis, pointerAngle);
      } else {
        pointerQuat := lib.slerp(pointerQuat, IdentityQuat, 0.1);
      }
    }
  }
}
