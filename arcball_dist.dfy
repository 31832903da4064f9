/**
 * The arcball controller of the built sphere menu: pointer flags, a pointer
 * position smoothed toward the real one, the drag rotation between two
 * projected points, a snap rotation that turns the chosen anchor toward the
 * viewer while the pointer is up, and the axis and velocity of the combined
 * rotation reported to the menu.
 */
module ArcballDist {
  import opened GlMath
  import opened Trackball

  /** `EPSILON`: the squared step below which the pointer counts as still. */
  const Epsilon: real := 0.0001

  /** The arcball radius `#project` uses here. */
  const BallRadius: real := 2.0

  /** `deltaTime / targetFrameDuration`, with the default frame duration of 16 ms. */
  function TimeScale(deltaTime: real): real
  {
    deltaTime / 16.0
  }

  /** The part of the pointer movement taken this frame: (pointer - previous) * 0.3 * timeScale. */
  function SmoothedStep(pointerPos: Vec2, previous: Vec2, timeScale: real): Vec2
  {
    Scale2(Sub2(pointerPos, previous), 0.3 * timeScale)
  }

  /** The pointer counts as moving when the squared smoothed step exceeds `EPSILON`. */
  predicate Moves(pointerPos: Vec2, previous: Vec2, timeScale: real)
  {
    SqrLen2(SmoothedStep(pointerPos, previous, timeScale)) > Epsilon
  }

  /** A zero time scale makes the step zero, so a moving pointer has a nonzero time scale. */
  lemma MovesScale(pointerPos: Vec2, previous: Vec2, timeScale: real)
    ensures timeScale == 0.0 ==> !Moves(pointerPos, previous, timeScale)
  {
    if timeScale == 0.0 {
      assert SmoothedStep(pointerPos, previous, timeScale) == Vec2(0.0, 0.0);
    }
  }

  /** Where the smoothed pointer lands: the previous position plus the smoothed step. */
  function Follow(pointerPos: Vec2, previous: Vec2, timeScale: real): Vec2
  {
    Add2(previous, SmoothedStep(pointerPos, previous, timeScale))
  }

  /**
   * The pointer rotation of a frame with the pointer down: from the projected
   * smoothed position to the projected previous one, with the angle factor
   * `timeScale * (5 / timeScale)`, or the identity when the pointer is still.
   */
  function DragRotation(pointerPos: Vec2, previous: Vec2, timeScale: real, w: real, h: real, lib: Routines): Quat
    requires SqrtLaw(lib.sqrt) && Span(w, h) != 0.0
  {
    if Moves(pointerPos, previous, timeScale) then
      MovesScale(pointerPos, previous, timeScale);
      var mid := Follow(pointerPos, previous, timeScale);
      var a := lib.normalize3(Project(mid.x, mid.y, w, h, BallRadius, lib.sqrt));
      var b := lib.normalize3(Project(previous.x, previous.y, w, h, BallRadius, lib.sqrt));
      FromVectors(a, b, timeScale * (5.0 / timeScale), lib)
    else IdentityQuat
  }

  /** `Math.max(0.1, 1 - sqrDist * 10)`: far-away anchors snap more gently. */
  function DistanceFactor(sqrDist: real): real
  {
    Max(0.1, 1.0 - sqrDist * 10.0)
  }

  /**
   * The snap rotation of a frame: the identity while the pointer is down or
   * no snap target is set; otherwise the rotation from the target direction
   * to the snap direction, slowed by 0.2 and by the distance factor.
   */
  function SnapRotation(down: bool, target: Option<Vec3>, snapDirection: Vec3, timeScale: real, lib: Routines): Quat
  {
    if down || target.None? then IdentityQuat
    else
      var factor := DistanceFactor(SquaredDistance3(target.value, snapDirection));
      FromVectors(target.value, snapDirection, timeScale * (0.2 * factor), lib)
  }

  /** The axis `getAxisAngle` starts from: reset to (0, 1, 0) when its squared length is below `EPSILON`. */
  function AxisSeed(axis: Vec3): Vec3
  {
    if SqrLen3(axis) < Epsilon then Vec3(0.0, 1.0, 0.0) else axis
  }

  /**
   * `angle / (2 * PI) / timeScale` as JavaScript computes it: `None` stands for
   * the NaN or Infinity a zero time scale produces.
   */
  function Velocity(angle: real, timeScale: real, pi: real): (v: Option<real>)
    requires pi > 0.0
    ensures v.None? <==> timeScale == 0.0
  {
    if timeScale == 0.0 then None else Some(angle / (2.0 * pi) / timeScale)
  }

  /** With the pointer up or no target, the snap rotation adds nothing to the pointer rotation. */
  lemma SnapIdentity(down: bool, target: Option<Vec3>, snapDirection: Vec3, timeScale: real, lib: Routines, q: Quat)
    requires down || target.None?
    ensures SnapRotation(down, target, snapDirection, timeScale, lib) == IdentityQuat
    ensures Multiply(SnapRotation(down, target, snapDirection, timeScale, lib), q) == q
  {
    MultiplyIdentityLeft(q);
  }

  /** The distance factor of any target lies in [0.1, 1]. */
  lemma DistanceFactorBounds(a: Vec3, b: Vec3)
    ensures 0.1 <= DistanceFactor(SquaredDistance3(a, b)) <= 1.0
  {
    var d := Sub3(a, b);
    assert d.x * d.x >= 0.0 && d.y * d.y >= 0.0 && d.z * d.z >= 0.0;
  }

  /** The amplification cancels the time scale: a moving drag always turns with angle factor 5. */
  lemma DragAngleFactor(pointerPos: Vec2, previous: Vec2, timeScale: real, w: real, h: real, lib: Routines)
    requires SqrtLaw(lib.sqrt) && Span(w, h) != 0.0
    requires Moves(pointerPos, previous, timeScale)
    ensures var mid := Follow(pointerPos, previous, timeScale);
            DragRotation(pointerPos, previous, timeScale, w, h, lib) ==
              FromVectors(lib.normalize3(Project(mid.x, mid.y, w, h, BallRadius, lib.sqrt)),
                          lib.normalize3(Project(previous.x, previous.y, w, h, BallRadius, lib.sqrt)), 5.0, lib)
  {
    MovesScale(pointerPos, previous, timeScale);
    assert timeScale * (5.0 / timeScale) == 5.0;
  }

  /**
   * The first frame: the menu's `run` starts from `#time = 0` and is first
   * called with `time = 0`, so `deltaTime` is 0 and the velocity is not a
   * number, whatever the angle.
   */
  lemma FirstFrameVelocity(angle: real, pi: real)
    requires pi > 0.0
    ensures Velocity(angle, TimeScale(Min(32.0, 0.0 - 0.0)), pi).None?
  {
    assert Min(32.0, 0.0 - 0.0) == 0.0;
  }

  /** The guard the other version of the controller applies: `(deltaTime + 0.01) / 16`. */
  function GuardedTimeScale(deltaTime: real): real
  {
    (deltaTime + 0.01) / 16.0
  }

  /** With the guard, every non-negative frame length gives a finite velocity. */
  lemma GuardedVelocityDefined(angle: real, deltaTime: real, pi: real)
    requires pi > 0.0 && deltaTime >= 0.0
    ensures GuardedTimeScale(deltaTime) > 0.0
    ensures Velocity(angle, GuardedTimeScale(deltaTime), pi).Some?
  {
  }

  class ArcballControl {
    var isPointerDown: bool
    var orientation: Quat
    var pointerRotation: Quat
    /** `None` when JavaScript holds NaN or Infinity here. */
    var rotationVelocity: Option<real>
    var rotationAxis: Vec3
    var snapDirection: Vec3
    var snapTargetDirection: Option<Vec3>
    var pointerPos: Vec2
    var previousPointerPos: Vec2
    var autoRotationSpeed: real
    /** How many times `update` has run `updateCallback`. */
    var callbacks: nat

    /** `new ArcballControl(canvas, cb)`: pointer up, identity rotations, snap direction (0, 0, 1), no target. */
    constructor ()
      ensures !isPointerDown && orientation == IdentityQuat && pointerRotation == IdentityQuat
      ensures rotationVelocity == Some(0.0) && rotationAxis == Zero3
      ensures snapDirection == Vec3(0.0, 0.0, 1.0) && snapTargetDirection.None?
      ensures pointerPos == Zero2 && previousPointerPos == Zero2 && autoRotationSpeed == 0.0
      ensures callbacks == 0
    {
      isPointerDown := false;
      orientation := IdentityQuat;
      pointerRotation := IdentityQuat;
      rotationVelocity := Some(0.0);
      rotationAxis := Zero3;
      snapDirection := Vec3(0.0, 0.0, 1.0);
      snapTargetDirection := None;
      pointerPos := Zero2;
      previousPointerPos := Zero2;
      autoRotationSpeed := 0.0;
      callbacks := 0;
    }

    /** `pointerdown`: both positions at the event point, pointer down. */
    method PointerDown(x: real, y: real)
      modifies this`pointerPos, this`previousPointerPos, this`isPointerDown
      ensures pointerPos == Vec2(x, y) && previousPointerPos == pointerPos && isPointerDown
    {
      pointerPos := Vec2(x, y);
      previousPointerPos := pointerPos;
      isPointerDown := true;
    }

    /** `pointerup` and `pointerleave`: the pointer is up, nothing else changes. */
    method PointerRelease()
      modifies this`isPointerDown
      ensures !isPointerDown
    {
      isPointerDown := false;
    }

    /** `pointermove`: the pointer position follows the event only while the pointer is down. */
    method PointerMove(x: real, y: real)
      modifies this`pointerPos
      ensures pointerPos == if isPointerDown then Vec2(x, y) else old(pointerPos)
    {
      if isPointerDown {
        pointerPos := Vec2(x, y);
      }
    }

    /**
     * `update(deltaTime)` on a `w` by `h` canvas: the pointer rotation of the
     * frame, the snap rotation, the new orientation, the axis and velocity of
     * their combination, and one run of the callback.
     */
    method Update(deltaTime: real, w: real, h: real, lib: Routines)
      requires SqrtLaw(lib.sqrt) && Span(w, h) != 0.0 && lib.pi > 0.0
      modifies this`pointerRotation, this`previousPointerPos, this`orientation
      modifies this`rotationAxis, this`rotationVelocity, this`callbacks
      ensures var ts := TimeScale(deltaTime);
              previousPointerPos ==
                if isPointerDown && Moves(pointerPos, old(previousPointerPos), ts)
                then Follow(pointerPos, old(previousPointerPos), ts) else old(previousPointerPos)
      ensures var ts := TimeScale(deltaTime);
              pointerRotation ==
                if isPointerDown then DragRotation(pointerPos, old(previousPointerPos), ts, w, h, lib)
                else lib.slerp(old(pointerRotation), IdentityQuat, 0.1 * ts)
      ensures var ts := TimeScale(deltaTime);
              var combined := Multiply(SnapRotation(isPointerDown, snapTargetDirection, snapDirection, ts, lib), pointerRotation);
              var turn := lib.getAxisAngle(AxisSeed(old(rotationAxis)), combined);
              orientation == lib.normalizeQuat(Multiply(combined, old(orientation))) &&
              rotationAxis == lib.normalize3(turn.axis) &&
              rotationVelocity == Velocity(turn.angle, ts, lib.pi)
      ensures callbacks == old(callbacks) + 1
    {
      var timeScale := deltaTime / 16.0;
      TurnPointer(timeScale, w, h, lib);
      var snapRotation := SnapRotation(isPointerDown, snapTargetDirection, snapDirection, timeScale, lib);
      var combined := Multiply(snapRotation, pointerRotation);
      Report(combined, timeScale, lib);
      callbacks := callbacks + 1;
    }

    /**
     * The second half of `update`: the combined rotation turns the
     * orientation, and its axis (seeded by `AxisSeed`) and angle per time
     * scale become the reported axis and velocity.
     */
    method Report(combined: Quat, timeScale: real, lib: Routines)
      requires lib.pi > 0.0
      modifies this`orientation, this`rotationAxis, this`rotationVelocity
      ensures orientation == lib.normalizeQuat(Multiply(combined, old(orientation)))
      ensures var turn := lib.getAxisAngle(AxisSeed(old(rotationAxis)), combined);
              rotationAxis == lib.normalize3(turn.axis) && rotationVelocity == Velocity(turn.angle, timeScale, lib.pi)
    {
      orientation := lib.normalizeQuat(Multiply(combined, orientation));
      if SqrLen3(rotationAxis) < Epsilon {
        rotationAxis := Vec3(0.0, 1.0, 0.0);
      }
      var turn := lib.getAxisAngle(rotationAxis, combined);
      rotationAxis := turn.axis;
      rotationVelocity := if timeScale == 0.0 then None else Some(turn.angle / (2.0 * lib.pi) / timeScale);
      rotationAxis := lib.normalize3(rotationAxis);
    }

    /**
     * The pointer half of `update`: with the pointer down, either a drag
     * rotation toward the smoothed position (which becomes the previous
     * position) or, for a still pointer, the identity; with the pointer up,
     * the pointer rotation slerped a tenth of the time scale toward the
     * identity.
     */
    method TurnPointer(timeScale: real, w: real, h: real, lib: Routines)
      requires SqrtLaw(lib.sqrt) && Span(w, h) != 0.0
      modifies this`pointerRotation, this`previousPointerPos
      ensures previousPointerPos ==
                if isPointerDown && Moves(pointerPos, old(previousPointerPos), timeScale)
                then Follow(pointerPos, old(previousPointerPos), timeScale) else old(previousPointerPos)
      ensures pointerRotation ==
                if isPointerDown then DragRotation(pointerPos, old(previousPointerPos), timeScale, w, h, lib)
                else lib.slerp(old(pointerRotation), IdentityQuat, 0.1 * timeScale)
    {
      if isPointerDown {
        var angleFactor := timeScale;
        var intensity := 0.3 * timeScale;
        var mid := Scale2(Sub2(pointerPos, previousPointerPos), intensity);
        if SqrLen2(mid) > Epsilon {
          MovesScale(pointerPos, previousPointerPos, timeScale);
          mid := Add2(previousPointerPos, mid);
          var p := Project(mid.x, mid.y, w, h, BallRadius, lib.sqrt);
          var q := Project(previousPointerPos.x, previousPointerPos.y, w, h, BallRadius, lib.sqrt);
          var a := lib.normalize3(p);
          var b := lib.normalize3(q);
          previousPointerPos := mid;
          angleFactor := angleFactor * (5.0 / timeScale);
          pointerRotation := FromVectors(a, b, angleFactor, lib);
        } else {
          pointerRotation := IdentityQuat;
        }
      } else {
        pointerRotation := lib.slerp(pointerRotation, IdentityQuat, 0.1 * timeScale);
      }
    }
  }
}
