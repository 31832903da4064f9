/**
 * The two pieces of trackball geometry both `ArcballControl` versions share:
 * `#project`, which maps a pointer position on the canvas to a point on a
 * sphere of radius `r` (or, far from the centre, on a hyperbolic sheet), and
 * `quatFromVectors`, the rotation taking one direction to another.
 */
module Trackball {
  import opened GlMath

  /** `Math.max(w, h) - 1`: the divisor that maps pixels to [-1, 1]. */
  function Span(w: real, h: real): real
  {
    Max(w, h) - 1.0
  }

  /** The pointer coordinate mapped to [-1, 1]: `(2 * p - size - 1) / s`. */
  function Canonical(p: real, size: real, s: real): real
    requires s != 0.0
  {
    (2.0 * p - size - 1.0) / s
  }

  /**
   * The height over the plane: on the sphere `sqrt(r^2 - d)` while
   * `d <= r^2 / 2`, else on the hyperbola `(r^2 / 2) / sqrt(d)`, where `d` is
   * the squared distance from the centre.
   */
  function Height(d: real, r: real, sqrt: real -> real): real
    requires SqrtLaw(sqrt) && d >= 0.0
  {
    var rSq := r * r;
    if d <= rSq / 2.0 then sqrt(rSq - d)
    else
      SqrtPositive(sqrt, d);
      (rSq / 2.0) / sqrt(d)
  }

  /** `#project(pos)` on a `w` by `h` canvas with arcball radius `r`: (-x, y, z). */
  function Project(px: real, py: real, w: real, h: real, r: real, sqrt: real -> real): Vec3
    requires SqrtLaw(sqrt) && Span(w, h) != 0.0
  {
    var s := Span(w, h);
    var x := Canonical(px, w, s);
    var y := Canonical(py, h, s);
    Vec3(-x, y, Height(x * x + y * y, r, sqrt))
  }

  /** The pixel at ((w + 1) / 2, (h + 1) / 2) projects to the top of the ball, (0, 0, r). */
  lemma ProjectCentre(w: real, h: real, r: real, sqrt: real -> real)
    requires SqrtLaw(sqrt) && Span(w, h) != 0.0 && r >= 0.0
    ensures Project((w + 1.0) / 2.0, (h + 1.0) / 2.0, w, h, r, sqrt) == Vec3(0.0, 0.0, r)
  {
    var s := Span(w, h);
    assert Canonical((w + 1.0) / 2.0, w, s) == 0.0;
    assert Canonical((h + 1.0) / 2.0, h, s) == 0.0;
    SqrtUnique(sqrt, r * r - 0.0, r);
  }

  /** With a positive radius the height is positive on both branches. */
  lemma HeightPositive(d: real, r: real, sqrt: real -> real)
    requires SqrtLaw(sqrt) && d >= 0.0 && r > 0.0
    ensures Height(d, r, sqrt) > 0.0
  {
    var rSq := r * r;
    SquareLess(0.0, r);
    if d <= rSq / 2.0 {
      SqrtPositive(sqrt, rSq - d);
    } else {
      SqrtPositive(sqrt, d);
    }
  }

  /** With a positive radius, the projected point always lies strictly above the canvas plane. */
  lemma ProjectAbove(px: real, py: real, w: real, h: real, r: real, sqrt: real -> real)
    requires SqrtLaw(sqrt) && Span(w, h) != 0.0 && r > 0.0
    ensures Project(px, py, w, h, r, sqrt).z > 0.0
  {
    var s := Span(w, h);
    var x, y := Canonical(px, w, s), Canonical(py, h, s);
    HeightPositive(x * x + y * y, r, sqrt);
  }

  /** Reflecting a pixel coordinate through the centre of its axis negates its canonical coordinate. */
  lemma CanonicalMirror(p: real, size: real, s: real)
    requires s != 0.0
    ensures Canonical(size + 1.0 - p, size, s) == -Canonical(p, size, s)
  {
    var u := 2.0 * p - size - 1.0;
    assert 2.0 * (size + 1.0 - p) - size - 1.0 == -u;
    assert (-u) / s == -(u / s);
  }

  /**
   * The pointer's x is mirrored and its y kept: reflecting the pointer through
   * the canvas centre horizontally flips the sign of the projected x and
   * leaves y and the height alone.
   */
  lemma ProjectMirrorsX(px: real, py: real, w: real, h: real, r: real, sqrt: real -> real)
    requires SqrtLaw(sqrt) && Span(w, h) != 0.0
    ensures var p := Project(px, py, w, h, r, sqrt);
            var q := Project(w + 1.0 - px, py, w, h, r, sqrt);
            q.x == -p.x && q.y == p.y && q.z == p.z
  {
    var s := Span(w, h);
    var x := Canonical(px, w, s);
    CanonicalMirror(px, w, s);
    assert (-x) * (-x) == x * x;
  }

  /** The sphere and the hyperbola meet where the squared distance is r^2 / 2: the height is continuous there. */
  lemma BranchesMeet(r: real, sqrt: real -> real)
    requires SqrtLaw(sqrt) && r > 0.0
    ensures var m := r * r / 2.0; sqrt(m) > 0.0 && sqrt(r * r - m) == m / sqrt(m)
  {
    var m := r * r / 2.0;
    SquareLess(0.0, r);
    assert r * r - m == m;
    SqrtPositive(sqrt, m);
    var s := sqrt(m);
    assert s * s == m;
    assert m / s == s;
  }

  /** The clamped dot product handed to `Math.acos`. */
  function CosBetween(a: Vec3, b: Vec3): (c: real)
    ensures -1.0 <= c <= 1.0
  {
    ClampUnit(Dot3(a, b))
  }

  /** The normalized rotation axis `cross(a, b)` of `quatFromVectors`. */
  function TurnAxis(a: Vec3, b: Vec3, lib: Routines): Vec3
  {
    lib.normalize3(Cross(a, b))
  }

  /** The rotation angle `acos(d) * angleFactor` of `quatFromVectors`. */
  function TurnAngle(a: Vec3, b: Vec3, angleFactor: real, lib: Routines): real
  {
    lib.acos(CosBetween(a, b)) * angleFactor
  }

  /** `quatFromVectors(a, b, angleFactor)`: `quat.setAxisAngle` of that axis and angle. */
  function FromVectors(a: Vec3, b: Vec3, angleFactor: real, lib: Routines): Quat
  {
    lib.setAxisAngle(TurnAxis(a, b, lib), TurnAngle(a, b, angleFactor, lib))
  }
}
