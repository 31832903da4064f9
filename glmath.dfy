/**
 * The small vector and quaternion vocabulary of gl-matrix (vec2, vec3, quat),
 * over exact reals. The operations whose gl-matrix definition is plain
 * arithmetic (add, sub, scale, dot, cross, multiply, conjugate) are written
 * out; the ones built on `Math.sqrt`, `Math.acos`, `Math.sin`, `Math.cos`
 * (normalize, slerp, setAxisAngle, getAxisAngle, transformQuat) are passed
 * around as uninterpreted functions in a `Routines` value, and a lemma that
 * needs one of their laws asks for it explicitly.
 */
module GlMath {

  datatype Option<T> = None | Some(value: T)

  datatype Vec2 = Vec2(x: real, y: real)
  datatype Vec3 = Vec3(x: real, y: real, z: real)
  /** gl-matrix stores a quaternion as [x, y, z, w]; `quat.create()` is (0, 0, 0, 1). */
  datatype Quat = Quat(x: real, y: real, z: real, w: real)
  /** What `quat.getAxisAngle(outAxis, q)` leaves behind: the axis it wrote and the angle it returned. */
  datatype AxisAngle = AxisAngle(axis: Vec3, angle: real)

  /** `Math.PI` and the floating-point routines of `Math` and gl-matrix that the model does not interpret. */
  datatype Routines = Routines(
    pi: real,
    sqrt: real -> real,
    acos: real -> real,
    cos: real -> real,
    sin: real -> real,
    normalize3: Vec3 -> Vec3,
    normalizeQuat: Quat -> Quat,
    slerp: (Quat, Quat, real) -> Quat,
    setAxisAngle: (Vec3, real) -> Quat,
    getAxisAngle: (Vec3, Quat) -> AxisAngle,
    transformQuat: (Vec3, Quat) -> Vec3)

  /** The one law of `Math.sqrt` the proofs rely on. */
  ghost predicate SqrtLaw(sqrt: real -> real)
  {
    forall v :: 0.0 <= v ==> 0.0 <= sqrt(v) && sqrt(v) * sqrt(v) == v
  }

  const Zero2 := Vec2(0.0, 0.0)
  const Zero3 := Vec3(0.0, 0.0, 0.0)
  const IdentityQuat := Quat(0.0, 0.0, 0.0, 1.0)

  function Add2(a: Vec2, b: Vec2): Vec2 { Vec2(a.x + b.x, a.y + b.y) }
  function Sub2(a: Vec2, b: Vec2): Vec2 { Vec2(a.x - b.x, a.y - b.y) }
  function Scale2(a: Vec2, k: real): Vec2 { Vec2(a.x * k, a.y * k) }
  function SqrLen2(a: Vec2): real { a.x * a.x + a.y * a.y }

  function Add3(a: Vec3, b: Vec3): Vec3 { Vec3(a.x + b.x, a.y + b.y, a.z + b.z) }
  function Sub3(a: Vec3, b: Vec3): Vec3 { Vec3(a.x - b.x, a.y - b.y, a.z - b.z) }
  function Scale3(a: Vec3, k: real): Vec3 { Vec3(a.x * k, a.y * k, a.z * k) }
  function Dot3(a: Vec3, b: Vec3): real { a.x * b.x + a.y * b.y + a.z * b.z }
  function SqrLen3(a: Vec3): real { Dot3(a, a) }
  function SquaredDistance3(a: Vec3, b: Vec3): real { SqrLen3(Sub3(a, b)) }
  function Cross(a: Vec3, b: Vec3): Vec3
  {
    Vec3(a.y * b.z - a.z * b.y, a.z * b.x - a.x * b.z, a.x * b.y - a.y * b.x)
  }

  /** `quat.multiply(out, a, b)`: the Hamilton product a * b. */
  function Multiply(a: Quat, b: Quat): Quat
  {
    Quat(a.x * b.w + a.w * b.x + a.y * b.z - a.z * b.y,
         a.y * b.w + a.w * b.y + a.z * b.x - a.x * b.z,
         a.z * b.w + a.w * b.z + a.x * b.y - a.y * b.x,
         a.w * b.w - a.x * b.x - a.y * b.y - a.z * b.z)
  }

  function Conjugate(q: Quat): Quat { Quat(-q.x, -q.y, -q.z, q.w) }

  function Min(a: real, b: real): (r: real)
    ensures r <= a && r <= b && (r == a || r == b)
  {
    if a <= b then a else b
  }

  function Max(a: real, b: real): (r: real)
    ensures r >= a && r >= b && (r == a || r == b)
  {
    if a >= b then a else b
  }

  function Abs(a: real): (r: real)
    ensures r >= 0.0 && (r == a || r == -a)
  {
    if a < 0.0 then -a else a
  }

  /** `Math.max(-1, Math.min(1, d))`, the guard in front of every `Math.acos`. */
  function ClampUnit(d: real): (r: real)
    ensures -1.0 <= r <= 1.0
    ensures -1.0 <= d <= 1.0 ==> r == d
  {
    Max(-1.0, Min(1.0, d))
  }

  /** `Math.ceil` on a real. */
  function Ceil(v: real): (n: int)
    ensures v <= n as real < v + 1.0
  {
    -((-v).Floor)
  }

  /** The identity quaternion is neutral on the left of `quat.multiply`. */
  lemma MultiplyIdentityLeft(q: Quat)
    ensures Multiply(IdentityQuat, q) == q
  {
  }

  /** Squaring is strictly increasing on the non-negative reals. */
  lemma SquareLess(a: real, b: real)
    requires 0.0 <= a < b
    ensures a * a < b * b
  {
    var p, q, r := a * a, a * b, b * b;
    assert p <= q by { assert q - p == a * (b - a); }
    assert q < r by { assert r - q == b * (b - a); }
  }

  /** Arithmetic helper (nonlinear step the solver needs named): a product of two non-negative numbers is non-negative. */
  lemma ProductNonNegative(x: real, y: real)
    requires 0.0 <= x && 0.0 <= y
    ensures 0.0 <= x * y
  {
  }

  /** Arithmetic helper (nonlinear step the solver needs named): a product with a positive right factor is positive only if its left factor is. */
  lemma PositiveFactor(x: real, y: real)
    requires 0.0 < y && 0.0 < x * y
    ensures 0.0 < x
  {
  }

  /** Under the law of `Math.sqrt`, a non-negative square root is unique. */
  lemma SqrtUnique(sqrt: real -> real, v: real, s: real)
    requires SqrtLaw(sqrt)
    requires 0.0 <= s && s * s == v
    ensures sqrt(v) == s
  {
    var t := sqrt(v);
    assert 0.0 <= t && t * t == v;
    if t < s {
      SquareLess(t, s);
    } else if s < t {
      SquareLess(s, t);
    }
  }

  /** `Math.sqrt` of a positive number is positive. */
  lemma SqrtPositive(sqrt: real -> real, v: real)
    requires SqrtLaw(sqrt)
    requires 0.0 < v
    ensures 0.0 < sqrt(v)
  {
    assert 0.0 <= sqrt(v) && sqrt(v) * sqrt(v) == v;
  }

  /** Easing `u` toward `v` by `1 / d` of the gap, with `d >= 1`, lands between `u` and `v`. */
  lemma Between(u: real, v: real, d: real)
    requires d >= 1.0
    ensures Min(u, v) <= u + (v - u) / d <= Max(u, v)
  {
    var t := (v - u) / d;
    assert t * d == v - u;
    if v >= u {
      assert 0.0 <= t <= v - u;
    } else {
      assert v - u <= t <= 0.0;
    }
  }
}
