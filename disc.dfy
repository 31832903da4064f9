/**
 * The vertex and face lists `DiscGeometry` builds: a centre vertex and
 * `steps` rim vertices on a circle in the z = 0 plane, joined by a fan of
 * `steps` triangles around the centre.
 */
module Disc {
  import opened GlMath
  import opened Topology

  /** `Math.max(4, steps)`: at least four rim vertices. */
  function Steps(steps: int): (n: nat)
    ensures n >= 4 && n >= steps
    ensures steps >= 4 ==> n == steps
    ensures steps < 4 ==> n == 4
  {
    if steps < 4 then 4 else steps
  }

  /** The centre vertex: the origin, with uv (0.5, 0.5). */
  const Centre := Vertex(Zero3, Zero3, Vec2(0.5, 0.5))

  /** `alpha = (2 * Math.PI) / steps`, the angle between neighbouring rim vertices. */
  function Alpha(n: nat, pi: real): real
    requires n > 0
  {
    (2.0 * pi) / (n as real)
  }

  /** The rim vertex over the unit-circle point (x, y): position `radius * (x, y, 0)`, uv `(x, y) * 0.5 + 0.5`. */
  function RimPoint(x: real, y: real, radius: real): Vertex
  {
    Vertex(Vec3(radius * x, radius * y, 0.0), Zero3, Vec2(x * 0.5 + 0.5, y * 0.5 + 0.5))
  }

  /** `x = Math.cos(alpha * i)` for rim vertex `i` (0-based). */
  function RimX(i: nat, n: nat, lib: Routines): real
    requires n > 0
  {
    lib.cos(Alpha(n, lib.pi) * (i as real))
  }

  /** `y = Math.sin(alpha * i)` for rim vertex `i` (0-based). */
  function RimY(i: nat, n: nat, lib: Routines): real
    requires n > 0
  {
    lib.sin(Alpha(n, lib.pi) * (i as real))
  }

  /** Rim vertex `i` (0-based): the one over `(cos, sin)` of `alpha * i`, with `alpha = 2 * PI / n`. */
  function Rim(i: nat, n: nat, radius: real, lib: Routines): Vertex
    requires n > 0
  {
    RimPoint(RimX(i, n, lib), RimY(i, n, lib), radius)
  }

  /** The vertex list: the centre at index 0, then rim vertices 1 .. n. */
  function Vertices(n: nat, radius: real, lib: Routines): seq<Vertex>
    requires n > 0
  {
    [Centre] + seq(n, i requires 0 <= i < n => Rim(i, n, radius, lib))
  }

  /** Fan face `k`: (0, k+1, k+2) for the first n-1 faces, and (0, n, 1) closing the fan. */
  function FanFace(k: nat, n: nat): Face
  {
    if k + 1 < n then Face(0, k + 1, k + 2) else Face(0, n, 1)
  }

  function Faces(n: nat): seq<Face>
  {
    seq(n, k requires 0 <= k < n => FanFace(k, n))
  }

  /**
   * The vertex list is built one rim vertex at a time: vertex `i + 1` is the
   * one made from the cosine and sine of `alpha * i`.
   */
  lemma VerticesPrefix(n: nat, radius: real, lib: Routines, i: nat)
    requires 0 < n && i < n
    ensures Vertices(n, radius, lib)[..i + 2] ==
            Vertices(n, radius, lib)[..i + 1] + [RimPoint(RimX(i, n, lib), RimY(i, n, lib), radius)]
  {
    var vs := Vertices(n, radius, lib);
    assert vs[i + 1] == Rim(i, n, radius, lib);
    assert vs[..i + 2] == vs[..i + 1] + [vs[i + 1]];
  }

  /** The face list is built one fan face at a time. */
  lemma FacesPrefix(n: nat, k: nat)
    requires k < n
    ensures Faces(n)[..k + 1] == Faces(n)[..k] + [if k + 1 < n then Face(0, k + 1, k + 2) else Face(0, n, 1)]
  {
    assert Faces(n)[k] == FanFace(k, n);
  }

  /**
   * The disc has n + 1 vertices: the centre (0, 0, 0) with uv (0.5, 0.5) at
   * index 0, then the rim; every vertex lies in the z = 0 plane and has a zero
   * normal.
   */
  lemma VertexLayout(n: nat, radius: real, lib: Routines)
    requires n > 0
    ensures var vs := Vertices(n, radius, lib);
            |vs| == n + 1 && vs[0].position == Zero3 && vs[0].uv == Vec2(0.5, 0.5) &&
            forall i :: 0 <= i < |vs| ==> vs[i].position.z == 0.0 && vs[i].normal == Zero3
  {
  }

  /**
   * The disc has exactly n faces, every one of them has the centre 0 as a
   * corner, and every index lies in [0, n].
   */
  lemma FanLayout(n: nat)
    requires n >= 2
    ensures |Faces(n)| == n && FacesInRange(n + 1, Faces(n))
    ensures forall k :: 0 <= k < n ==> Faces(n)[k].a == 0
    ensures forall k :: 0 <= k < n ==> k in Incident(Faces(n), 0)
  {
  }

  /** Every rim vertex lies in exactly two faces: the one before it and the one after it. */
  lemma RimInTwoFaces(n: nat, v: nat)
    requires n >= 4 && 1 <= v <= n
    ensures Incident(Faces(n), v) == if v == 1 then {0, n - 1} else {v - 2, v - 1}
    ensures |Incident(Faces(n), v)| == 2
  {
    var fs := Faces(n);
    var expected := if v == 1 then {0, n - 1} else {v - 2, v - 1};
    forall k | 0 <= k < n
      ensures k in Incident(fs, v) <==> k in expected
    {
      assert fs[k] == FanFace(k, n);
    }
    assert Incident(fs, v) == expected;
  }
}
