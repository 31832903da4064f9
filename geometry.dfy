/**
 * `Geometry`: a vertex list and a face list that grow by appending, the
 * midpoint cache of `getMidPoint`, geodesic subdivision, `spherize`, and the
 * flat arrays the getters hand to WebGL. The class updates its two lists in
 * place; each method is proved equal to the functions of `Topology`, `Disc`
 * and `Icosahedron`, where the laws of those functions are proved.
 */
module Mesh {
  import opened GlMath
  import opened Topology
  import Ico = Icosahedron
  import D = Disc

  // ---------------------------------------------------------------------------
  // Flat argument lists and data arrays

  /** The vertices `addVertex(x0, y0, z0, x1, ...)` creates: one per argument triple, in order. */
  function VerticesFrom(args: seq<real>): (vs: seq<Vertex>)
    requires |args| % 3 == 0
    ensures |vs| == |args| / 3
    decreases |args|
  {
    if args == [] then []
    else
      var n := |args| - 3;
      VerticesFrom(args[..n]) + [NewVertex(Vec3(args[n], args[n + 1], args[n + 2]))]
  }

  /** The faces `addFace(a0, b0, c0, a1, ...)` creates: one per argument triple, in order. */
  function FacesFrom(args: seq<nat>): (fs: seq<Face>)
    requires |args| % 3 == 0
    ensures |fs| == |args| / 3
    decreases |args|
  {
    if args == [] then []
    else
      var n := |args| - 3;
      FacesFrom(args[..n]) + [Face(args[n], args[n + 1], args[n + 2])]
  }

  /** A single triple makes a single face. */
  lemma FacesFromTriple(a: nat, b: nat, c: nat)
    ensures FacesFrom([a, b, c]) == [Face(a, b, c)]
  {
    assert [a, b, c][..0] == [];
  }

  /** `vertexData`: the position of every vertex, three numbers each, in vertex order. */
  function VertexData(vs: seq<Vertex>): (r: seq<real>)
    ensures |r| == 3 * |vs|
    decreases |vs|
  {
    if vs == [] then []
    else
      var p := vs[|vs| - 1].position;
      VertexData(vs[..|vs| - 1]) + [p.x, p.y, p.z]
  }

  /** `normalData`: the normal of every vertex, three numbers each, in vertex order. */
  function NormalData(vs: seq<Vertex>): (r: seq<real>)
    ensures |r| == 3 * |vs|
    decreases |vs|
  {
    if vs == [] then []
    else
      var n := vs[|vs| - 1].normal;
      NormalData(vs[..|vs| - 1]) + [n.x, n.y, n.z]
  }

  /** `uvData`: the uv of every vertex, two numbers each, in vertex order. */
  function UvData(vs: seq<Vertex>): (r: seq<real>)
    ensures |r| == 2 * |vs|
    decreases |vs|
  {
    if vs == [] then []
    else
      var uv := vs[|vs| - 1].uv;
      UvData(vs[..|vs| - 1]) + [uv.x, uv.y]
  }

  /** The corner indices a, b, c of every face, in face order. */
  function IndexList(fs: seq<Face>): (r: seq<nat>)
    ensures |r| == 3 * |fs|
    decreases |fs|
  {
    if fs == [] then []
    else
      var f := fs[|fs| - 1];
      IndexList(fs[..|fs| - 1]) + [f.a, f.b, f.c]
  }

  /** The largest index a `Uint16Array` slot holds, plus one. */
  const Uint16Range: nat := 65536

  /** `indexData`: `IndexList` stored in a `Uint16Array`, which keeps each index modulo 2^16. */
  function IndexData(fs: seq<Face>): (r: seq<int>)
    ensures |r| == 3 * |fs|
    decreases |fs|
  {
    if fs == [] then []
    else
      var f := fs[|fs| - 1];
      IndexData(fs[..|fs| - 1]) + [f.a % Uint16Range, f.b % Uint16Range, f.c % Uint16Range]
  }

  /** `vertexData` returns exactly the coordinates `addVertex` was given. */
  lemma {:induction false} VertexDataRoundTrip(args: seq<real>)
    requires |args| % 3 == 0
    ensures VertexData(VerticesFrom(args)) == args
    decreases |args|
  {
    if args != [] {
      var n := |args| - 3;
      VertexDataRoundTrip(args[..n]);
      var vs := VerticesFrom(args);
      assert vs[..|vs| - 1] == VerticesFrom(args[..n]);
      assert args == args[..n] + [args[n], args[n + 1], args[n + 2]];
    }
  }

  /** Re-adding the coordinates of fresh vertices rebuilds the same vertices. */
  lemma {:induction false} VerticesFromRoundTrip(vs: seq<Vertex>)
    requires forall k :: 0 <= k < |vs| ==> vs[k] == NewVertex(vs[k].position)
    ensures VerticesFrom(VertexData(vs)) == vs
    decreases |vs|
  {
    if vs != [] {
      var init := vs[..|vs| - 1];
      VerticesFromRoundTrip(init);
      var data := VertexData(vs);
      var last := vs[|vs| - 1];
      assert data == VertexData(init) + [last.position.x, last.position.y, last.position.z];
      assert data[..|data| - 3] == VertexData(init);
      assert NewVertex(last.position) == last;
      assert vs == init + [last];
    }
  }

  /** Re-adding the index list of a face list rebuilds the same faces. */
  lemma {:induction false} FacesFromRoundTrip(fs: seq<Face>)
    ensures FacesFrom(IndexList(fs)) == fs
    decreases |fs|
  {
    if fs != [] {
      var init := fs[..|fs| - 1];
      FacesFromRoundTrip(init);
      var data := IndexList(fs);
      assert data[..|data| - 3] == IndexList(init);
    }
  }

  /** The index list of the faces `addFace` creates is its argument list. */
  lemma {:induction false} IndexListRoundTrip(args: seq<nat>)
    requires |args| % 3 == 0
    ensures IndexList(FacesFrom(args)) == args
    decreases |args|
  {
    if args != [] {
      var n := |args| - 3;
      IndexListRoundTrip(args[..n]);
      var fs := FacesFrom(args);
      assert fs[..|fs| - 1] == FacesFrom(args[..n]);
      assert args == args[..n] + [args[n], args[n + 1], args[n + 2]];
    }
  }

  /**
   * `indexData` lists a, b, c of face `k` at positions 3k, 3k+1, 3k+2, each
   * cut to 16 bits.
   */
  lemma {:induction false} IndexDataAt(fs: seq<Face>, k: nat)
    requires k < |fs|
    ensures var r := IndexData(fs);
            r[3 * k] == fs[k].a % Uint16Range && r[3 * k + 1] == fs[k].b % Uint16Range &&
            r[3 * k + 2] == fs[k].c % Uint16Range
    decreases |fs|
  {
    var init := fs[..|fs| - 1];
    if k < |fs| - 1 {
      IndexDataAt(init, k);
      assert fs[k] == init[k];
    }
  }

  /** While every index fits in 16 bits, `indexData` is the plain index list: nothing is lost. */
  lemma {:induction false} IndexDataLossless(fs: seq<Face>)
    requires FacesInRange(Uint16Range, fs)
    ensures IndexData(fs) == IndexList(fs)
    decreases |fs|
  {
    if fs != [] {
      IndexDataLossless(fs[..|fs| - 1]);
    }
  }

  // ---------------------------------------------------------------------------
  // spherize

  /** Every vertex after `spherize(radius)`: normal = normalize(position), position = normal * radius. */
  function Spherized(vs: seq<Vertex>, radius: real, normalize: Vec3 -> Vec3): (r: seq<Vertex>)
    ensures |r| == |vs|
  {
    seq(|vs|, k requires 0 <= k < |vs| =>
      var n := normalize(vs[k].position);
      Vertex(Scale3(n, radius), n, vs[k].uv))
  }

  /**
   * The laws of an exact `vec3.normalize` that `spherize` relies on: the
   * direction of a positive multiple of a vector is the direction of the
   * vector, and a direction is its own direction.
   */
  ghost predicate NormalizeLaws(normalize: Vec3 -> Vec3)
  {
    (forall p: Vec3, k: real {:trigger Scale3(p, k)} :: k > 0.0 ==> normalize(Scale3(p, k)) == normalize(p)) &&
    (forall p: Vec3 :: normalize(normalize(p)) == normalize(p))
  }

  /**
   * `spherize` keeps the vertex count and every uv, points each normal along the
   * old position, and puts each vertex at `radius` along its normal.
   */
  lemma SpherizedShape(vs: seq<Vertex>, radius: real, normalize: Vec3 -> Vec3)
    ensures var r := Spherized(vs, radius, normalize);
            |r| == |vs| &&
            forall k :: 0 <= k < |vs| ==>
              r[k].normal == normalize(vs[k].position) && r[k].position == Scale3(r[k].normal, radius) &&
              r[k].uv == vs[k].uv
  {
  }

  /** With a positive radius, spherizing twice is spherizing once. */
  lemma SpherizeIdempotent(vs: seq<Vertex>, radius: real, normalize: Vec3 -> Vec3)
    requires NormalizeLaws(normalize) && radius > 0.0
    ensures Spherized(Spherized(vs, radius, normalize), radius, normalize) == Spherized(vs, radius, normalize)
  {
    var once := Spherized(vs, radius, normalize);
    var twice := Spherized(once, radius, normalize);
    forall k | 0 <= k < |vs| ensures twice[k] == once[k] {
      var n := normalize(vs[k].position);
      assert once[k].position == Scale3(n, radius);
      assert normalize(Scale3(n, radius)) == normalize(n) == n;
    }
  }

  // ---------------------------------------------------------------------------
  // The class

  class Geometry {
    var vertices: seq<Vertex>
    var faces: seq<Face>

    /** `new Geometry()`: no vertices and no faces. */
    constructor ()
      ensures vertices == [] && faces == []
    {
      vertices := [];
      faces := [];
    }

    /** `addVertex(...)`: one new vertex per argument triple, appended in order. */
    method AddVertex(args: seq<real>)
      requires |args| % 3 == 0
      modifies this`vertices
      ensures vertices == old(vertices) + VerticesFrom(args)
    {
      var i := 0;
      while i < |args|
        invariant 0 <= i <= |args| && i % 3 == 0
        invariant vertices == old(vertices) + VerticesFrom(args[..i])
      {
        vertices := vertices + [NewVertex(Vec3(args[i], args[i + 1], args[i + 2]))];
        assert args[..i + 3][..i] == args[..i];
        i := i + 3;
      }
      assert args[..i] == args;
    }

    /** `addFace(...)`: one new face per argument triple, appended in order. */
    method AddFace(args: seq<nat>)
      requires |args| % 3 == 0
      modifies this`faces
      ensures faces == old(faces) + FacesFrom(args)
    {
      var i := 0;
      while i < |args|
        invariant 0 <= i <= |args| && i % 3 == 0
        invariant faces == old(faces) + FacesFrom(args[..i])
      {
        faces := faces + [Face(args[i], args[i + 1], args[i + 2])];
        assert args[..i + 3][..i] == args[..i];
        i := i + 3;
      }
      assert args[..i] == args;
    }

    /** `lastVertex.uv[0] = u; lastVertex.uv[1] = v`: rewrites the uv of the last vertex only. */
    method SetLastUv(uv: Vec2)
      requires vertices != []
      modifies this`vertices
      ensures |vertices| == |old(vertices)|
      ensures vertices[..|vertices| - 1] == old(vertices)[..|vertices| - 1]
      ensures vertices[|vertices| - 1] == old(vertices)[|vertices| - 1].(uv := uv)
    {
      var last := |vertices| - 1;
      vertices := vertices[last := vertices[last].(uv := uv)];
    }

    /** `addVertex(x, y, z)` followed by writing `lastVertex.uv`, as `DiscGeometry` does for each of its vertices. */
    method AddVertexWithUv(p: Vec3, uv: Vec2)
      modifies this`vertices
      ensures vertices == old(vertices) + [Vertex(p, Zero3, uv)]
    {
      AddVertex([p.x, p.y, p.z]);
      SetLastUv(uv);
    }

    /**
     * `getMidPoint(i, j, cache)`: the index of the vertex midway along edge
     * (i, j), appended and recorded in the cache on first use.
     */
    method GetMidPoint(i: nat, j: nat, cache: Cache) returns (index: nat, updated: Cache)
      requires i < |vertices| && j < |vertices| && CacheInRange(|vertices|, cache)
      modifies this`vertices
      ensures MidResult(vertices, index, updated) == MidPoint(old(vertices), i, j, cache)
    {
      var key := Key(i, j);
      if key in cache {
        return cache[key], cache;
      }
      var a := vertices[i].position;
      var b := vertices[j].position;
      index := |vertices|;
      updated := cache[key := index];
      AddVertex([(a.x + b.x) * 0.5, (a.y + b.y) * 0.5, (a.z + b.z) * 0.5]);
    }

    /**
     * The `forEach` callback of `subdivide` for one face: three `getMidPoint`
     * calls and the four faces they determine.
     */
    method SplitOne(face: Face, cache: Cache) returns (quarter: seq<Face>, updated: Cache)
      requires FaceInRange(|vertices|, face) && CacheInRange(|vertices|, cache)
      modifies this`vertices
      ensures vertices == SplitFace(old(vertices), face, cache).vertices
      ensures quarter == SplitFace(old(vertices), face, cache).faces
      ensures updated == SplitFace(old(vertices), face, cache).cache
    {
      ghost var v0 := vertices;
      var mAB, mBC, mCA;
      mAB, updated := GetMidPoint(face.a, face.b, cache);
      mBC, updated := GetMidPoint(face.b, face.c, updated);
      mCA, updated := GetMidPoint(face.c, face.a, updated);
      quarter := [Face(face.a, mAB, mCA), Face(face.b, mBC, mAB), Face(face.c, mCA, mBC), Face(mAB, mBC, mCA)];
      SplitFaceSteps(v0, face, cache);
    }

    /**
     * The same callback seen from the loop: after it has run for face `ndx`,
     * the vertices, the new faces and the cache are those of the first
     * `ndx + 1` faces of the pass.
     */
    method SplitAt(ghost v0: seq<Vertex>, f: seq<Face>, ndx: nat, ghost c0: Cache, newFaces: seq<Face>, cache: Cache)
      returns (extended: seq<Face>, updated: Cache)
      requires FacesInRange(|v0|, f) && CacheInRange(|v0|, c0) && ndx < |f|
      requires PassPrefix(v0, f, c0, ndx) == Build(vertices, newFaces, cache)
      modifies this`vertices
      ensures PassPrefix(v0, f, c0, ndx + 1) == Build(vertices, extended, updated)
    {
      PassNext(v0, f, c0, ndx, Build(vertices, newFaces, cache));
      var quarter;
      quarter, updated := SplitOne(f[ndx], cache);
      extended := newFaces + quarter;
    }

    /**
     * One pass of the division loop: every face of `f` split, in order, and
     * its four faces placed at 4*ndx .. 4*ndx+3 of the new face list.
     */
    method DividePass(f: seq<Face>, cache: Cache) returns (newFaces: seq<Face>, updated: Cache)
      requires FacesInRange(|vertices|, f) && CacheInRange(|vertices|, cache)
      modifies this`vertices
      ensures Build(vertices, newFaces, updated) == Pass(old(vertices), f, cache)
    {
      ghost var v0 := vertices;
      newFaces, updated := [], cache;
      var ndx := 0;
      while ndx < |f|
        invariant 0 <= ndx <= |f|
        invariant PassPrefix(v0, f, cache, ndx) == Build(vertices, newFaces, updated)
      {
        newFaces, updated := SplitAt(v0, f, ndx, cache, newFaces, updated);
        ndx := ndx + 1;
      }
      PassPrefixWhole(v0, f, cache);
    }

    /**
     * `subdivide(divisions)`: `divisions` passes, each splitting every face
     * into four, sharing one midpoint cache across all passes.
     */
    method Subdivide(divisions: nat)
      requires FacesInRange(|vertices|, faces)
      modifies this
      ensures vertices == Subdivision(old(vertices), old(faces), map[], divisions).vertices
      ensures faces == Subdivision(old(vertices), old(faces), map[], divisions).faces
    {
      var cache: Cache := map[];
      var f := faces;
      ghost var v0, f0, c0 := vertices, faces, cache;
      var div := 0;
      while div < divisions
        invariant 0 <= div <= divisions
        invariant Subdivision(v0, f0, c0, div) == Build(vertices, f, cache)
        modifies this`vertices
      {
        SubdivisionNext(v0, f0, c0, div, Build(vertices, f, cache));
        f, cache := DividePass(f, cache);
        div := div + 1;
      }
      faces := f;
    }

    /** `spherize(radius)`: every vertex projected onto the sphere of that radius, in place. */
    method Spherize(radius: real, normalize: Vec3 -> Vec3)
      modifies this`vertices
      ensures vertices == Spherized(old(vertices), radius, normalize)
    {
      var k := 0;
      while k < |vertices|
        invariant 0 <= k <= |vertices| == |old(vertices)|
        invariant vertices[..k] == Spherized(old(vertices), radius, normalize)[..k]
        invariant vertices[k..] == old(vertices)[k..]
      {
        var v := vertices[k];
        assert v == old(vertices)[k];
        var normal := normalize(v.position);
        vertices := vertices[k := Vertex(Scale3(normal, radius), normal, v.uv)];
        k := k + 1;
      }
    }

    /** `new IcosahedronGeometry()`: the twelve golden-ratio corners and the twenty triangles. */
    constructor Icosahedron(sqrt: real -> real)
      ensures vertices == Ico.Vertices(Ico.Golden(sqrt))
      ensures faces == Ico.Triangles
    {
      vertices := [];
      faces := [];
      new;
      var t := sqrt(5.0) * 0.5 + 0.5;
      VerticesFromRoundTrip(Ico.Vertices(t));
      FacesFromRoundTrip(Ico.Triangles);
      AddVertex(VertexData(Ico.Vertices(t)));
      AddFace(IndexList(Ico.Triangles));
    }

    /**
     * One turn of the loop of `DiscGeometry` for rim vertex `i`: the vertex at
     * angle `alpha * i` with its uv, then fan face (0, i, i + 1) when `i > 0`.
     */
    method RimStep(i: nat, n: nat, radius: real, lib: Routines)
      requires i < n
      requires vertices == D.Vertices(n, radius, lib)[..i + 1]
      requires i == 0 ==> faces == []
      requires i > 0 ==> faces == D.Faces(n)[..i - 1]
      modifies this`vertices, this`faces
      ensures vertices == D.Vertices(n, radius, lib)[..i + 2]
      ensures faces == D.Faces(n)[..i]
    {
      var x := D.RimX(i, n, lib);
      var y := D.RimY(i, n, lib);
      D.VerticesPrefix(n, radius, lib, i);
      assert D.RimPoint(x, y, radius) == Vertex(Vec3(radius * x, radius * y, 0.0), Zero3, Vec2(x * 0.5 + 0.5, y * 0.5 + 0.5));
      AddVertexWithUv(Vec3(radius * x, radius * y, 0.0), Vec2(x * 0.5 + 0.5, y * 0.5 + 0.5));
      if i > 0 {
        D.FacesPrefix(n, i - 1);
        FacesFromTriple(0, i, i + 1);
        AddFace([0, i, i + 1]);
      }
    }

    /**
     * `new DiscGeometry(steps, radius)`: the centre, then `max(4, steps)` rim
     * vertices, each followed by its fan face once there is a previous one,
     * then the face closing the fan.
     */
    constructor Disc(steps: int, radius: real, lib: Routines)
      ensures vertices == D.Vertices(D.Steps(steps), radius, lib)
      ensures faces == D.Faces(D.Steps(steps))
    {
      vertices := [];
      faces := [];
      new;
      var n := D.Steps(steps);
      AddVertexWithUv(Zero3, Vec2(0.5, 0.5));
      var i := 0;
      while i < n
        invariant 0 <= i <= n
        invariant vertices == D.Vertices(n, radius, lib)[..i + 1]
        invariant i == 0 ==> faces == []
        invariant i > 0 ==> faces == D.Faces(n)[..i - 1]
      {
        RimStep(i, n, radius, lib);
        i := i + 1;
      }
      D.FacesPrefix(n, n - 1);
      FacesFromTriple(0, n, 1);
      AddFace([0, n, 1]);
      assert D.Faces(n)[..n] == D.Faces(n);
    }
  }
}
