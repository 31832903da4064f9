/**
 * Mesh topology of `Geometry`: vertices, index-triple faces, the edge-midpoint
 * cache and geodesic subdivision, as functions on values. The class
 * `Mesh.Geometry` runs the same steps in place and is proved equal to these
 * functions; the counting laws are proved here.
 */
module Topology {
  import opened GlMath

  /** `new Face(a, b, c)`: three vertex indices. */
  datatype Face = Face(a: nat, b: nat, c: nat)

  /** `new Vertex(x, y, z)` holds a position, a normal and a uv. */
  datatype Vertex = Vertex(position: Vec3, normal: Vec3, uv: Vec2)

  /** The vertex `new Vertex(x, y, z)` builds: the normal and the uv start at zero. */
  function NewVertex(p: Vec3): (v: Vertex)
    ensures v.position == p && v.normal == Zero3 && v.uv == Zero2
  {
    Vertex(p, Zero3, Zero2)
  }

  /**
   * The cache key `k_<larger>_<smaller>` of `getMidPoint`: the unordered pair
   * of endpoint indices, larger index first.
   */
  type EdgeKey = (nat, nat)

  function Key(i: nat, j: nat): EdgeKey
  {
    if i < j then (j, i) else (i, j)
  }

  type Cache = map<EdgeKey, nat>

  /** Every corner of `f` names one of the first `n` vertices. */
  predicate FaceInRange(n: nat, f: Face)
  {
    f.a < n && f.b < n && f.c < n
  }

  predicate FacesInRange(n: nat, fs: seq<Face>)
  {
    forall i :: 0 <= i < |fs| ==> FaceInRange(n, fs[i])
  }

  predicate CacheInRange(n: nat, cache: Cache)
  {
    forall k :: k in cache ==> cache[k] < n
  }

  /** Faces in range of a shorter vertex list stay in range of a longer one, also when concatenated. */
  lemma FacesInRangeAppend(n: nat, m: nat, a: seq<Face>, b: seq<Face>)
    requires n <= m && FacesInRange(n, a) && FacesInRange(m, b)
    ensures FacesInRange(m, a + b)
  {
  }

  /** The position midway between two points, `(a[i] + b[i]) * 0.5` per component. */
  function Midway(p: Vec3, q: Vec3): Vec3
  {
    Vec3((p.x + q.x) * 0.5, (p.y + q.y) * 0.5, (p.z + q.z) * 0.5)
  }

  /** The state `subdivide` threads through its passes: the vertex list, a face list and the cache. */
  datatype Build = Build(vertices: seq<Vertex>, faces: seq<Face>, cache: Cache)

  /** What `getMidPoint(i, j, cache)` leaves behind: the vertex list, the returned index and the cache. */
  datatype MidResult = MidResult(vertices: seq<Vertex>, index: nat, cache: Cache)

  /**
   * `getMidPoint`: a cached edge returns its index and changes nothing; an
   * uncached edge appends the midway vertex and records its index.
   */
  function MidPoint(vs: seq<Vertex>, i: nat, j: nat, cache: Cache): (r: MidResult)
    requires i < |vs| && j < |vs| && CacheInRange(|vs|, cache)
    ensures |r.vertices| >= |vs|
    ensures r.index < |r.vertices| && CacheInRange(|r.vertices|, r.cache)
  {
    var key := Key(i, j);
    if key in cache then MidResult(vs, cache[key], cache)
    else MidResult(vs + [NewVertex(Midway(vs[i].position, vs[j].position))], |vs|, cache[key := |vs|])
  }

  /** The four faces one face is split into, given the midpoint indices of its three edges. */
  function Quarter(f: Face, mAB: nat, mBC: nat, mCA: nat): seq<Face>
  {
    [Face(f.a, mAB, mCA), Face(f.b, mBC, mAB), Face(f.c, mCA, mBC), Face(mAB, mBC, mCA)]
  }

  /** The body of the `forEach` in `subdivide` for one face. */
  function SplitFace(vs: seq<Vertex>, f: Face, cache: Cache): (r: Build)
    requires FaceInRange(|vs|, f) && CacheInRange(|vs|, cache)
    ensures |r.vertices| >= |vs|
    ensures |r.faces| == 4 && FacesInRange(|r.vertices|, r.faces)
    ensures CacheInRange(|r.vertices|, r.cache)
  {
    var mab := MidPoint(vs, f.a, f.b, cache);
    var mbc := MidPoint(mab.vertices, f.b, f.c, mab.cache);
    var mca := MidPoint(mbc.vertices, f.c, f.a, mbc.cache);
    var n := |mca.vertices|;
    assert FacesInRange(n, Quarter(f, mab.index, mbc.index, mca.index)) by {
      assert |vs| <= |mab.vertices| <= |mbc.vertices| <= n;
      assert f.a < n && f.b < n && f.c < n && mab.index < n && mbc.index < n && mca.index < n;
    }
    Build(mca.vertices, Quarter(f, mab.index, mbc.index, mca.index), mca.cache)
  }

  /**
   * One pass of `subdivide` over the faces `fs`, in order: the vertex list
   * grows, each face contributes four faces, the cache is shared.
   */
  function Pass(vs: seq<Vertex>, fs: seq<Face>, cache: Cache): (r: Build)
    requires FacesInRange(|vs|, fs) && CacheInRange(|vs|, cache)
    ensures |r.vertices| >= |vs|
    ensures |r.faces| == 4 * |fs| && FacesInRange(|r.vertices|, r.faces)
    ensures CacheInRange(|r.vertices|, r.cache)
    decreases |fs|
  {
    if fs == [] then Build(vs, [], cache)
    else
      var prev := Pass(vs, fs[..|fs| - 1], cache);
      var s := SplitFace(prev.vertices, fs[|fs| - 1], prev.cache);
      FacesInRangeAppend(|prev.vertices|, |s.vertices|, prev.faces, s.faces);
      Build(s.vertices, prev.faces + s.faces, s.cache)
  }

  /** `subdivide(d)`: `d` passes sharing one cache that starts as given. */
  function Subdivision(vs: seq<Vertex>, fs: seq<Face>, cache: Cache, d: nat): (r: Build)
    requires FacesInRange(|vs|, fs) && CacheInRange(|vs|, cache)
    ensures |r.vertices| >= |vs|
    ensures FacesInRange(|r.vertices|, r.faces) && CacheInRange(|r.vertices|, r.cache)
    decreases d
  {
    if d == 0 then Build(vs, fs, cache)
    else
      var prev := Subdivision(vs, fs, cache, d - 1);
      Pass(prev.vertices, prev.faces, prev.cache)
  }

  function Pow4(d: nat): nat
  {
    if d == 0 then 1 else 4 * Pow4(d - 1)
  }

  /** The unordered edges of one face. */
  function FaceKeys(f: Face): set<EdgeKey>
  {
    {Key(f.a, f.b), Key(f.b, f.c), Key(f.c, f.a)}
  }

  /** The distinct unordered edges of a face list. */
  function EdgeSet(fs: seq<Face>): set<EdgeKey>
    decreases |fs|
  {
    if fs == [] then {} else EdgeSet(fs[..|fs| - 1]) + FaceKeys(fs[|fs| - 1])
  }

  /** The indices of the faces that have `v` as a corner. */
  function Incident(fs: seq<Face>, v: nat): set<nat>
  {
    set k | 0 <= k < |fs| && (fs[k].a == v || fs[k].b == v || fs[k].c == v)
  }

  /** The indices of the faces that have `e` as one of their edges. */
  function EdgeFaces(fs: seq<Face>, e: EdgeKey): set<nat>
  {
    set k | 0 <= k < |fs| && e in FaceKeys(fs[k])
  }

  /** An edge is in `EdgeSet(fs)` exactly when some face of `fs` has it. */
  lemma {:induction false} EdgeSetMembers(fs: seq<Face>, e: EdgeKey)
    ensures e in EdgeSet(fs) <==> EdgeFaces(fs, e) != {}
    decreases |fs|
  {
    if fs != [] {
      var init := fs[..|fs| - 1];
      EdgeSetMembers(init, e);
      if e in EdgeSet(init) {
        var k :| k in EdgeFaces(init, e);
        assert k in EdgeFaces(fs, e);
      } else if e in FaceKeys(fs[|fs| - 1]) {
        assert |fs| - 1 in EdgeFaces(fs, e);
      } else {
        assert EdgeFaces(fs, e) == {} by {
          forall k | 0 <= k < |fs| ensures e !in FaceKeys(fs[k]) {
            if k < |fs| - 1 {
              assert fs[k] == init[k];
              assert k !in EdgeFaces(init, e);
            }
          }
        }
      }
    }
  }

  /** Lexicographic order on edge keys. */
  predicate KeyBefore(e: EdgeKey, f: EdgeKey)
  {
    e.0 < f.0 || (e.0 == f.0 && e.1 < f.1)
  }

  /** A list of keys ascending step by step ascends between any two positions. */
  lemma {:induction false} AscendingFar(s: seq<EdgeKey>, i: nat, j: nat)
    requires forall k :: 0 <= k < |s| - 1 ==> KeyBefore(s[k], s[k + 1])
    requires i < j < |s|
    ensures KeyBefore(s[i], s[j])
    decreases j - i
  {
    if i + 1 < j {
      AscendingFar(s, i + 1, j);
    }
  }

  /** An ascending list of keys has no repeated key, so it lists as many keys as it is long. */
  lemma {:induction false} AscendingCard(s: seq<EdgeKey>)
    requires forall k :: 0 <= k < |s| - 1 ==> KeyBefore(s[k], s[k + 1])
    ensures |set e | e in s| == |s|
    decreases |s|
  {
    if s != [] {
      var init := s[..|s| - 1];
      var last := s[|s| - 1];
      assert s == init + [last];
      AscendingCard(init);
      assert last !in init by {
        forall k | 0 <= k < |init| ensures init[k] != last {
          AscendingFar(s, k, |s| - 1);
        }
      }
      SetOfSnoc(init, last);
    }
  }

  lemma SetOfSnoc<T>(init: seq<T>, last: T)
    ensures (set e | e in init + [last]) == (set e | e in init) + {last}
  {
  }

  // ---------------------------------------------------------------------------
  // Unfolding steps

  /** A non-empty pass is the pass over all but the last face, followed by the split of the last face. */
  lemma PassStep(vs: seq<Vertex>, fs: seq<Face>, cache: Cache)
    requires FacesInRange(|vs|, fs) && CacheInRange(|vs|, cache) && fs != []
    ensures var prev := Pass(vs, fs[..|fs| - 1], cache);
            var s := SplitFace(prev.vertices, fs[|fs| - 1], prev.cache);
            Pass(vs, fs, cache) == Build(s.vertices, prev.faces + s.faces, s.cache)
  {
  }

  /**
   * What the `forEach` of one pass has built after visiting the first `n`
   * faces of `fs`: the state `subdivide` carries from one face to the next.
   */
  ghost function PassPrefix(vs: seq<Vertex>, fs: seq<Face>, cache: Cache, n: nat): (r: Build)
    requires FacesInRange(|vs|, fs) && CacheInRange(|vs|, cache) && n <= |fs|
    ensures |r.vertices| >= |vs| && CacheInRange(|r.vertices|, r.cache)
    decreases n
  {
    if n == 0 then Build(vs, [], cache)
    else
      var prev := PassPrefix(vs, fs, cache, n - 1);
      var s := SplitFace(prev.vertices, fs[n - 1], prev.cache);
      Build(s.vertices, prev.faces + s.faces, s.cache)
  }

  /** Visiting the first `n` faces is a whole pass over `fs[..n]`. */
  lemma {:induction false} PassPrefixIsPass(vs: seq<Vertex>, fs: seq<Face>, cache: Cache, n: nat)
    requires FacesInRange(|vs|, fs) && CacheInRange(|vs|, cache) && n <= |fs|
    ensures PassPrefix(vs, fs, cache, n) == Pass(vs, fs[..n], cache)
  {
    if n > 0 {
      var head := fs[..n];
      PassPrefixIsPass(vs, fs, cache, n - 1);
      assert head[..n - 1] == fs[..n - 1];
      PassStep(vs, head, cache);
    }
  }

  /** Visiting every face is the whole pass. */
  lemma PassPrefixWhole(vs: seq<Vertex>, fs: seq<Face>, cache: Cache)
    requires FacesInRange(|vs|, fs) && CacheInRange(|vs|, cache)
    ensures PassPrefix(vs, fs, cache, |fs|) == Pass(vs, fs, cache)
  {
    PassPrefixIsPass(vs, fs, cache, |fs|);
    assert fs[..|fs|] == fs;
  }

  /** Splitting face `n` continues from what the pass built for the faces before it. */
  lemma PassNext(vs: seq<Vertex>, fs: seq<Face>, cache: Cache, n: nat, b: Build)
    requires FacesInRange(|vs|, fs) && CacheInRange(|vs|, cache) && n < |fs|
    requires PassPrefix(vs, fs, cache, n) == b
    ensures FaceInRange(|b.vertices|, fs[n]) && CacheInRange(|b.vertices|, b.cache)
    ensures PassPrefix(vs, fs, cache, n + 1) == Build(
              SplitFace(b.vertices, fs[n], b.cache).vertices,
              b.faces + SplitFace(b.vertices, fs[n], b.cache).faces,
              SplitFace(b.vertices, fs[n], b.cache).cache)
  {
  }

  /** `d + 1` passes are one more pass after `d`. */
  lemma SubdivisionStep(vs: seq<Vertex>, fs: seq<Face>, cache: Cache, d: nat)
    requires FacesInRange(|vs|, fs) && CacheInRange(|vs|, cache) && d > 0
    ensures var prev := Subdivision(vs, fs, cache, d - 1);
            Subdivision(vs, fs, cache, d) == Pass(prev.vertices, prev.faces, prev.cache)
  {
  }

  /** The pass after `d` passes starts from what those `d` passes built. */
  lemma SubdivisionNext(vs: seq<Vertex>, fs: seq<Face>, cache: Cache, d: nat, b: Build)
    requires FacesInRange(|vs|, fs) && CacheInRange(|vs|, cache)
    requires Subdivision(vs, fs, cache, d) == b
    ensures FacesInRange(|b.vertices|, b.faces) && CacheInRange(|b.vertices|, b.cache)
    ensures Subdivision(vs, fs, cache, d + 1) == Pass(b.vertices, b.faces, b.cache)
  {
    SubdivisionStep(vs, fs, cache, d + 1);
  }

  // ---------------------------------------------------------------------------
  // getMidPoint

  /**
   * `getMidPoint(j, i)` right after `getMidPoint(i, j)` hits the same cache
   * entry: it returns the first call's index and adds no vertex.
   */
  lemma MidPointSymmetric(vs: seq<Vertex>, i: nat, j: nat, cache: Cache)
    requires i < |vs| && j < |vs| && CacheInRange(|vs|, cache)
    ensures var first := MidPoint(vs, i, j, cache);
            var second := MidPoint(first.vertices, j, i, first.cache);
            second.vertices == first.vertices && second.index == first.index && second.cache == first.cache
  {
    var first := MidPoint(vs, i, j, cache);
    assert Key(j, i) == Key(i, j);
  }

  /**
   * `getMidPoint` on a cached edge returns the cached index and changes
   * nothing. On an uncached edge it appends exactly one vertex, at index
   * `|vs|`, midway between the two endpoints, leaves the earlier vertices as
   * they were, and records that index under the edge's key.
   */
  lemma MidPointHitOrMiss(vs: seq<Vertex>, i: nat, j: nat, cache: Cache)
    requires i < |vs| && j < |vs| && CacheInRange(|vs|, cache)
    ensures var r := MidPoint(vs, i, j, cache);
            if Key(i, j) in cache then
              r.vertices == vs && r.index == cache[Key(i, j)] && r.cache == cache
            else
              && |r.vertices| == |vs| + 1 && r.vertices[..|vs|] == vs
              && r.index == |vs|
              && r.vertices[|vs|].position == Midway(vs[i].position, vs[j].position)
              && r.cache == cache[Key(i, j) := |vs|]
  {
  }

  // ---------------------------------------------------------------------------
  // Layout of one pass

  /** Entries in `before` stay in `after` with the same value. */
  ghost predicate Extends(before: Cache, after: Cache)
  {
    forall k :: k in before ==> k in after && after[k] == before[k]
  }

  lemma MidPointExtends(vs: seq<Vertex>, i: nat, j: nat, cache: Cache)
    requires i < |vs| && j < |vs| && CacheInRange(|vs|, cache)
    ensures var r := MidPoint(vs, i, j, cache);
            Extends(cache, r.cache) && r.cache.Keys == cache.Keys + {Key(i, j)} &&
            r.cache[Key(i, j)] == r.index
  {
    MidPointHitOrMiss(vs, i, j, cache);
  }

  lemma ExtendsTransitive(c0: Cache, c1: Cache, c2: Cache)
    requires Extends(c0, c1) && Extends(c1, c2)
    ensures Extends(c0, c2)
  {
  }

  /** The three `getMidPoint` calls of one face, in the order ab, bc, ca. */
  lemma SplitFaceSteps(vs: seq<Vertex>, f: Face, cache: Cache)
    requires FaceInRange(|vs|, f) && CacheInRange(|vs|, cache)
    ensures var mab := MidPoint(vs, f.a, f.b, cache);
            var mbc := MidPoint(mab.vertices, f.b, f.c, mab.cache);
            var mca := MidPoint(mbc.vertices, f.c, f.a, mbc.cache);
            SplitFace(vs, f, cache) == Build(mca.vertices, Quarter(f, mab.index, mbc.index, mca.index), mca.cache)
  {
  }

  /** Splitting a face keeps every cache entry and adds exactly the face's three edges. */
  lemma SplitFaceCache(vs: seq<Vertex>, f: Face, cache: Cache)
    requires FaceInRange(|vs|, f) && CacheInRange(|vs|, cache)
    ensures var s := SplitFace(vs, f, cache);
            Extends(cache, s.cache) && s.cache.Keys == cache.Keys + FaceKeys(f)
  {
    var mab := MidPoint(vs, f.a, f.b, cache);
    var mbc := MidPoint(mab.vertices, f.b, f.c, mab.cache);
    var mca := MidPoint(mbc.vertices, f.c, f.a, mbc.cache);
    SplitFaceSteps(vs, f, cache);
    MidPointExtends(vs, f.a, f.b, cache);
    MidPointExtends(mab.vertices, f.b, f.c, mab.cache);
    MidPointExtends(mbc.vertices, f.c, f.a, mbc.cache);
    ExtendsTransitive(cache, mab.cache, mbc.cache);
    ExtendsTransitive(cache, mbc.cache, mca.cache);
  }

  /** The four faces of a split use the indices the cache ends up holding for the three edges. */
  lemma SplitFaceFaces(vs: seq<Vertex>, f: Face, cache: Cache)
    requires FaceInRange(|vs|, f) && CacheInRange(|vs|, cache)
    ensures var s := SplitFace(vs, f, cache);
            FaceKeys(f) <= s.cache.Keys &&
            s.faces == Quarter(f, s.cache[Key(f.a, f.b)], s.cache[Key(f.b, f.c)], s.cache[Key(f.c, f.a)])
  {
    var mab := MidPoint(vs, f.a, f.b, cache);
    var mbc := MidPoint(mab.vertices, f.b, f.c, mab.cache);
    var mca := MidPoint(mbc.vertices, f.c, f.a, mbc.cache);
    SplitFaceSteps(vs, f, cache);
    MidPointExtends(vs, f.a, f.b, cache);
    MidPointExtends(mab.vertices, f.b, f.c, mab.cache);
    MidPointExtends(mbc.vertices, f.c, f.a, mbc.cache);
    ExtendsTransitive(mab.cache, mbc.cache, mca.cache);
  }

  lemma {:induction false} PassExtends(vs: seq<Vertex>, fs: seq<Face>, cache: Cache)
    requires FacesInRange(|vs|, fs) && CacheInRange(|vs|, cache)
    ensures Extends(cache, Pass(vs, fs, cache).cache)
    ensures Pass(vs, fs, cache).cache.Keys == cache.Keys + EdgeSet(fs)
    decreases |fs|
  {
    if fs != [] {
      var prev := Pass(vs, fs[..|fs| - 1], cache);
      PassStep(vs, fs, cache);
      PassExtends(vs, fs[..|fs| - 1], cache);
      SplitFaceCache(prev.vertices, fs[|fs| - 1], prev.cache);
      ExtendsTransitive(cache, prev.cache, Pass(vs, fs, cache).cache);
    }
  }

  /**
   * A pass replaces face `n` by four faces at `4n .. 4n+3`: (a, mAB, mCA),
   * (b, mBC, mAB), (c, mCA, mBC), (mAB, mBC, mCA), where each m is the index
   * the cache holds for that edge at the end of the pass.
   */
  lemma {:induction false} PassLayout(vs: seq<Vertex>, fs: seq<Face>, cache: Cache, n: nat)
    requires FacesInRange(|vs|, fs) && CacheInRange(|vs|, cache)
    requires n < |fs|
    ensures var r := Pass(vs, fs, cache);
            var f := fs[n];
            Key(f.a, f.b) in r.cache && Key(f.b, f.c) in r.cache && Key(f.c, f.a) in r.cache &&
            r.faces[4 * n .. 4 * n + 4] == Quarter(f, r.cache[Key(f.a, f.b)], r.cache[Key(f.b, f.c)], r.cache[Key(f.c, f.a)])
    decreases |fs|
  {
    var init := fs[..|fs| - 1];
    var last := fs[|fs| - 1];
    var prev := Pass(vs, init, cache);
    var s := SplitFace(prev.vertices, last, prev.cache);
    var r := Pass(vs, fs, cache);
    PassStep(vs, fs, cache);
    SplitFaceCache(prev.vertices, last, prev.cache);
    SplitFaceFaces(prev.vertices, last, prev.cache);
    if n == |fs| - 1 {
      SliceRight(prev.faces, s.faces);
    } else {
      PassLayout(vs, init, cache, n);
      assert fs[n] == init[n];
      SliceLeft(prev.faces, s.faces, 4 * n, 4 * n + 4);
    }
  }

  lemma SliceLeft<T>(a: seq<T>, b: seq<T>, i: nat, j: nat)
    requires i <= j <= |a|
    ensures (a + b)[i..j] == a[i..j]
  {
  }

  lemma SliceRight<T>(a: seq<T>, b: seq<T>)
    ensures (a + b)[|a|..|a| + |b|] == b
  {
  }

  // ---------------------------------------------------------------------------
  // Counting laws

  lemma Times4(k: nat, n: nat)
    ensures 4 * (k * n) == (4 * k) * n
  {
  }

  /** `subdivide(d)` multiplies the face count by 4^d. */
  lemma {:induction false} SubdivisionFaceCount(vs: seq<Vertex>, fs: seq<Face>, cache: Cache, d: nat)
    requires FacesInRange(|vs|, fs) && CacheInRange(|vs|, cache)
    ensures |Subdivision(vs, fs, cache, d).faces| == Pow4(d) * |fs|
    decreases d
  {
    if d == 0 {
      assert Pow4(0) * |fs| == |fs|;
    } else {
      var prev := Subdivision(vs, fs, cache, d - 1);
      SubdivisionFaceCount(vs, fs, cache, d - 1);
      SubdivisionStep(vs, fs, cache, d);
      Times4(Pow4(d - 1), |fs|);
      assert Pow4(d) == 4 * Pow4(d - 1);
    }
  }

  /** `subdivide(0)` leaves the vertices, the faces and the cache as they were. */
  lemma SubdivisionZero(vs: seq<Vertex>, fs: seq<Face>, cache: Cache)
    requires FacesInRange(|vs|, fs) && CacheInRange(|vs|, cache)
    ensures Subdivision(vs, fs, cache, 0) == Build(vs, fs, cache)
  {
  }

  lemma CardAdd(a: set<EdgeKey>, b: set<EdgeKey>, c: set<EdgeKey>)
    ensures |(a + b) - c| == |a - c| + |b - (c + a)|
  {
    var x, y := a - c, b - (c + a);
    assert (a + b) - c == x + y;
    assert x !! y;
  }

  /** One `getMidPoint` adds a vertex exactly when its edge is not cached yet. */
  lemma MidPointCount(vs: seq<Vertex>, i: nat, j: nat, cache: Cache)
    requires i < |vs| && j < |vs| && CacheInRange(|vs|, cache)
    ensures |MidPoint(vs, i, j, cache).vertices| == |vs| + |{Key(i, j)} - cache.Keys|
  {
    MidPointHitOrMiss(vs, i, j, cache);
    if Key(i, j) in cache {
      assert {Key(i, j)} - cache.Keys == {};
    } else {
      assert {Key(i, j)} - cache.Keys == {Key(i, j)};
    }
  }

  lemma SplitFaceCount(vs: seq<Vertex>, f: Face, cache: Cache)
    requires FaceInRange(|vs|, f) && CacheInRange(|vs|, cache)
    ensures |SplitFace(vs, f, cache).vertices| == |vs| + |FaceKeys(f) - cache.Keys|
  {
    var kab, kbc, kca := Key(f.a, f.b), Key(f.b, f.c), Key(f.c, f.a);
    var mab := MidPoint(vs, f.a, f.b, cache);
    var mbc := MidPoint(mab.vertices, f.b, f.c, mab.cache);
    var mca := MidPoint(mbc.vertices, f.c, f.a, mbc.cache);
    MidPointCount(vs, f.a, f.b, cache);
    MidPointCount(mab.vertices, f.b, f.c, mab.cache);
    MidPointCount(mbc.vertices, f.c, f.a, mbc.cache);
    MidPointExtends(vs, f.a, f.b, cache);
    MidPointExtends(mab.vertices, f.b, f.c, mab.cache);
    ThreeKeys(cache.Keys, kab, kbc, kca);
  }

  lemma ThreeKeys(known: set<EdgeKey>, x: EdgeKey, y: EdgeKey, z: EdgeKey)
    ensures |{x, y, z} - known| == |{x} - known| + |{y} - (known + {x})| + |{z} - (known + {x} + {y})|
  {
    var p, q, r := {x} - known, {y} - (known + {x}), {z} - (known + {x} + {y});
    assert {x, y, z} - known == p + q + r;
    assert p !! q && (p + q) !! r;
  }

  /**
   * One pass adds exactly one vertex per distinct unordered edge of its faces
   * that the cache does not hold yet; with the empty cache of the first pass,
   * one per distinct edge.
   */
  lemma {:induction false} PassVertexCount(vs: seq<Vertex>, fs: seq<Face>, cache: Cache)
    requires FacesInRange(|vs|, fs) && CacheInRange(|vs|, cache)
    ensures |Pass(vs, fs, cache).vertices| == |vs| + |EdgeSet(fs) - cache.Keys|
    decreases |fs|
  {
    if fs != [] {
      var init := fs[..|fs| - 1];
      var prev := Pass(vs, init, cache);
      PassVertexCount(vs, init, cache);
      PassStep(vs, fs, cache);
      PassExtends(vs, init, cache);
      SplitFaceCount(prev.vertices, fs[|fs| - 1], prev.cache);
      CardAdd(EdgeSet(init), FaceKeys(fs[|fs| - 1]), cache.Keys);
    }
  }
}
