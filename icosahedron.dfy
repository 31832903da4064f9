/**
 * The constant table of `IcosahedronGeometry`: twelve corners built from the
 * golden ratio `t` and twenty triangles, and the facts about that table that
 * the geodesic sphere relies on (closed surface, five triangles per corner,
 * two triangles per edge, hence 42 vertices and 80 faces after one pass).
 */
module Icosahedron {
  import opened GlMath
  import opened Topology

  /** `t = Math.sqrt(5) * 0.5 + 0.5`. */
  function Golden(sqrt: real -> real): real
  {
    sqrt(5.0) * 0.5 + 0.5
  }

  /** `t` is the golden ratio: it solves `t * t == t + 1`, and it exceeds 1. */
  lemma GoldenRatio(sqrt: real -> real)
    requires SqrtLaw(sqrt)
    ensures var t := Golden(sqrt); t * t == t + 1.0 && t > 1.0
  {
    var s := sqrt(5.0);
    assert s * s == 5.0 && s >= 0.0;
    var below, above := s - 1.0, s + 1.0;
    assert below * above == s * s - 1.0;
    PositiveFactor(below, above);
    var t := s * 0.5 + 0.5;
    assert t * t == s * s * 0.25 + s * 0.5 + 0.25;
  }

  /** Corner `k` of the twelve passed to `addVertex`, in argument order. */
  function Corner(k: nat, t: real): Vec3
    requires k < 12
  {
    match k
    case 0 => Vec3(-1.0, t, 0.0)
    case 1 => Vec3(1.0, t, 0.0)
    case 2 => Vec3(-1.0, -t, 0.0)
    case 3 => Vec3(1.0, -t, 0.0)
    case 4 => Vec3(0.0, -1.0, t)
    case 5 => Vec3(0.0, 1.0, t)
    case 6 => Vec3(0.0, -1.0, -t)
    case 7 => Vec3(0.0, 1.0, -t)
    case 8 => Vec3(t, 0.0, -1.0)
    case 9 => Vec3(t, 0.0, 1.0)
    case 10 => Vec3(-t, 0.0, -1.0)
    case _ => Vec3(-t, 0.0, 1.0)
  }

  function Corners(t: real): (ps: seq<Vec3>)
    ensures |ps| == 12
  {
    seq(12, k requires 0 <= k < 12 => Corner(k, t))
  }

  /** Triangle `k` of the twenty passed to `addFace`, in argument order. */
  function Triangle(k: nat): Face
    requires k < 20
  {
    match k
    case 0 => Face(0, 11, 5)
    case 1 => Face(0, 5, 1)
    case 2 => Face(0, 1, 7)
    case 3 => Face(0, 7, 10)
    case 4 => Face(0, 10, 11)
    case 5 => Face(1, 5, 9)
    case 6 => Face(5, 11, 4)
    case 7 => Face(11, 10, 2)
    case 8 => Face(10, 7, 6)
    case 9 => Face(7, 1, 8)
    case 10 => Face(3, 9, 4)
    case 11 => Face(3, 4, 2)
    case 12 => Face(3, 2, 6)
    case 13 => Face(3, 6, 8)
    case 14 => Face(3, 8, 9)
    case 15 => Face(4, 9, 5)
    case 16 => Face(2, 4, 11)
    case 17 => Face(6, 2, 10)
    case 18 => Face(8, 6, 7)
    case _ => Face(9, 8, 1)
  }

  const Triangles: seq<Face> := seq(20, k requires 0 <= k < 20 => Triangle(k))

  /**
   * Every corner has one coordinate 0, one coordinate of magnitude 1 and one
   * of magnitude `t`.
   */
  lemma CornerShape(t: real, k: nat)
    requires t > 0.0 && k < 12
    ensures var p := Corner(k, t);
            multiset{Abs(p.x), Abs(p.y), Abs(p.z)} == multiset{0.0, 1.0, t}
  {
  }

  /** Every triangle names three distinct corners among the twelve. */
  lemma TrianglesWellFormed()
    ensures |Triangles| == 20 && FacesInRange(12, Triangles)
    ensures forall k :: 0 <= k < 20 ==>
              Triangles[k].a != Triangles[k].b && Triangles[k].b != Triangles[k].c && Triangles[k].c != Triangles[k].a
  {
  }

  // ---------------------------------------------------------------------------
  // Five triangles around every corner
  //
  // One lemma per corner (and below, one per edge): each set equality is
  // cheap alone, but the twelve (thirty) of them in a single proof exceed
  // the solver's budget.

  lemma Around0() ensures Incident(Triangles, 0) == {0, 1, 2, 3, 4} && |Incident(Triangles, 0)| == 5 { }
  lemma Around1() ensures Incident(Triangles, 1) == {1, 2, 5, 9, 19} && |Incident(Triangles, 1)| == 5 { }
  lemma Around2() ensures Incident(Triangles, 2) == {7, 11, 12, 16, 17} && |Incident(Triangles, 2)| == 5 { }
  lemma Around3() ensures Incident(Triangles, 3) == {10, 11, 12, 13, 14} && |Incident(Triangles, 3)| == 5 { }
  lemma Around4() ensures Incident(Triangles, 4) == {6, 10, 11, 15, 16} && |Incident(Triangles, 4)| == 5 { }
  lemma Around5() ensures Incident(Triangles, 5) == {0, 1, 5, 6, 15} && |Incident(Triangles, 5)| == 5 { }
  lemma Around6() ensures Incident(Triangles, 6) == {8, 12, 13, 17, 18} && |Incident(Triangles, 6)| == 5 { }
  lemma Around7() ensures Incident(Triangles, 7) == {2, 3, 8, 9, 18} && |Incident(Triangles, 7)| == 5 { }
  lemma Around8() ensures Incident(Triangles, 8) == {9, 13, 14, 18, 19} && |Incident(Triangles, 8)| == 5 { }
  lemma Around9() ensures Incident(Triangles, 9) == {5, 10, 14, 15, 19} && |Incident(Triangles, 9)| == 5 { }
  lemma Around10() ensures Incident(Triangles, 10) == {3, 4, 7, 8, 17} && |Incident(Triangles, 10)| == 5 { }
  lemma Around11() ensures Incident(Triangles, 11) == {0, 4, 6, 7, 16} && |Incident(Triangles, 11)| == 5 { }

  /** Every corner lies in exactly five triangles (the table's own comments say so for corners 0 and 3). */
  lemma FiveTrianglesPerCorner()
    ensures forall v :: 0 <= v < 12 ==> |Incident(Triangles, v)| == 5
  {
    forall v | 0 <= v < 12 ensures |Incident(Triangles, v)| == 5 {
      AroundCorner(v);
    }
  }

  lemma AroundCorner(v: nat)
    requires v < 12
    ensures |Incident(Triangles, v)| == 5
  {
    if v == 0 { Around0(); }
    else if v == 1 { Around1(); }
    else if v == 2 { Around2(); }
    else if v == 3 { Around3(); }
    else if v == 4 { Around4(); }
    else if v == 5 { Around5(); }
    else if v == 6 { Around6(); }
    else if v == 7 { Around7(); }
    else if v == 8 { Around8(); }
    else if v == 9 { Around9(); }
    else if v == 10 { Around10(); }
    else { Around11(); }
  }

  // ---------------------------------------------------------------------------
  // Two triangles along every edge

  /** The 30 distinct unordered edges, in increasing (larger, smaller) order. */
  function EdgeAt(i: nat): EdgeKey
    requires i < 30
  {
    match i
    case 0 => (1, 0)
    case 1 => (3, 2)
    case 2 => (4, 2)
    case 3 => (4, 3)
    case 4 => (5, 0)
    case 5 => (5, 1)
    case 6 => (5, 4)
    case 7 => (6, 2)
    case 8 => (6, 3)
    case 9 => (7, 0)
    case 10 => (7, 1)
    case 11 => (7, 6)
    case 12 => (8, 1)
    case 13 => (8, 3)
    case 14 => (8, 6)
    case 15 => (8, 7)
    case 16 => (9, 1)
    case 17 => (9, 3)
    case 18 => (9, 4)
    case 19 => (9, 5)
    case 20 => (9, 8)
    case 21 => (10, 0)
    case 22 => (10, 2)
    case 23 => (10, 6)
    case 24 => (10, 7)
    case 25 => (11, 0)
    case 26 => (11, 2)
    case 27 => (11, 4)
    case 28 => (11, 5)
    case _ => (11, 10)
  }

  const Edges: seq<EdgeKey> := seq(30, i requires 0 <= i < 30 => EdgeAt(i))

  lemma Along0() ensures EdgeFaces(Triangles, (1, 0)) == {1, 2} && |EdgeFaces(Triangles, (1, 0))| == 2 { }
  lemma Along1() ensures EdgeFaces(Triangles, (3, 2)) == {11, 12} && |EdgeFaces(Triangles, (3, 2))| == 2 { }
  lemma Along2() ensures EdgeFaces(Triangles, (4, 2)) == {11, 16} && |EdgeFaces(Triangles, (4, 2))| == 2 { }
  lemma Along3() ensures EdgeFaces(Triangles, (4, 3)) == {10, 11} && |EdgeFaces(Triangles, (4, 3))| == 2 { }
  lemma Along4() ensures EdgeFaces(Triangles, (5, 0)) == {0, 1} && |EdgeFaces(Triangles, (5, 0))| == 2 { }
  lemma Along5() ensures EdgeFaces(Triangles, (5, 1)) == {1, 5} && |EdgeFaces(Triangles, (5, 1))| == 2 { }
  lemma Along6() ensures EdgeFaces(Triangles, (5, 4)) == {6, 15} && |EdgeFaces(Triangles, (5, 4))| == 2 { }
  lemma Along7() ensures EdgeFaces(Triangles, (6, 2)) == {12, 17} && |EdgeFaces(Triangles, (6, 2))| == 2 { }
  lemma Along8() ensures EdgeFaces(Triangles, (6, 3)) == {12, 13} && |EdgeFaces(Triangles, (6, 3))| == 2 { }
  lemma Along9() ensures EdgeFaces(Triangles, (7, 0)) == {2, 3} && |EdgeFaces(Triangles, (7, 0))| == 2 { }
  lemma Along10() ensures EdgeFaces(Triangles, (7, 1)) == {2, 9} && |EdgeFaces(Triangles, (7, 1))| == 2 { }
  lemma Along11() ensures EdgeFaces(Triangles, (7, 6)) == {8, 18} && |EdgeFaces(Triangles, (7, 6))| == 2 { }
  lemma Along12() ensures EdgeFaces(Triangles, (8, 1)) == {9, 19} && |EdgeFaces(Triangles, (8, 1))| == 2 { }
  lemma Along13() ensures EdgeFaces(Triangles, (8, 3)) == {13, 14} && |EdgeFaces(Triangles, (8, 3))| == 2 { }
  lemma Along14() ensures EdgeFaces(Triangles, (8, 6)) == {13, 18} && |EdgeFaces(Triangles, (8, 6))| == 2 { }
  lemma Along15() ensures EdgeFaces(Triangles, (8, 7)) == {9, 18} && |EdgeFaces(Triangles, (8, 7))| == 2 { }
  lemma Along16() ensures EdgeFaces(Triangles, (9, 1)) == {5, 19} && |EdgeFaces(Triangles, (9, 1))| == 2 { }
  lemma Along17() ensures EdgeFaces(Triangles, (9, 3)) == {10, 14} && |EdgeFaces(Triangles, (9, 3))| == 2 { }
  lemma Along18() ensures EdgeFaces(Triangles, (9, 4)) == {10, 15} && |EdgeFaces(Triangles, (9, 4))| == 2 { }
  lemma Along19() ensures EdgeFaces(Triangles, (9, 5)) == {5, 15} && |EdgeFaces(Triangles, (9, 5))| == 2 { }
  lemma Along20() ensures EdgeFaces(Triangles, (9, 8)) == {14, 19} && |EdgeFaces(Triangles, (9, 8))| == 2 { }
  lemma Along21() ensures EdgeFaces(Triangles, (10, 0)) == {3, 4} && |EdgeFaces(Triangles, (10, 0))| == 2 { }
  lemma Along22() ensures EdgeFaces(Triangles, (10, 2)) == {7, 17} && |EdgeFaces(Triangles, (10, 2))| == 2 { }
  lemma Along23() ensures EdgeFaces(Triangles, (10, 6)) == {8, 17} && |EdgeFaces(Triangles, (10, 6))| == 2 { }
  lemma Along24() ensures EdgeFaces(Triangles, (10, 7)) == {3, 8} && |EdgeFaces(Triangles, (10, 7))| == 2 { }
  lemma Along25() ensures EdgeFaces(Triangles, (11, 0)) == {0, 4} && |EdgeFaces(Triangles, (11, 0))| == 2 { }
  lemma Along26() ensures EdgeFaces(Triangles, (11, 2)) == {7, 16} && |EdgeFaces(Triangles, (11, 2))| == 2 { }
  lemma Along27() ensures EdgeFaces(Triangles, (11, 4)) == {6, 16} && |EdgeFaces(Triangles, (11, 4))| == 2 { }
  lemma Along28() ensures EdgeFaces(Triangles, (11, 5)) == {0, 6} && |EdgeFaces(Triangles, (11, 5))| == 2 { }
  lemma Along29() ensures EdgeFaces(Triangles, (11, 10)) == {4, 7} && |EdgeFaces(Triangles, (11, 10))| == 2 { }

  /** Edge `i` of the list is shared by exactly two triangles. */
  lemma SharedByTwo(i: nat)
    requires i < 30
    ensures |EdgeFaces(Triangles, EdgeAt(i))| == 2
  {
    if i == 0 { Along0(); }
    else if i == 1 { Along1(); }
    else if i == 2 { Along2(); }
    else if i == 3 { Along3(); }
    else if i == 4 { Along4(); }
    else if i == 5 { Along5(); }
    else if i == 6 { Along6(); }
    else if i == 7 { Along7(); }
    else if i == 8 { Along8(); }
    else if i == 9 { Along9(); }
    else if i == 10 { Along10(); }
    else if i == 11 { Along11(); }
    else if i == 12 { Along12(); }
    else if i == 13 { Along13(); }
    else if i == 14 { Along14(); }
    else if i == 15 { Along15(); }
    else if i == 16 { Along16(); }
    else if i == 17 { Along17(); }
    else if i == 18 { Along18(); }
    else if i == 19 { Along19(); }
    else if i == 20 { Along20(); }
    else if i == 21 { Along21(); }
    else if i == 22 { Along22(); }
    else if i == 23 { Along23(); }
    else if i == 24 { Along24(); }
    else if i == 25 { Along25(); }
    else if i == 26 { Along26(); }
    else if i == 27 { Along27(); }
    else if i == 28 { Along28(); }
    else { Along29(); }
  }

  /** Every edge of triangle `k` is one of the thirty listed. */
  lemma EdgesListed(k: nat)
    requires k < 20
    ensures forall e :: e in FaceKeys(Triangle(k)) ==> e in Edges
  {
    if k == 0 { assert Edges[25] == (11, 0) && Edges[28] == (11, 5) && Edges[4] == (5, 0); }
    else if k == 1 { assert Edges[4] == (5, 0) && Edges[5] == (5, 1) && Edges[0] == (1, 0); }
    else if k == 2 { assert Edges[0] == (1, 0) && Edges[10] == (7, 1) && Edges[9] == (7, 0); }
    else if k == 3 { assert Edges[9] == (7, 0) && Edges[24] == (10, 7) && Edges[21] == (10, 0); }
    else if k == 4 { assert Edges[21] == (10, 0) && Edges[29] == (11, 10) && Edges[25] == (11, 0); }
    else if k == 5 { assert Edges[5] == (5, 1) && Edges[19] == (9, 5) && Edges[16] == (9, 1); }
    else if k == 6 { assert Edges[28] == (11, 5) && Edges[27] == (11, 4) && Edges[6] == (5, 4); }
    else if k == 7 { assert Edges[29] == (11, 10) && Edges[22] == (10, 2) && Edges[26] == (11, 2); }
    else if k == 8 { assert Edges[24] == (10, 7) && Edges[11] == (7, 6) && Edges[23] == (10, 6); }
    else if k == 9 { assert Edges[10] == (7, 1) && Edges[12] == (8, 1) && Edges[15] == (8, 7); }
    else if k == 10 { assert Edges[17] == (9, 3) && Edges[18] == (9, 4) && Edges[3] == (4, 3); }
    else if k == 11 { assert Edges[3] == (4, 3) && Edges[2] == (4, 2) && Edges[1] == (3, 2); }
    else if k == 12 { assert Edges[1] == (3, 2) && Edges[7] == (6, 2) && Edges[8] == (6, 3); }
    else if k == 13 { assert Edges[8] == (6, 3) && Edges[14] == (8, 6) && Edges[13] == (8, 3); }
    else if k == 14 { assert Edges[13] == (8, 3) && Edges[20] == (9, 8) && Edges[17] == (9, 3); }
    else if k == 15 { assert Edges[18] == (9, 4) && Edges[19] == (9, 5) && Edges[6] == (5, 4); }
    else if k == 16 { assert Edges[2] == (4, 2) && Edges[27] == (11, 4) && Edges[26] == (11, 2); }
    else if k == 17 { assert Edges[7] == (6, 2) && Edges[22] == (10, 2) && Edges[23] == (10, 6); }
    else if k == 18 { assert Edges[14] == (8, 6) && Edges[11] == (7, 6) && Edges[15] == (8, 7); }
    else { assert Edges[20] == (9, 8) && Edges[12] == (8, 1) && Edges[16] == (9, 1); }
  }

  /** The list of edges ascends, so its thirty entries are distinct. */
  lemma EdgesAscend()
    ensures forall i :: 0 <= i < |Edges| - 1 ==> KeyBefore(Edges[i], Edges[i + 1])
  {
  }

  /**
   * The twenty triangles have exactly thirty distinct unordered edges, and
   * each of them is shared by exactly two triangles: the surface is closed.
   */
  lemma ThirtyEdges()
    ensures EdgeSet(Triangles) == set e | e in Edges
    ensures |EdgeSet(Triangles)| == 30
    ensures forall e :: e in EdgeSet(Triangles) ==> |EdgeFaces(Triangles, e)| == 2
  {
    forall e ensures e in EdgeSet(Triangles) <==> e in Edges {
      EdgeSetMembers(Triangles, e);
      if e in Edges {
        var i :| 0 <= i < 30 && Edges[i] == e;
        SharedByTwo(i);
      }
      if e in EdgeSet(Triangles) {
        var k :| k in EdgeFaces(Triangles, e);
        EdgesListed(k);
      }
    }
    forall e | e in EdgeSet(Triangles) ensures |EdgeFaces(Triangles, e)| == 2 {
      var i :| 0 <= i < 30 && Edges[i] == e;
      SharedByTwo(i);
    }
    EdgesAscend();
    AscendingCard(Edges);
  }

  /** The twelve corners as the vertices `addVertex` creates. */
  function Vertices(t: real): (vs: seq<Vertex>)
    ensures |vs| == 12
  {
    seq(12, k requires 0 <= k < 12 => NewVertex(Corner(k, t)))
  }

  /** One pass of `subdivide` turns the icosahedron into 42 vertices and 80 faces. */
  lemma OnePass(t: real)
    ensures FacesInRange(12, Triangles)
    ensures var r := Pass(Vertices(t), Triangles, map[]); |r.vertices| == 42 && |r.faces| == 80
  {
    TrianglesWellFormed();
    var empty: Cache := map[];
    PassVertexCount(Vertices(t), Triangles, empty);
    EdgeCount();
    assert EdgeSet(Triangles) - empty.Keys == EdgeSet(Triangles);
  }

  /** The count alone, out of `ThirtyEdges`. */
  lemma EdgeCount()
    ensures |EdgeSet(Triangles)| == 30
  {
    ThirtyEdges();
  }
}
