/**
 * The second 2-D prototype, `InfiniteGridMenu2`: a 5 by 5 spring mesh
 * (nodes 10 px apart, rods of rest length 50 and 100, so the mesh starts
 * compressed), a fixed pointer node, and a pointer constraint that ties the
 * node nearest to the press to the pointer node while the pointer is down.
 *
 * The mesh is described twice: by node index (`Rod`, `CellRods`,
 * `GridRods`), which is what the index arithmetic of `#init` computes, and
 * by the objects the construction loops allocate, tied to the index view by
 * `Matches`.
 */
module GridMenu2 {
  import opened GlMath
  import opened Springs

  /** `clen`: the rest length of a one-cell rod. */
  const CellLength: real := 50.0
  /** `wSeg` and `hSeg`: cells per row and per column. */
  const WidthSegments: nat := 4
  const HeightSegments: nat := 4
  /** `wOff = wSeg + 1`: nodes per row. */
  const RowStride: nat := WidthSegments + 1
  /** `(hSeg + 1) * (wSeg + 1)` nodes. */
  const NodeCount: nat := (HeightSegments + 1) * RowStride
  /** Initial spacing of neighbouring nodes. */
  const NodeSpacing: real := 10.0

  /** Where node `k` starts: column `k % 5`, row `k / 5`, from (400, 400). */
  function NodeOrigin(k: nat): Vec2
  {
    Vec2(400.0 + NodeSpacing * (k % RowStride) as real, 400.0 + NodeSpacing * (k / RowStride) as real)
  }

  /** A constraint of the mesh by node index: from node `i` to node `j`, rest length `distance`. */
  datatype Rod = Rod(i: nat, j: nat, distance: real)

  /** Three pushes going round the triangle `a`, `b`, `c`. */
  function Triangle(a: nat, b: nat, c: nat, distance: real): seq<Rod>
  {
    [Rod(a, b, distance), Rod(b, c, distance), Rod(c, a, distance)]
  }

  /**
   * The six pushes of one cell at offset `span` (1 for the cell grid, 2 for
   * the skip grid): the triangle over the upper-right half of the square,
   * then the triangle over the lower-left half.
   */
  function CellRods(ix: nat, iy: nat, span: nat, distance: real): seq<Rod>
  {
    Triangle(iy * RowStride + ix, iy * RowStride + ix + span, (iy + span) * RowStride + ix + span, distance) +
    Triangle((iy + span) * RowStride + ix + span, (iy + span) * RowStride + ix, iy * RowStride + ix, distance)
  }

  /** The inner loop: the cells `0 <= ix < cols` of row `iy`, in order, six rods each. */
  function RowRods(iy: nat, cols: nat, span: nat, distance: real): seq<Rod>
  {
    seq(6 * cols, k requires 0 <= k < 6 * cols => CellRods(k / 6, iy, span, distance)[k % 6])
  }

  /** One more pass of the inner loop appends that cell's six rods. */
  lemma RowRodsPush(iy: nat, cols: nat, span: nat, distance: real)
    ensures RowRods(iy, cols + 1, span, distance) == RowRods(iy, cols, span, distance) + CellRods(cols, iy, span, distance)
  {
    var longer, shorter, cell := RowRods(iy, cols + 1, span, distance), RowRods(iy, cols, span, distance), CellRods(cols, iy, span, distance);
    forall k | 6 * cols <= k < 6 * cols + 6
      ensures longer[k] == cell[k - 6 * cols]
    {
      assert k / 6 == cols && k % 6 == k - 6 * cols;
    }
    assert longer == shorter + cell;
  }

  /** The outer loop: rows `0 <= iy < rows`, each row's cells in order. */
  function GridRods(cols: nat, rows: nat, span: nat, distance: real): seq<Rod>
  {
    if rows == 0 then [] else GridRods(cols, rows - 1, span, distance) + RowRods(rows - 1, cols, span, distance)
  }

  /** Everything `#init` pushes: the 4 by 4 cell grid at rest 50, then the 3 by 3 skip grid at rest 100. */
  function MeshRods(): seq<Rod>
  {
    GridRods(WidthSegments, HeightSegments, 1, CellLength) +
    GridRods(WidthSegments - 1, HeightSegments - 1, 2, 2.0 * CellLength)
  }

  /** `rs` is the mesh `#init` builds. */
  ghost predicate IsMesh(rs: seq<Rod>)
  {
    rs == MeshRods()
  }

  /** Six rods per cell. */
  lemma {:induction false} GridRodsCount(cols: nat, rows: nat, span: nat, distance: real)
    ensures |GridRods(cols, rows, span, distance)| == 6 * cols * rows
  {
    if rows > 0 {
      GridRodsCount(cols, rows - 1, span, distance);
    }
  }

  /** 96 rods of the cell grid and 54 of the skip grid: 150 constraints. */
  lemma MeshRodsCount()
    ensures |MeshRods()| == 150
  {
    GridRodsCount(WidthSegments, HeightSegments, 1, CellLength);
    GridRodsCount(WidthSegments - 1, HeightSegments - 1, 2, 2.0 * CellLength);
    assert 6 * WidthSegments * HeightSegments == 96;
    assert 6 * (WidthSegments - 1) * (HeightSegments - 1) == 54;
  }

  /** A rod joins two different nodes of the 25, and has the rest length of its grid. */
  predicate RodWithin(r: Rod, distance: real)
  {
    r.i < NodeCount && r.j < NodeCount && r.i != r.j && r.distance == distance
  }

  /** Within the mesh, each cell's rods stay within the 25 nodes and join distinct nodes. */
  lemma CellRodsWithin(ix: nat, iy: nat, span: nat, distance: real)
    requires 1 <= span && ix + span < RowStride && iy + span <= HeightSegments
    ensures forall r :: r in CellRods(ix, iy, span, distance) ==> RodWithin(r, distance)
  {
    assert (iy + span) * RowStride + ix + span <= HeightSegments * RowStride + RowStride - 1;
  }

  lemma RowRodsWithin(iy: nat, cols: nat, span: nat, distance: real)
    requires 1 <= span && cols + span <= RowStride && iy + span <= HeightSegments
    ensures forall r :: r in RowRods(iy, cols, span, distance) ==> RodWithin(r, distance)
  {
    var row := RowRods(iy, cols, span, distance);
    forall k | 0 <= k < |row|
      ensures RodWithin(row[k], distance)
    {
      CellRodsWithin(k / 6, iy, span, distance);
      assert row[k] in CellRods(k / 6, iy, span, distance);
    }
  }

  lemma {:induction false} GridRodsWithin(cols: nat, rows: nat, span: nat, distance: real)
    requires 1 <= span && cols + span <= RowStride && rows + span <= HeightSegments + 1
    ensures forall r :: r in GridRods(cols, rows, span, distance) ==> RodWithin(r, distance)
  {
    if rows > 0 {
      GridRodsWithin(cols, rows - 1, span, distance);
      RowRodsWithin(rows - 1, cols, span, distance);
    }
  }

  /** Every node index `#init` uses is below 25, and no rod has both ends on one node. */
  lemma MeshRodsWithin()
    ensures forall r :: r in MeshRods() ==> r.i < NodeCount && r.j < NodeCount && r.i != r.j
    ensures forall r :: r in MeshRods() ==> r.distance == CellLength || r.distance == 2.0 * CellLength
  {
    GridRodsWithin(WidthSegments, HeightSegments, 1, CellLength);
    GridRodsWithin(WidthSegments - 1, HeightSegments - 1, 2, 2.0 * CellLength);
  }

  /** Node `row * 5 + col` of a row-major 5-wide layout sits at column `col` and row `row`. */
  lemma RowMajor(col: nat, row: nat)
    requires col < RowStride
    ensures (row * RowStride + col) % RowStride == col && (row * RowStride + col) / RowStride == row
  {
  }

  /** Constraint object `c` has the ends and rest length of `rod`, counted in `nodes`. */
  ghost predicate Fits(nodes: seq<SpringNode>, c: SpringConstraint, rod: Rod)
    reads c
  {
    rod.i < |nodes| && rod.j < |nodes| && c.a == nodes[rod.i] && c.b == nodes[rod.j] && c.distance == rod.distance
  }

  /** `cs` are constraint objects that fit `rods`, one for one. */
  ghost predicate Matches(nodes: seq<SpringNode>, cs: seq<SpringConstraint>, rods: seq<Rod>)
    reads cs
  {
    |cs| == |rods| && forall k :: 0 <= k < |cs| ==> Fits(nodes, cs[k], rods[k])
  }

  /** A push that fits its rod keeps the lists matching. */
  lemma MatchesPush(nodes: seq<SpringNode>, cs: seq<SpringConstraint>, rods: seq<Rod>, c: SpringConstraint, rod: Rod)
    requires Matches(nodes, cs, rods) && Fits(nodes, c, rod)
    ensures Matches(nodes, cs + [c], rods + [rod])
  {
    assert forall k :: 0 <= k < |cs| ==> (cs + [c])[k] == cs[k] && (rods + [rod])[k] == rods[k];
  }

  /**
   * The node loops of `#init`: rows `j < 5`, columns `n < 5`, a free node
   * at (400 + 10 n, 400 + 10 j) each, pushed in row-major order.
   */
  method BuildNodes() returns (nodes: seq<SpringNode>)
    ensures |nodes| == NodeCount && Distinct(nodes)
    ensures forall k :: 0 <= k < |nodes| ==> fresh(nodes[k])
    ensures forall k :: 0 <= k < |nodes| ==>
              nodes[k].originalPosition == NodeOrigin(k) && !nodes[k].isFixed &&
              nodes[k].State() == Motion(NodeOrigin(k), NodeOrigin(k), Zero2)
  {
    nodes := [];
    for j := 0 to HeightSegments + 1
      invariant |nodes| == j * RowStride && Distinct(nodes)
      invariant forall k :: 0 <= k < |nodes| ==> fresh(nodes[k])
      invariant forall k :: 0 <= k < |nodes| ==>
                  nodes[k].originalPosition == NodeOrigin(k) && !nodes[k].isFixed &&
                  nodes[k].State() == Motion(NodeOrigin(k), NodeOrigin(k), Zero2)
    {
      for n := 0 to WidthSegments + 1
        invariant |nodes| == j * RowStride + n && Distinct(nodes)
        invariant forall k :: 0 <= k < |nodes| ==> fresh(nodes[k])
        invariant forall k :: 0 <= k < |nodes| ==>
                    nodes[k].originalPosition == NodeOrigin(k) && !nodes[k].isFixed &&
                    nodes[k].State() == Motion(NodeOrigin(k), NodeOrigin(k), Zero2)
      {
        var node := new SpringNode(400.0 + NodeSpacing * n as real, 400.0 + NodeSpacing * j as real, false);
        RowMajor(n, j);
        nodes := nodes + [node];
      }
    }
  }

  /**
   * The six pushes of one cell, with `i1`, `i2`, `i3` recomputed for the
   * second triangle as the source does.
   */
  method PushCell(nodes: seq<SpringNode>, cs: seq<SpringConstraint>, ghost rods: seq<Rod>,
                  ix: nat, iy: nat, span: nat, distance: real)
    returns (result: seq<SpringConstraint>, ghost pushed: seq<Rod>)
    requires 1 <= span && ix + span < RowStride && iy + span <= HeightSegments && |nodes| == NodeCount
    requires Matches(nodes, cs, rods)
    ensures Matches(nodes, result, pushed) && pushed == rods + CellRods(ix, iy, span, distance)
    ensures |result| == |cs| + 6 && result[..|cs|] == cs
  {
    var i1 := iy * RowStride + ix;
    var i2 := iy * RowStride + ix + span;
    var i3 := (iy + span) * RowStride + ix + span;
    assert i3 < NodeCount;
    result, pushed := PushTriangle(nodes, cs, rods, i1, i2, i3, distance);
    ghost var upper := Triangle(i1, i2, i3, distance);
    i1 := (iy + span) * RowStride + ix + span;
    i2 := (iy + span) * RowStride + ix;
    i3 := iy * RowStride + ix;
    result, pushed := PushTriangle(nodes, result, pushed, i1, i2, i3, distance);
    assert rods + (upper + Triangle(i1, i2, i3, distance)) == (rods + upper) + Triangle(i1, i2, i3, distance);
  }

  /** The three pushes going round one triangle. */
  method PushTriangle(nodes: seq<SpringNode>, cs: seq<SpringConstraint>, ghost rods: seq<Rod>,
                      a: nat, b: nat, c: nat, distance: real)
    returns (result: seq<SpringConstraint>, ghost pushed: seq<Rod>)
    requires a < |nodes| && b < |nodes| && c < |nodes| && Matches(nodes, cs, rods)
    ensures Matches(nodes, result, pushed) && pushed == rods + Triangle(a, b, c, distance)
    ensures |result| == |cs| + 3 && result[..|cs|] == cs
  {
    result, pushed := Push(nodes, cs, rods, a, b, distance);
    result, pushed := Push(nodes, result, pushed, b, c, distance);
    result, pushed := Push(nodes, result, pushed, c, a, distance);
    assert rods + [Rod(a, b, distance)] + [Rod(b, c, distance)] + [Rod(c, a, distance)] == rods + Triangle(a, b, c, distance);
  }

  /** `constraints.push(new SpringConstraint2(nodes[i], nodes[j], distance))`. */
  method Push(nodes: seq<SpringNode>, cs: seq<SpringConstraint>, ghost rods: seq<Rod>, i: nat, j: nat, distance: real)
    returns (result: seq<SpringConstraint>, ghost pushed: seq<Rod>)
    requires i < |nodes| && j < |nodes| && Matches(nodes, cs, rods)
    ensures Matches(nodes, result, pushed) && pushed == rods + [Rod(i, j, distance)]
    ensures |result| == |cs| + 1 && result[..|cs|] == cs
  {
    var c := new SpringConstraint(nodes[i], nodes[j], distance);
    pushed := rods + [Rod(i, j, distance)];
    MatchesPush(nodes, cs, rods, c, Rod(i, j, distance));
    result := cs + [c];
  }

  /**
   * One of the two loop nests of `#init`: rows `iy < rows`, cells
   * `ix < cols`, six pushes per cell.
   */
  method PushGrid(nodes: seq<SpringNode>, cs: seq<SpringConstraint>, ghost rods: seq<Rod>,
                  cols: nat, rows: nat, span: nat, distance: real)
    returns (result: seq<SpringConstraint>, ghost pushed: seq<Rod>)
    requires 1 <= span && cols + span <= RowStride && rows + span <= HeightSegments + 1 && |nodes| == NodeCount
    requires Matches(nodes, cs, rods)
    ensures Matches(nodes, result, pushed) && pushed == rods + GridRods(cols, rows, span, distance)
    ensures result[..|cs|] == cs
  {
    result, pushed := cs, rods;
    for iy := 0 to rows
      invariant Matches(nodes, result, pushed) && pushed == rods + GridRods(cols, iy, span, distance)
      invariant |cs| <= |result| && result[..|cs|] == cs
    {
      ghost var done := pushed;
      for ix := 0 to cols
        invariant Matches(nodes, result, pushed) && pushed == done + RowRods(iy, ix, span, distance)
        invariant |cs| <= |result| && result[..|cs|] == cs
      {
        assert done + (RowRods(iy, ix, span, distance) + CellRods(ix, iy, span, distance))
            == (done + RowRods(iy, ix, span, distance)) + CellRods(ix, iy, span, distance);
        RowRodsPush(iy, ix, span, distance);
        result, pushed := PushCell(nodes, result, pushed, ix, iy, span, distance);
      }
      assert rods + (GridRods(cols, iy, span, distance) + RowRods(iy, cols, span, distance))
          == (rods + GridRods(cols, iy, span, distance)) + RowRods(iy, cols, span, distance);
    }
  }

  /**
   * The two constraint loop nests of `#init`: the 4 by 4 cell grid at rest
   * 50, then the 3 by 3 skip grid at rest 100, over the 25 nodes.
   */
  method BuildConstraints(nodes: seq<SpringNode>) returns (cs: seq<SpringConstraint>, ghost rs: seq<Rod>)
    requires |nodes| == NodeCount
    ensures Matches(nodes, cs, rs) && IsMesh(rs)
    ensures |cs| == 150
  {
    var cols, rows, span, distance := WidthSegments, HeightSegments, 1, CellLength;
    cs, rs := PushGrid(nodes, [], [], cols, rows, span, distance);
    ghost var cells := GridRods(cols, rows, span, distance);
    assert rs == cells by { assert [] + cells == cells; }
    cols, rows, span, distance := WidthSegments - 1, HeightSegments - 1, 2, 2.0 * CellLength;
    cs, rs := PushGrid(nodes, cs, rs, cols, rows, span, distance);
    MeshRodsCount();
  }

  /**
   * The simulation `#init` hands its nodes and constraints to, built after
   * the pointer node and constraint `pn` and `pc`, which it does not hold.
   */
  method BuildSimulation(pn: SpringNode, pc: SpringConstraint) returns (sim: SpringSimulation, ghost rs: seq<Rod>)
    ensures fresh(sim) && sim.Linked() && |sim.nodes| == NodeCount && Distinct(sim.nodes)
    ensures pn !in sim.nodes && pc !in sim.constraints
    ensures Matches(sim.nodes, sim.constraints, rs) && IsMesh(rs)
    ensures forall k :: 0 <= k < NodeCount ==>
              sim.nodes[k].originalPosition == NodeOrigin(k) && !sim.nodes[k].isFixed &&
              sim.nodes[k].State() == Motion(NodeOrigin(k), NodeOrigin(k), Zero2)
  {
    var nodes := BuildNodes();
    var cs;
    cs, rs := BuildConstraints(nodes);
    assert forall k :: 0 <= k < |cs| ==> cs[k].a != null && cs[k].b != null by {
      assert forall k :: 0 <= k < |cs| ==> Fits(nodes, cs[k], rs[k]);
    }
    sim := new SpringSimulation(nodes, cs);
  }

  /** `Array.prototype.indexOf`: the first index holding `x`, or -1 when there is none. */
  function IndexOf<T(==)>(s: seq<T>, x: T): (r: int)
    ensures -1 <= r < |s|
    ensures r == -1 <==> x !in s
    ensures 0 <= r ==> s[r] == x && x !in s[..r]
  {
    if |s| == 0 then -1
    else if s[0] == x then 0
    else
      var i := IndexOf(s[1..], x);
      assert s[1..][..i + 1] == s[1..i + 2];
      if i == -1 then -1 else i + 1
  }

  /** `splice(indexOf(x), 1)` when `x` is present: the first `x` removed, the rest kept in order. */
  function Removed<T(==)>(s: seq<T>, x: T): (r: seq<T>)
    ensures x !in s ==> r == s
    ensures x in s ==> |r| == |s| - 1 && multiset(r) == multiset(s) - multiset{x}
  {
    var i := IndexOf(s, x);
    if i > -1 then
      assert s == s[..i] + [s[i]] + s[i + 1..];
      s[..i] + s[i + 1..]
    else s
  }

  /** A push followed by a removal gives the list back, if `x` was not in it before. */
  lemma RemovedPushed<T>(s: seq<T>, x: T)
    requires x !in s
    ensures Removed(s + [x], x) == s
  {
    assert (s + [x])[..|s|] == s;
  }

  /** With the pointer constraint only after the mesh, removing it drops the last copy. */
  lemma RemovedCopy<T>(mesh: seq<T>, s: seq<T>, x: T)
    requires x !in mesh && |mesh| < |s| && s[..|mesh|] == mesh
    requires forall k :: |mesh| <= k < |s| ==> s[k] == x
    ensures Removed(s, x) == s[..|s| - 1]
  {
    assert s[|mesh|] == x && x in s;
    var i := IndexOf(s, x);
    assert s[..i] + s[i + 1..] == s[..|s| - 1];
  }

  /**
   * `InfiniteGridMenu2`: the clock, the pointer state, the fixed pointer
   * node, the one pointer constraint object (pushed onto the simulation's
   * list on every press and spliced out on release) and the simulation.
   * `mesh` and `rods` name the 150 constraints `#init` built and the node
   * indices they were built from.
   */
  class InfiniteGridMenu2 {
    var time: real
    var deltaTime: real
    var frames: real
    var pointerDownPos: Vec2
    var pointerPos: Vec2
    var pointerOffset: Vec2
    var pointerDown: bool
    const pointerNode: SpringNode
    const pointerConstraint: SpringConstraint
    const simulation: SpringSimulation
    ghost const mesh: seq<SpringConstraint>
    ghost const rods: seq<Rod>

    /**
     * The simulation holds the 25 distinct mesh nodes, then the mesh
     * constraints, then zero or more copies of the pointer constraint, which
     * ties a mesh node to the fixed pointer node at rest length 0.
     */
    ghost predicate Valid()
      reads simulation, simulation.constraints, pointerConstraint, mesh
    {
      Shape() && Layout() && simulation.Linked()
    }

    /** What never changes after construction: the nodes, the mesh, the pointer node and constraint. */
    ghost predicate Shape()
      reads mesh
    {
      |simulation.nodes| == NodeCount && Distinct(simulation.nodes) &&
      pointerNode.isFixed && pointerNode !in simulation.nodes &&
      (forall k :: 0 <= k < |simulation.nodes| ==> !simulation.nodes[k].isFixed) &&
      pointerConstraint.b == pointerNode && pointerConstraint.distance == 0.0 &&
      Matches(simulation.nodes, mesh, rods) && (forall k :: 0 <= k < |mesh| ==> mesh[k] != pointerConstraint)
    }

    /** The mesh constraints first, then the copies of the pointer constraint, bound to a mesh node. */
    ghost predicate Layout()
      reads simulation, pointerConstraint
    {
      |mesh| <= |simulation.constraints| &&
      (forall k :: 0 <= k < |mesh| ==> simulation.constraints[k] == mesh[k]) &&
      (forall k :: |mesh| <= k < |simulation.constraints| ==> simulation.constraints[k] == pointerConstraint) &&
      (pointerConstraint.a != null ==> pointerConstraint.a in simulation.nodes) &&
      (|mesh| < |simulation.constraints| ==> pointerConstraint.a != null)
    }

    /** How many copies of the pointer constraint the simulation holds. */
    ghost function PointerCopies(): nat
      reads simulation
    {
      if |mesh| <= |simulation.constraints| then |simulation.constraints| - |mesh| else 0
    }

    /**
     * `new InfiniteGridMenu2(canvas)`: the node and constraint loops of
     * `#init`, the pointer node at the origin and fixed, the pointer
     * constraint with no first end, and a simulation over exactly the mesh.
     */
    constructor ()
      ensures Valid()
      ensures time == 0.0 && deltaTime == 0.0 && frames == 0.0
      ensures pointerDownPos == Zero2 && pointerPos == Zero2 && pointerOffset == Zero2 && !pointerDown
      ensures IsMesh(rods) && simulation.constraints == mesh
      ensures forall k :: 0 <= k < NodeCount ==>
                simulation.nodes[k].originalPosition == NodeOrigin(k) && !simulation.nodes[k].isFixed &&
                simulation.nodes[k].State() == Motion(NodeOrigin(k), NodeOrigin(k), Zero2)
      ensures pointerNode.State() == Motion(Zero2, Zero2, Zero2) && pointerConstraint.a == null
    {
      var pn := new SpringNode(0.0, 0.0, true);
      var pc := new SpringConstraint(null, pn, 0.0);
      var sim, rs := BuildSimulation(pn, pc);
      time, deltaTime, frames := 0.0, 0.0, 0.0;
      pointerDownPos, pointerPos, pointerOffset := Zero2, Zero2, Zero2;
      pointerDown := false;
      pointerNode, pointerConstraint, simulation := pn, pc, sim;
      mesh, rods := sim.constraints, rs;
    }

    /**
     * `#addPointerConstraint`: the nearest node becomes the pointer
     * constraint's first end, the offset from the press to that node is
     * kept, and the constraint is pushed onto the simulation's list (again,
     * if it is already there). With no nearest node, reading `position` of
     * `null` throws before anything changes.
     */
    method AddPointerConstraint() returns (thrown: bool)
      requires Valid()
      modifies this`pointerOffset, pointerConstraint`a, simulation`constraints, simulation`links, simulation`bodies
      ensures Valid()
      ensures thrown <==> NoneBelow(simulation.Distances(pointerDownPos))
      ensures thrown ==> pointerOffset == old(pointerOffset) && pointerConstraint.a == old(pointerConstraint.a) &&
                         simulation.constraints == old(simulation.constraints)
      ensures !thrown ==> simulation.constraints == old(simulation.constraints) + [pointerConstraint] &&
                          PointerCopies() == old(PointerCopies()) + 1
      ensures !thrown ==> pointerConstraint.a != null &&
                          (exists i: nat :: IsFirstMin(simulation.Distances(pointerDownPos), i) && pointerConstraint.a == simulation.nodes[i]) &&
                          pointerOffset == Sub2(pointerConstraint.a.position, pointerDownPos)
    {
      ghost var ds := simulation.Distances(pointerDownPos);
      var nearest := simulation.FindNearestNode(pointerDownPos);
      if nearest == null {
        return true;
      }
      Attach(nearest);
      assert simulation.Distances(pointerDownPos) == ds;
      thrown := false;
    }

    /**
     * The part of `#addPointerConstraint` after the search: `nearest`
     * becomes the pointer constraint's first end and the constraint is
     * pushed.
     */
    method Attach(nearest: SpringNode)
      requires Valid() && nearest in simulation.nodes
      modifies this`pointerOffset, pointerConstraint`a, simulation`constraints, simulation`links, simulation`bodies
      ensures Valid()
      ensures simulation.constraints == old(simulation.constraints) + [pointerConstraint]
      ensures PointerCopies() == old(PointerCopies()) + 1
      ensures pointerConstraint.a == nearest && pointerOffset == Sub2(nearest.position, pointerDownPos)
    {
      pointerOffset := Sub2(nearest.position, pointerDownPos);
      pointerConstraint.a := nearest;
      simulation.constraints := simulation.constraints + [pointerConstraint];
      ghost var bound := Link(nearest, pointerNode, 0.0);
      simulation.links := simulation.links[..|mesh|] + seq(|simulation.constraints| - |mesh|, _ => bound);
      simulation.bodies := simulation.bodies + {pointerNode};
    }

    /**
     * `#removePointerConstraint`: the first copy of the pointer constraint
     * is spliced out, if there is one; the mesh constraints stay in front,
     * in order.
     */
    method RemovePointerConstraint()
      requires Valid()
      modifies simulation`constraints, simulation`links
      ensures Valid()
      ensures simulation.constraints == Removed(old(simulation.constraints), pointerConstraint)
      ensures PointerCopies() == if old(PointerCopies()) == 0 then 0 else old(PointerCopies()) - 1
    {
      ghost var before := simulation.constraints;
      assert |mesh| < |before| ==> before[|mesh|] == pointerConstraint;
      var index := IndexOf(simulation.constraints, pointerConstraint);
      if index > -1 {
        assert index >= |mesh| && before[..|mesh|] == mesh;
        RemovedCopy(mesh, before, pointerConstraint);
        Splice(index);
      }
    }

    /** `splice(index, 1)` on the simulation's list, at a copy of the pointer constraint. */
    method Splice(index: nat)
      requires Valid() && |mesh| <= index < |simulation.constraints|
      modifies simulation`constraints, simulation`links
      ensures Valid()
      ensures simulation.constraints == old(simulation.constraints[..index] + simulation.constraints[index + 1..])
      ensures simulation.constraints == old(simulation.constraints[..|simulation.constraints| - 1])
    {
      ghost var before := simulation.constraints;
      simulation.constraints := simulation.constraints[..index] + simulation.constraints[index + 1..];
      assert simulation.constraints == before[..|before| - 1];
      simulation.links := simulation.links[..|simulation.links| - 1];
    }

    /** The `pointerdown` handler at client point (`x`, `y`). */
    method PointerDown(x: real, y: real) returns (thrown: bool)
      requires Valid()
      modifies this`pointerDownPos, this`pointerPos, this`pointerDown, this`pointerOffset
      modifies pointerConstraint`a, simulation`constraints, simulation`links, simulation`bodies
      ensures Valid()
      ensures pointerDownPos == Vec2(x, y) && pointerPos == pointerDownPos && pointerDown
      ensures thrown <==> NoneBelow(simulation.Distances(pointerDownPos))
      ensures thrown ==> simulation.constraints == old(simulation.constraints)
      ensures !thrown ==> simulation.constraints == old(simulation.constraints) + [pointerConstraint] &&
                          pointerConstraint.a != null &&
                          pointerOffset == Sub2(pointerConstraint.a.position, pointerDownPos)
    {
      pointerDownPos := Vec2(x, y);
      pointerPos := pointerDownPos;
      pointerDown := true;
      thrown := AddPointerConstraint();
    }

    /** The `pointerup` and `pointerleave` handlers, which are the same. */
    method PointerRelease()
      requires Valid()
      modifies this`pointerDown, simulation`constraints, simulation`links
      ensures Valid() && !pointerDown
      ensures simulation.constraints == Removed(old(simulation.constraints), pointerConstraint)
      ensures PointerCopies() == if old(PointerCopies()) == 0 then 0 else old(PointerCopies()) - 1
    {
      pointerDown := false;
      RemovePointerConstraint();
    }

    /** The `pointermove` handler: the pointer follows the event only while down. */
    method PointerMove(x: real, y: real)
      modifies this`pointerPos
      ensures pointerPos == if pointerDown then Vec2(x, y) else old(pointerPos)
    {
      if pointerDown {
        pointerPos := Vec2(x, y);
      }
    }

    /**
     * `#animate`: the pointer node is placed at the pointer plus the offset
     * taken at the press, then the simulation steps. The per-node loop that
     * follows in the source reads each position and does nothing with it.
     */
    method Animate(deltaTime: real, sqrt: real -> real) returns (ghost swept: map<SpringNode, Vec2>)
      requires Valid()
      modifies simulation`bodies, pointerNode`position, pointerNode`previousPosition, pointerNode`acceleration
      modifies simulation.bodies`position, simulation.bodies`previousPosition, simulation.bodies`acceleration
      ensures Valid()
      ensures swept == Sweeps(old(simulation.Positions())[pointerNode := Add2(pointerPos, pointerOffset)],
                              simulation.links, ConstraintIterations, sqrt)
      ensures swept.Keys == simulation.bodies
      ensures pointerNode.State() == old(pointerNode.State()).(position := Add2(pointerPos, pointerOffset))
      ensures forall k :: 0 <= k < |simulation.nodes| ==>
                simulation.nodes[k].State() ==
                Integrated(Motion(swept[simulation.nodes[k]], old(simulation.nodes[k].previousPosition), old(simulation.nodes[k].acceleration)),
                           false, simulation.nodes[k].originalPosition, TimeSquared(deltaTime / 16.0), Drag)
    {
      Place();
      ghost var placed := simulation.Positions();
      swept := simulation.Update(deltaTime, sqrt);
      SweepsKeep(placed, simulation.links, ConstraintIterations, sqrt, pointerNode);
    }

    /** The first step of `#animate`: the pointer node moves to the pointer plus the offset. */
    method Place()
      requires Valid()
      modifies simulation`bodies, pointerNode`position
      ensures Valid() && simulation.bodies == old(simulation.bodies) + {pointerNode}
      ensures simulation.Positions() == old(simulation.Positions())[pointerNode := Add2(pointerPos, pointerOffset)]
      ensures pointerNode.State() == old(pointerNode.State()).(position := Add2(pointerPos, pointerOffset))
    {
      simulation.bodies := simulation.bodies + {pointerNode};
      pointerNode.position := Add2(pointerPos, pointerOffset);
    }

    /**
     * `run(time)`: the frame time is capped at 32 ms, the clock and the
     * frame count advance, and the mesh is animated; drawing and the next
     * animation-frame request are not modelled.
     */
    method Run(time: real, sqrt: real -> real) returns (ghost swept: map<SpringNode, Vec2>)
      requires Valid()
      modifies this`time, this`deltaTime, this`frames
      modifies simulation`bodies, pointerNode`position, pointerNode`previousPosition, pointerNode`acceleration
      modifies simulation.bodies`position, simulation.bodies`previousPosition, simulation.bodies`acceleration
      ensures Valid()
      ensures deltaTime == Min(32.0, time - old(this.time)) && deltaTime <= 32.0 && this.time == time
      ensures frames == old(frames) + deltaTime / 16.0
      ensures pointerNode.position == Add2(pointerPos, pointerOffset)
      ensures swept.Keys == simulation.bodies
      ensures forall k :: 0 <= k < |simulation.nodes| ==>
                simulation.nodes[k].State() ==
                Integrated(Motion(swept[simulation.nodes[k]], old(simulation.nodes[k].previousPosition), old(simulation.nodes[k].acceleration)),
                           false, simulation.nodes[k].originalPosition, TimeSquared(deltaTime / 16.0), Drag)
    {
      deltaTime := Min(32.0, time - this.time);
      this.time := time;
      frames := frames + deltaTime / 16.0;
      ghost var timesq := TimeSquared(deltaTime / 16.0);
      swept := Animate(deltaTime, sqrt);
      assert TimeSquared(deltaTime / 16.0) == timesq;
    }
  }
}
