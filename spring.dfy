/**
 * The Verlet spring mesh behind the second grid prototype: `SpringNode2`
 * (a point with a previous position and an accumulated acceleration),
 * `SpringConstraint2` (a rod of rest length `distance` between two nodes,
 * corrected half from each end) and `SpringSimulation2` (relax every
 * constraint, then integrate every node).
 *
 * Nodes are shared: the same node object is an endpoint of several
 * constraints and an element of the simulation's node list, so the nodes
 * are a class whose position fields the constraints rewrite in place. The
 * whole-mesh behaviour is specified on a value view, a map from node to
 * position, folded over the constraint list.
 */
module Springs {
  import opened GlMath

  /** `mass` of every node. */
  const Mass: real := 100.25
  /** `CONSTRAINT_ITERATIONS`: relaxation sweeps per update. */
  const ConstraintIterations: nat := 1
  /** `TIMESTEP`: 18 ms, in seconds. */
  const TimeStep: real := 18.0 / 1000.0
  /** `DAMPING` and `DRAG = 1 - DAMPING`. */
  const Damping: real := 0.08
  const Drag: real := 1.0 - Damping
  /** `Number.MAX_VALUE`, (2^53 - 1) * 2^971, the starting bound of the nearest-node scan. */
  const MaxValue: real := 179769313486231570814527423731704356798070567525844996598917476803157260780028538760589558632766878171540458953514382464234321326889464182768467546703537516986049910576551282076245490090389328944075868508455133942304583236903222948165808559332123348274797826204144723168738177180919299881250404026184124858368.0

  /** The three vectors `integrate` rewrites. */
  datatype Motion = Motion(position: Vec2, previousPosition: Vec2, acceleration: Vec2)

  /**
   * One `integrate(timesq, drag)`: a fixed node is put back at its original
   * position and keeps its history; a free node takes a Verlet step (the
   * damped previous displacement plus acceleration times `timesq`),
   * remembers where it was, and forgets its acceleration.
   */
  function Integrated(m: Motion, isFixed: bool, original: Vec2, timesq: real, drag: real): (r: Motion)
    ensures isFixed ==> r == m.(position := original)
    ensures !isFixed ==> r.previousPosition == m.position && r.acceleration == Zero2
  {
    if isFixed then m.(position := original) else Motion(Verlet(m, timesq, drag), m.position, Zero2)
  }

  /** Where a free node goes: its position plus the damped displacement plus acceleration times `timesq`. */
  function Verlet(m: Motion, timesq: real, drag: real): Vec2
  {
    Add2(m.position, Add2(Scale2(Sub2(m.position, m.previousPosition), drag), Scale2(m.acceleration, timesq)))
  }

  /**
   * The velocity law of a free node: the new displacement is the old one
   * scaled by `drag`, plus the acceleration scaled by `timesq`.
   */
  lemma IntegratedVelocity(m: Motion, original: Vec2, timesq: real, drag: real)
    ensures var r := Integrated(m, false, original, timesq, drag);
            Sub2(r.position, r.previousPosition)
              == Add2(Scale2(Sub2(m.position, m.previousPosition), drag), Scale2(m.acceleration, timesq))
  {
  }

  /** A free node at rest with no acceleration stays where it is, whatever the drag and step. */
  lemma IntegratedRest(p: Vec2, original: Vec2, timesq: real, drag: real)
    ensures Integrated(Motion(p, p, Zero2), false, original, timesq, drag) == Motion(p, p, Zero2)
  {
  }

  /** Two steps of a free, unaccelerated node shrink its displacement by `drag` twice. */
  lemma IntegratedTwice(m: Motion, original: Vec2, timesq: real, drag: real)
    requires m.acceleration == Zero2
    ensures var r := Integrated(Integrated(m, false, original, timesq, drag), false, original, timesq, drag);
            Sub2(r.position, r.previousPosition) == Scale2(Sub2(m.position, m.previousPosition), drag * drag)
  {
    var r1 := Integrated(m, false, original, timesq, drag);
    IntegratedVelocity(m, original, timesq, drag);
    IntegratedVelocity(r1, original, timesq, drag);
    var d := Sub2(m.position, m.previousPosition);
    assert Sub2(r1.position, r1.previousPosition) == Scale2(d, drag);
    assert (d.x * drag) * drag == d.x * (drag * drag);
    assert (d.y * drag) * drag == d.y * (drag * drag);
  }

  /** `SpringNode2`: a point mass of the mesh. */
  class SpringNode {
    const originalPosition: Vec2
    const mass: real
    const invMass: real
    const isFixed: bool
    var position: Vec2
    var previousPosition: Vec2
    var acceleration: Vec2

    function State(): Motion
      reads this
    {
      Motion(position, previousPosition, acceleration)
    }

    /** `new SpringNode2(x, y, isFixed)`: at rest at (x, y), no acceleration, `invMass = 1 / mass`. */
    constructor(x: real, y: real, isFixed: bool)
      ensures originalPosition == Vec2(x, y) && this.isFixed == isFixed
      ensures position == originalPosition && previousPosition == originalPosition && acceleration == Zero2
      ensures mass == Mass && invMass * mass == 1.0
    {
      originalPosition := Vec2(x, y);
      mass := Mass;
      invMass := 1.0 / Mass;
      this.isFixed := isFixed;
      position := Vec2(x, y);
      previousPosition := Vec2(x, y);
      acceleration := Zero2;
    }

    /** `addForce(force)`: F = m a, so the acceleration grows by `force / mass`. */
    method AddForce(force: Vec2)
      modifies this`acceleration
      ensures acceleration == Add2(old(acceleration), Scale2(force, invMass))
    {
      acceleration := Add2(acceleration, Scale2(force, invMass));
    }

    /** `integrate(timesq, drag)`. */
    method Integrate(timesq: real, drag: real)
      modifies this`position, this`previousPosition, this`acceleration
      ensures State() == Integrated(old(State()), isFixed, originalPosition, timesq, drag)
    {
      if isFixed {
        position := originalPosition;
      } else {
        var temp := Sub2(position, previousPosition);
        temp := Scale2(temp, drag);
        temp := Add2(temp, position);
        acceleration := Scale2(acceleration, timesq);
        temp := Add2(temp, acceleration);
        previousPosition := position;
        position := temp;
        acceleration := Zero2;
      }
    }

    /**
     * `get isRelaxed`: it tests a helper vector `tmp1` that nothing ever
     * assigns, so it is always false.
     */
    function IsRelaxed(): (r: bool)
      ensures !r
    {
      false
    }

    /** `reset()`: back at the original position, at rest. */
    method Reset()
      modifies this`position, this`previousPosition
      ensures position == originalPosition && previousPosition == originalPosition
    {
      position := originalPosition;
      previousPosition := position;
    }
  }

  /**
   * The half correction each end of a rod receives: the separation `pa - pb`
   * scaled by `1 - distance / len`, halved.
   */
  function Correction(pa: Vec2, pb: Vec2, distance: real, len: real): Vec2
    requires len != 0.0
  {
    Scale2(Scale2(Sub2(pa, pb), 1.0 - distance / len), 0.5)
  }

  /**
   * One `satisify()` on endpoint positions `pa` and `pb`: nothing moves when
   * the measured length is 0; otherwise each free end moves by the half
   * correction, `a` against it and `b` along it.
   */
  function Relaxed(pa: Vec2, pb: Vec2, aFixed: bool, bFixed: bool, distance: real, sqrt: real -> real): (r: (Vec2, Vec2))
    ensures aFixed ==> r.0 == pa
    ensures bFixed ==> r.1 == pb
    ensures sqrt(SqrLen2(Sub2(pa, pb))) == 0.0 ==> r == (pa, pb)
  {
    var len := sqrt(SqrLen2(Sub2(pa, pb)));
    if len == 0.0 then (pa, pb)
    else
      var t := Correction(pa, pb, distance, len);
      (if aFixed then pa else Sub2(pa, t), if bFixed then pb else Add2(pb, t))
  }

  /** With both ends free the correction is symmetric: `a + b`, and so the midpoint, is unchanged. */
  lemma RelaxedKeepsMidpoint(pa: Vec2, pb: Vec2, distance: real, sqrt: real -> real)
    ensures var r := Relaxed(pa, pb, false, false, distance, sqrt);
            Add2(r.0, r.1) == Add2(pa, pb)
  {
  }

  /**
   * With both ends free and a nonzero length, the new separation is the old
   * one rescaled by `distance / len`; under the law of `sqrt` its length is
   * then exactly the rest distance.
   */
  lemma RelaxedReachesRest(pa: Vec2, pb: Vec2, distance: real, sqrt: real -> real)
    requires SqrtLaw(sqrt) && distance >= 0.0
    requires sqrt(SqrLen2(Sub2(pa, pb))) != 0.0
    ensures var len := sqrt(SqrLen2(Sub2(pa, pb)));
            var r := Relaxed(pa, pb, false, false, distance, sqrt);
            Sub2(r.0, r.1) == Scale2(Sub2(pa, pb), distance / len) &&
            sqrt(SqrLen2(Sub2(r.0, r.1))) == distance
  {
    var d := Sub2(pa, pb);
    var sq := SqrLen2(d);
    var len := sqrt(sq);
    assert sq >= 0.0;
    var k := 1.0 - distance / len;
    var t := Correction(pa, pb, distance, len);
    assert t == Vec2(d.x * k * 0.5, d.y * k * 0.5);
    var r := Relaxed(pa, pb, false, false, distance, sqrt);
    assert r == (Sub2(pa, t), Add2(pb, t));
    assert Sub2(r.0, r.1) == Scale2(d, distance / len) by {
      assert r.0.x - r.1.x == d.x - d.x * k == d.x * (distance / len);
      assert r.0.y - r.1.y == d.y - d.y * k == d.y * (distance / len);
    }
    var q := distance / len;
    assert len * len == sq;
    assert q * len == distance;
    calc {
      SqrLen2(Scale2(d, q));
      (d.x * q) * (d.x * q) + (d.y * q) * (d.y * q);
      sq * (q * q);
      (len * len) * (q * q);
      (q * len) * (q * len);
      distance * distance;
    }
    SqrtUnique(sqrt, distance * distance, distance);
  }

  /** A rod already at its rest length is left alone. */
  lemma RelaxedAtRest(pa: Vec2, pb: Vec2, aFixed: bool, bFixed: bool, distance: real, sqrt: real -> real)
    requires sqrt(SqrLen2(Sub2(pa, pb))) == distance
    ensures Relaxed(pa, pb, aFixed, bFixed, distance, sqrt) == (pa, pb)
  {
    var len := sqrt(SqrLen2(Sub2(pa, pb)));
    if len != 0.0 {
      assert distance / len == 1.0;
      assert Correction(pa, pb, distance, len) == Zero2;
    }
  }

  /** `SpringConstraint2`: a rod of rest length `distance` from `a` to `b` (`a` may be unset). */
  class SpringConstraint {
    var a: SpringNode?
    const b: SpringNode?
    const distance: real

    /** `new SpringConstraint2(a, b, distance)`. */
    constructor(a: SpringNode?, b: SpringNode?, distance: real)
      ensures this.a == a && this.b == b && this.distance == distance
    {
      this.a := a;
      this.b := b;
      this.distance := distance;
    }

    /**
     * `satisify()`: both ends move as `Relaxed` says, and a fixed end does
     * not move. A rod with both ends on one node has length 0 and moves
     * nothing.
     */
    method Satisfy(sqrt: real -> real)
      requires a != null && b != null
      modifies a`position, b`position
      ensures var r := Relaxed(old(a.position), old(b.position), a.isFixed, b.isFixed, distance, sqrt);
              a.position == r.0 && b.position == r.1
    {
      var temp := Sub2(a.position, b.position);
      var currentDist := sqrt(SqrLen2(temp));
      if currentDist == 0.0 {
        return;
      }
      temp := Scale2(temp, 1.0 - distance / currentDist);
      temp := Scale2(temp, 0.5);
      if !a.isFixed {
        a.position := Sub2(a.position, temp);
      }
      if !b.isFixed {
        b.position := Add2(b.position, temp);
      }
    }
  }

  /** A constraint as the relaxation sees it: its two ends and its rest length. */
  datatype Link = Link(a: SpringNode, b: SpringNode, distance: real)

  /**
   * The first `count` steps of `constraints.forEach(c => c.satisify())` on a
   * map from node to position: the links are relaxed in list order, each
   * against the positions its predecessors left, `b` written after `a`. A
   * link with an end outside the map (which a simulation never holds) is
   * passed over.
   */
  function Relax(pos: map<SpringNode, Vec2>, links: seq<Link>, count: nat, sqrt: real -> real): map<SpringNode, Vec2>
    requires count <= |links|
  {
    if count == 0 then pos
    else
      var before := Relax(pos, links, count - 1, sqrt);
      var l := links[count - 1];
      if l.a in before && l.b in before then
        var ends := Relaxed(before[l.a], before[l.b], l.a.isFixed, l.b.isFixed, l.distance, sqrt);
        before[l.a := ends.0][l.b := ends.1]
      else before
  }

  /** `CONSTRAINT_ITERATIONS` whole sweeps, one after another. */
  function Sweeps(pos: map<SpringNode, Vec2>, links: seq<Link>, count: nat, sqrt: real -> real): map<SpringNode, Vec2>
  {
    if count == 0 then pos else Relax(Sweeps(pos, links, count - 1, sqrt), links, |links|, sqrt)
  }

  /** A sweep never moves a fixed node, nor a node that is the end of no link. */
  lemma {:induction false} RelaxKeeps(pos: map<SpringNode, Vec2>, links: seq<Link>, count: nat, sqrt: real -> real, n: SpringNode)
    requires count <= |links| && n in pos
    requires n.isFixed || forall k :: 0 <= k < |links| ==> links[k].a != n && links[k].b != n
    ensures n in Relax(pos, links, count, sqrt) && Relax(pos, links, count, sqrt)[n] == pos[n]
  {
    if count > 0 {
      RelaxKeeps(pos, links, count - 1, sqrt, n);
    }
  }

  /** The same for any number of whole sweeps. */
  lemma {:induction false} SweepsKeep(pos: map<SpringNode, Vec2>, links: seq<Link>, count: nat, sqrt: real -> real, n: SpringNode)
    requires n in pos
    requires n.isFixed || forall k :: 0 <= k < |links| ==> links[k].a != n && links[k].b != n
    ensures n in Sweeps(pos, links, count, sqrt) && Sweeps(pos, links, count, sqrt)[n] == pos[n]
  {
    if count > 0 {
      SweepsKeep(pos, links, count - 1, sqrt, n);
      RelaxKeeps(Sweeps(pos, links, count - 1, sqrt), links, |links|, sqrt, n);
    }
  }

  /** A sweep over a single rod with two free ends keeps their midpoint. */
  lemma RelaxOneKeepsMidpoint(pos: map<SpringNode, Vec2>, l: Link, sqrt: real -> real)
    requires l.a in pos && l.b in pos && l.a != l.b && !l.a.isFixed && !l.b.isFixed
    ensures var r := Relax(pos, [l], 1, sqrt);
            l.a in r && l.b in r && Add2(r[l.a], r[l.b]) == Add2(pos[l.a], pos[l.b])
  {
    RelaxedKeepsMidpoint(pos[l.a], pos[l.b], l.distance, sqrt);
  }

  /** `timesq = Math.pow(TIMESTEP * timeScale, 2)`: never negative, and 0.018^2 at the nominal frame (`timeScale` 1). */
  function TimeSquared(timeScale: real): (t: real)
    ensures t >= 0.0
    ensures timeScale == 1.0 ==> t == TimeStep * TimeStep
  {
    var step := TimeStep * timeScale;
    ProductNonNegativeSquare(step);
    step * step
  }

  lemma ProductNonNegativeSquare(x: real)
    ensures x * x >= 0.0
  {
    if x < 0.0 {
      assert x * x == (-x) * (-x);
    }
  }

  /** First index whose squared distance is smallest and below `Number.MAX_VALUE`. */
  predicate IsFirstMin(ds: seq<real>, i: nat)
  {
    i < |ds| && ds[i] < MaxValue &&
    (forall j :: 0 <= j < |ds| ==> ds[i] <= ds[j]) &&
    (forall j :: 0 <= j < i ==> ds[i] < ds[j])
  }

  /** No squared distance is below the starting bound, so the scan picks nothing. */
  predicate NoneBelow(ds: seq<real>)
  {
    forall j :: 0 <= j < |ds| ==> ds[j] >= MaxValue
  }

  /** The scan has one answer at most, and never both an answer and none. */
  lemma FirstMinUnique(ds: seq<real>, i: nat, k: nat)
    requires IsFirstMin(ds, i) && IsFirstMin(ds, k)
    ensures i == k && !NoneBelow(ds)
  {
    assert ds[i] < MaxValue;
  }

  /** Nodes list free of repeats. */
  predicate Distinct(nodes: seq<SpringNode>)
  {
    forall i, j :: 0 <= i < j < |nodes| ==> nodes[i] != nodes[j]
  }

  /** `SpringSimulation2`: the node list and the constraint list. */
  class SpringSimulation {
    const nodes: seq<SpringNode>
    var constraints: seq<SpringConstraint>
    /** Every node the update can move: the listed nodes and every constraint end. */
    ghost var bodies: set<SpringNode>
    /** The constraints as the relaxation sees them, in list order. */
    ghost var links: seq<Link>

    /** `new SpringSimulation2(nodes, constraints)`. */
    constructor(nodes: seq<SpringNode>, constraints: seq<SpringConstraint>)
      ensures this.nodes == nodes && this.constraints == constraints
      ensures (forall k :: 0 <= k < |constraints| ==> constraints[k].a != null && constraints[k].b != null) ==> Linked()
    {
      this.nodes := nodes;
      this.constraints := constraints;
      ghost var ls: seq<Link> := [];
      if forall k :: 0 <= k < |constraints| ==> constraints[k].a != null && constraints[k].b != null {
        ls := seq(|constraints|, k requires 0 <= k < |constraints| && constraints[k].a != null && constraints[k].b != null
                                      reads constraints =>
                   Link(constraints[k].a, constraints[k].b, constraints[k].distance));
      }
      links := ls;
      bodies := (set k | 0 <= k < |nodes| :: nodes[k])
              + (set k | 0 <= k < |ls| :: ls[k].a)
              + (set k | 0 <= k < |ls| :: ls[k].b);
    }

    /** The ghost links mirror the constraints, so `satisify` can read both ends, and every node that can move is a body. */
    ghost predicate Linked()
      reads this, constraints
    {
      |links| == |constraints| &&
      (forall k :: 0 <= k < |constraints| ==>
         constraints[k].a == links[k].a && constraints[k].b == links[k].b && constraints[k].distance == links[k].distance) &&
      (forall k :: 0 <= k < |nodes| ==> nodes[k] in bodies) &&
      (forall k :: 0 <= k < |links| ==> links[k].a in bodies && links[k].b in bodies)
    }

    /** Where every body is. */
    ghost function Positions(): map<SpringNode, Vec2>
      reads this, bodies
    {
      map n | n in bodies :: n.position
    }

    /** The squared distance of every node from `position`, in list order. */
    ghost function Distances(position: Vec2): (ds: seq<real>)
      reads nodes
      ensures |ds| == |nodes|
    {
      seq(|nodes|, k requires 0 <= k < |nodes| reads nodes => SqrLen2(Sub2(nodes[k].position, position)))
    }

    /** `reset()`: every node back at its original position, at rest. */
    method Reset()
      modifies nodes`position, nodes`previousPosition
      ensures forall k :: 0 <= k < |nodes| ==>
                nodes[k].position == nodes[k].originalPosition && nodes[k].previousPosition == nodes[k].originalPosition
      ensures forall k :: 0 <= k < |nodes| ==> nodes[k].acceleration == old(nodes[k].acceleration)
    {
      for i := 0 to |nodes|
        invariant forall k :: 0 <= k < i ==>
                    nodes[k].position == nodes[k].originalPosition && nodes[k].previousPosition == nodes[k].originalPosition
        invariant forall k :: 0 <= k < |nodes| ==> nodes[k].acceleration == old(nodes[k].acceleration)
      {
        nodes[i].Reset();
      }
    }

    /** `isRelaxed()`: every node is relaxed, which, as no node ever is, holds only for an empty mesh. */
    function IsRelaxed(): (r: bool)
      reads nodes
      ensures r <==> |nodes| == 0
    {
      assert |nodes| > 0 ==> !nodes[0].IsRelaxed();
      forall k :: 0 <= k < |nodes| ==> nodes[k].IsRelaxed()
    }

    /**
     * `findNearestNode(position)`: the first node of least squared distance,
     * starting from `Number.MAX_VALUE` with a strict `<`; null when no
     * distance is below that bound, in particular for an empty mesh.
     */
    method FindNearestNode(position: Vec2) returns (result: SpringNode?)
      ensures result == null <==> NoneBelow(Distances(position))
      ensures result != null ==> exists i: nat :: IsFirstMin(Distances(position), i) && result == nodes[i]
    {
      ghost var ds := Distances(position);
      ghost var index: nat := 0;
      var minDist := MaxValue;
      result := null;
      for i := 0 to |nodes|
        invariant result == null ==> minDist == MaxValue && forall j :: 0 <= j < i ==> ds[j] >= MaxValue
        invariant result != null ==> index < i && result == nodes[index] && minDist == ds[index] && minDist < MaxValue
        invariant forall j :: 0 <= j < i ==> minDist <= ds[j]
        invariant result != null ==> forall j :: 0 <= j < index ==> minDist < ds[j]
      {
        var dist := SqrLen2(Sub2(nodes[i].position, position));
        assert dist == ds[i];
        if dist < minDist {
          result := nodes[i];
          minDist := dist;
          index := i;
        }
      }
      if result != null {
        assert IsFirstMin(ds, index);
      }
    }

    /** `constraints[i].satisify()`, seen on the map of positions: one more step of the sweep. */
    method SatisfyAt(i: nat, sqrt: real -> real, ghost start: map<SpringNode, Vec2>)
      requires Linked() && i < |constraints|
      requires Positions() == Relax(start, links, i, sqrt)
      modifies bodies`position
      ensures Positions() == Relax(start, links, i + 1, sqrt)
    {
      var c := constraints[i];
      ghost var l := links[i];
      ghost var before := Positions();
      c.Satisfy(sqrt);
      ghost var ends := Relaxed(before[l.a], before[l.b], l.a.isFixed, l.b.isFixed, l.distance, sqrt);
      assert Positions() == before[l.a := ends.0][l.b := ends.1];
    }

    /** One sweep: every constraint relaxed once, in list order; nothing but positions changes. */
    method SatisfyAll(sqrt: real -> real)
      requires Linked()
      modifies bodies`position
      ensures Positions() == Relax(old(Positions()), links, |constraints|, sqrt)
    {
      ghost var start := Positions();
      for i := 0 to |constraints|
        invariant Linked()
        invariant Positions() == Relax(start, links, i, sqrt)
      {
        SatisfyAt(i, sqrt, start);
      }
    }

    /** Every node in the list integrated once, with the same `timesq` and `drag`. */
    method IntegrateAll(timesq: real, drag: real, ghost before: seq<Motion>)
      requires Distinct(nodes) && |before| == |nodes|
      requires forall k :: 0 <= k < |nodes| ==> nodes[k].State() == before[k]
      modifies nodes`position, nodes`previousPosition, nodes`acceleration
      ensures forall k :: 0 <= k < |nodes| ==>
                nodes[k].State() == Integrated(before[k], nodes[k].isFixed, nodes[k].originalPosition, timesq, drag)
    {
      for i := 0 to |nodes|
        invariant forall k :: 0 <= k < i ==>
                    nodes[k].State() == Integrated(before[k], nodes[k].isFixed, nodes[k].originalPosition, timesq, drag)
        invariant forall k :: i <= k < |nodes| ==> nodes[k].State() == before[k]
      {
        nodes[i].Integrate(timesq, drag);
      }
    }

    /** The `CONSTRAINT_ITERATIONS` sweeps of `update`: positions change, nothing else. */
    method SatisfyRepeatedly(sqrt: real -> real)
      requires Linked()
      modifies bodies`position
      ensures Positions() == Sweeps(old(Positions()), links, ConstraintIterations, sqrt)
    {
      ghost var start := Positions();
      for iteration := 0 to ConstraintIterations
        invariant Positions() == Sweeps(start, links, iteration, sqrt)
      {
        SatisfyAll(sqrt);
      }
    }

    /**
     * `update(deltaTime)`: `CONSTRAINT_ITERATIONS` sweeps over the
     * constraints, then a Verlet step of every listed node with
     * `timesq = (TIMESTEP * deltaTime / 16)^2` and `DRAG`. A constraint end
     * outside the list is moved by the sweeps only.
     */
    method Update(deltaTime: real, sqrt: real -> real) returns (ghost swept: map<SpringNode, Vec2>)
      requires Linked() && Distinct(nodes)
      modifies bodies`position, bodies`previousPosition, bodies`acceleration
      ensures swept == Sweeps(old(Positions()), links, ConstraintIterations, sqrt) && swept.Keys == bodies
      ensures forall k :: 0 <= k < |nodes| ==>
                nodes[k].State() == Integrated(Motion(swept[nodes[k]], old(nodes[k].previousPosition), old(nodes[k].acceleration)),
                                               nodes[k].isFixed, nodes[k].originalPosition, TimeSquared(deltaTime / 16.0), Drag)
      ensures forall n :: n in bodies && n !in nodes ==> n.State() == old(n.State()).(position := swept[n])
    {
      SatisfyRepeatedly(sqrt);
      swept := Positions();
      var timeScale := deltaTime / 16.0;
      var timesq := TimeSquared(timeScale);
      ghost var before := seq(|nodes|, k requires 0 <= k < |nodes| => Motion(swept[nodes[k]], old(nodes[k].previousPosition), old(nodes[k].acceleration)));
      IntegrateAll(timesq, Drag, before);
      assert forall k :: 0 <= k < |nodes| ==> before[k] == Motion(swept[nodes[k]], old(nodes[k].previousPosition), old(nodes[k].acceleration));
    }
  }
}
