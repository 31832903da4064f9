/**
 * The nearest-anchor search that the arcball controller and every sphere
 * menu repeat: scan the anchor positions in order, score each by its dot
 * product with a direction `nt`, start from a best score of -1 and replace
 * the candidate only on a strictly larger score. The result is the first
 * index of maximal score, or nothing when no score exceeds -1.
 */
module Nearest {
  import opened GlMath

  /** `i` is the first index of maximal score, and that score exceeds -1. */
  predicate IsFirstMax(nt: Vec3, ps: seq<Vec3>, i: nat)
  {
    i < |ps| && Dot3(nt, ps[i]) > -1.0 &&
    (forall j :: 0 <= j < |ps| ==> Dot3(nt, ps[j]) <= Dot3(nt, ps[i])) &&
    (forall j :: 0 <= j < i ==> Dot3(nt, ps[j]) < Dot3(nt, ps[i]))
  }

  /** No score exceeds the starting bound -1, so the scan never picks a candidate. */
  predicate NoneAbove(nt: Vec3, ps: seq<Vec3>)
  {
    forall j :: 0 <= j < |ps| ==> Dot3(nt, ps[j]) <= -1.0
  }

  /** The scan has at most one answer: two first maxima are the same index. */
  lemma FirstMaxUnique(nt: Vec3, ps: seq<Vec3>, i: nat, k: nat)
    requires IsFirstMax(nt, ps, i) && IsFirstMax(nt, ps, k)
    ensures i == k
  {
  }

  /** Either no score exceeds -1 or there is a first maximum, never both. */
  lemma FirstMaxOrNone(nt: Vec3, ps: seq<Vec3>, i: nat)
    requires IsFirstMax(nt, ps, i)
    ensures !NoneAbove(nt, ps)
  {
    assert Dot3(nt, ps[i]) > -1.0;
  }

  /**
   * The loop of `#findNearestVertexIndex`: the index of the candidate with
   * the largest dot product, kept only while strictly larger; `None` is the
   * `undefined` the loop leaves when no candidate beats -1.
   */
  method FirstMax(nt: Vec3, ps: seq<Vec3>) returns (index: Option<nat>)
    ensures index.None? <==> NoneAbove(nt, ps)
    ensures index.Some? ==> IsFirstMax(nt, ps, index.value)
  {
    var maxD := -1.0;
    index := None;
    for i := 0 to |ps|
      invariant index.None? ==> maxD == -1.0 && forall j :: 0 <= j < i ==> Dot3(nt, ps[j]) <= -1.0
      invariant index.Some? ==> index.value < i && maxD == Dot3(nt, ps[index.value]) && maxD > -1.0
      invariant forall j :: 0 <= j < i ==> Dot3(nt, ps[j]) <= maxD
      invariant index.Some? ==> forall j :: 0 <= j < index.value ==> Dot3(nt, ps[j]) < maxD
    {
      var d := Dot3(nt, ps[i]);
      if d > maxD {
        maxD := d;
        index := Some(i);
      }
    }
    if index.Some? {
      FirstMaxOrNone(nt, ps, index.value);
    }
  }

  /**
   * The same loop tracking the winning position beside its index, as
   * `#findNearestSnapDirection` does: the position is always the entry at
   * the index.
   */
  method FirstMaxWithPosition(nt: Vec3, ps: seq<Vec3>) returns (index: Option<nat>, position: Option<Vec3>)
    ensures index.None? <==> NoneAbove(nt, ps)
    ensures index.Some? ==> IsFirstMax(nt, ps, index.value)
    ensures position == if index.Some? then Some(ps[index.value]) else None
  {
    var maxD := -1.0;
    index, position := None, None;
    for i := 0 to |ps|
      invariant index.None? ==> maxD == -1.0 && forall j :: 0 <= j < i ==> Dot3(nt, ps[j]) <= -1.0
      invariant index.Some? ==> index.value < i && maxD == Dot3(nt, ps[index.value]) && maxD > -1.0
      invariant forall j :: 0 <= j < i ==> Dot3(nt, ps[j]) <= maxD
      invariant index.Some? ==> forall j :: 0 <= j < index.value ==> Dot3(nt, ps[j]) < maxD
      invariant position == if index.Some? then Some(ps[index.value]) else None
    {
      var d := Dot3(nt, ps[i]);
      if d > maxD {
        maxD := d;
        index := Some(i);
        position := Some(ps[i]);
      }
    }
    if index.Some? {
      FirstMaxOrNone(nt, ps, index.value);
    }
  }

  /**
   * The direction the menus and the controller search along: the snap
   * direction `n` carried into model space by the inverse (conjugate) of the
   * orientation.
   */
  function ModelSpaceNormal(n: Vec3, orientation: Quat, lib: Routines): Vec3
  {
    lib.transformQuat(n, Conjugate(orientation))
  }

  /** The chosen anchor carried back to world space and normalized: the new snap target. */
  function WorldDirection(p: Vec3, orientation: Quat, lib: Routines): Vec3
  {
    lib.normalize3(lib.transformQuat(p, orientation))
  }
}
