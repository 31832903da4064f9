/**
 * The first 2-D prototype: a diamond grid of seven coloured items scrolled by
 * a pointer follower. The pointer drags a follower that carries the scroll
 * offset; after release the follower keeps its velocity, which decays by a
 * tenth per frame. The grid holds an even number of items per row and column
 * (enough to cover the viewport plus padding), items wrap around by one grid
 * size when they leave the viewport, and the items cycle through the seven
 * colours in drawing order.
 */
module GridMenu1 {
  import opened GlMath

  /** `GRID_SPACING`. */
  const GridSpacing: real := 300.0
  /** `GRID_ITEM_COUNT_PADDING`: items added on each side. */
  const GridItemCountPadding: nat := 2
  /** `GRID_ITEM_RADIUS`. */
  const GridItemRadius: real := 50.0
  /** `GRID_COLUMN_DIAMOND_OFFSET`. */
  const GridColumnDiamondOffset: real := 0.5
  /** `maxVelocity` of `#animate`. */
  const MaxVelocity: real := 1000.0

  /** A menu item: its label (`label` in the source) and its colour. */
  datatype MenuItem = MenuItem(text: string, color: string)

  /** The seven menu items, in order. */
  const Items: seq<MenuItem> := [
    MenuItem("Red", "#EC7063"), MenuItem("Green", "#5DADE2"), MenuItem("Blue", "#F4D03F"),
    MenuItem("Yellow", "#58D68D"), MenuItem("Magenta", "#AF7AC5"), MenuItem("Yellow", "#566573"),
    MenuItem("Magenta", "#DC7633")]

  datatype GridCount = GridCount(x: nat, y: nat)

  // ---------------------------------------------------------------------------
  // Grid sizing, wrapping and item indices

  /**
   * One grid count: `ceil(viewport / spacing) + 2 * padding`, rounded up to
   * an even number by `2 * ceil(n / 2)`. It is the smallest even number not
   * below the padded count.
   */
  function EvenCount(viewport: real, spacing: real): (n: nat)
    requires viewport >= 0.0 && spacing > 0.0
    ensures n % 2 == 0
    ensures n >= Ceil(viewport / spacing) + 2 * GridItemCountPadding
    ensures n <= Ceil(viewport / spacing) + 2 * GridItemCountPadding + 1
  {
    var m := Ceil(viewport / spacing) + 2 * GridItemCountPadding;
    assert viewport / spacing >= 0.0;
    var k := Ceil(m as real / 2.0);
    assert m as real <= 2.0 * k as real < m as real + 2.0;
    2 * k
  }

  /** Between the even count and the padded count there is no other even number. */
  lemma EvenCountSmallest(viewport: real, spacing: real, e: int)
    requires viewport >= 0.0 && spacing > 0.0
    requires e % 2 == 0 && e >= Ceil(viewport / spacing) + 2 * GridItemCountPadding
    ensures EvenCount(viewport, spacing) <= e
  {
  }

  /**
   * One coordinate after `#wrapPositionComponent`: one grid size back when
   * past the far edge plus an item size, one forward when before the near
   * edge minus an item size, else unchanged.
   */
  function Wrapped(p: real, viewport: real, gridSize: real): (r: real)
    ensures r == p - gridSize || r == p || r == p + gridSize
    ensures -2.0 * GridItemRadius <= p <= viewport + 2.0 * GridItemRadius ==> r == p
  {
    var gridItemSize := GridItemRadius * 2.0;
    if p > viewport + gridItemSize then p - gridSize
    else if p < -gridItemSize then p + gridSize
    else p
  }

  /**
   * With a grid at least as large as the viewport plus an item on each side,
   * a wrapped coordinate never jumps past the opposite edge's margin.
   */
  lemma WrappedStaysNear(p: real, viewport: real, gridSize: real)
    requires viewport >= 0.0
    requires gridSize >= viewport + 4.0 * GridItemRadius
    requires p <= viewport + 2.0 * GridItemRadius + gridSize
    requires p >= -2.0 * GridItemRadius - gridSize
    ensures -2.0 * GridItemRadius - gridSize <= Wrapped(p, viewport, gridSize)
    ensures Wrapped(p, viewport, gridSize) <= viewport + 2.0 * GridItemRadius + gridSize
    ensures p > viewport + 2.0 * GridItemRadius ==> Wrapped(p, viewport, gridSize) <= p
    ensures p < -2.0 * GridItemRadius ==> Wrapped(p, viewport, gridSize) >= p
  {
  }

  /** `(iX + iY * countX) % items.length`: always a valid item. */
  function ItemIndex(iX: nat, iY: nat, countX: nat): (i: nat)
    ensures i < |Items|
  {
    (iX + iY * countX) % |Items|
  }

  // ---------------------------------------------------------------------------
  // The follower

  /** The pointer velocity of a frame: the damped gap to the pointer while down, else the old velocity times 0.9. */
  function NewVelocity(down: bool, pointerPos: Vec2, follower: Vec2, velocity: Vec2, timeScale: real): Vec2
  {
    if down then Scale2(Sub2(pointerPos, follower), 0.3 * timeScale) else Scale2(velocity, 0.9)
  }

  /** `min(maxVelocity, length(v)) / maxVelocity`. */
  function SpeedLevel(v: Vec2, sqrt: real -> real): real
  {
    Min(MaxVelocity, sqrt(SqrLen2(v))) / MaxVelocity
  }

  /** The eased speed level, capped at 0.1. */
  function LengthFollower(previous: real, level: real, timeScale: real): (f: real)
    ensures f <= 0.1
  {
    Min(0.1, previous + (level - previous) * (0.4 * timeScale))
  }

  /**
   * The speed level lies in [0, 1], and for a time scale of at most 2.5 the
   * length follower stays in [0, 0.1] once it starts there.
   */
  lemma LengthFollowerRange(previous: real, v: Vec2, timeScale: real, sqrt: real -> real)
    requires SqrtLaw(sqrt)
    requires 0.0 <= previous <= 0.1 && 0.0 <= timeScale <= 2.5
    ensures 0.0 <= SpeedLevel(v, sqrt) <= 1.0
    ensures 0.0 <= LengthFollower(previous, SpeedLevel(v, sqrt), timeScale) <= 0.1
  {
    assert SqrLen2(v) >= 0.0 by { assert v.x * v.x >= 0.0 && v.y * v.y >= 0.0; }
    assert sqrt(SqrLen2(v)) >= 0.0;
    var level := SpeedLevel(v, sqrt);
    assert 0.0 <= level <= 1.0;
    var k := 0.4 * timeScale;
    assert 0.0 <= k <= 1.0;
    assert previous + (level - previous) * k == previous * (1.0 - k) + level * k;
    ProductNonNegative(previous, 1.0 - k);
    ProductNonNegative(level, k);
  }

  /** A pressed pointer that has not moved off the follower gives no velocity, so the follower stays. */
  lemma StillPress(p: Vec2, velocity: Vec2, timeScale: real)
    ensures NewVelocity(true, p, p, velocity, timeScale) == Zero2
    ensures Add2(p, NewVelocity(true, p, p, velocity, timeScale)) == p
  {
  }

  /** With the pointer up the velocity after `n` frames is the velocity times 0.9^n. */
  function Decay(n: nat): (r: real)
    ensures 0.0 < r <= 1.0
  {
    if n == 0 then 1.0 else 0.9 * Decay(n - 1)
  }

  /** The velocity after `n` frames with the pointer up. */
  function Coast(velocity: Vec2, n: nat): Vec2
  {
    if n == 0 then velocity else NewVelocity(false, Zero2, Zero2, Coast(velocity, n - 1), 0.0)
  }

  lemma {:induction false} CoastDecays(velocity: Vec2, n: nat)
    ensures Coast(velocity, n) == Scale2(velocity, Decay(n))
  {
    if n > 0 {
      CoastDecays(velocity, n - 1);
      assert velocity.x * Decay(n - 1) * 0.9 == velocity.x * Decay(n);
      assert velocity.y * Decay(n - 1) * 0.9 == velocity.y * Decay(n);
    }
  }

  class InfiniteGridMenu1 {
    var time: real
    var deltaTime: real
    var frames: real
    var viewportSize: Vec2
    const gridSpacingScale: real
    const gridSpacing: Vec2
    var gridItemCount: GridCount
    var gridSize: Vec2
    var scrollOffset: Vec2
    var pointerDownScrollOffset: Vec2
    var pointerDownPos: Vec2
    var pointerPos: Vec2
    var pointerFollowerPos: Vec2
    var pointerVelocity: Vec2
    var pointerVelocityLengthFollower: real
    var pointerDown: bool

    /** The spacing is positive and the viewport non-negative. */
    ghost predicate Valid()
      reads this
    {
      gridSpacing.x > 0.0 && gridSpacing.y > 0.0 && viewportSize.x >= 0.0 && viewportSize.y >= 0.0
    }

    /**
     * `new InfiniteGridMenu1(canvas)` on a `w` by `h` canvas: row spacing
     * `300 * sqrt(3) / 2`, column spacing 300, scroll offset at the viewport
     * centre, pointer state at rest, then a first `resize`.
     */
    constructor (w: real, h: real, sqrt: real -> real)
      requires SqrtLaw(sqrt) && w >= 0.0 && h >= 0.0
      ensures Valid()
      ensures time == 0.0 && deltaTime == 0.0 && frames == 0.0
      ensures viewportSize == Vec2(w, h) && gridSpacingScale == 1.0
      ensures gridSpacing == Vec2(GridSpacing * (sqrt(3.0) / 2.0), GridSpacing)
      ensures gridItemCount == GridCount(EvenCount(w, gridSpacing.x), EvenCount(h, gridSpacing.y))
      ensures gridSize == Zero2
      ensures scrollOffset == Vec2(w / 2.0, h / 2.0) && pointerDownScrollOffset == scrollOffset
      ensures pointerDownPos == Zero2 && pointerPos == Zero2 && pointerFollowerPos == Zero2
      ensures pointerVelocity == Zero2 && pointerVelocityLengthFollower == 0.0 && !pointerDown
    {
      SqrtPositive(sqrt, 3.0);
      time, deltaTime, frames := 0.0, 0.0, 0.0;
      viewportSize := Vec2(w, h);
      gridSpacingScale := 1.0;
      gridSpacing := Vec2(GridSpacing * (sqrt(3.0) / 2.0), GridSpacing);
      gridItemCount := GridCount(0, 0);
      gridSize := Zero2;
      scrollOffset := Vec2(w / 2.0, h / 2.0);
      pointerDownScrollOffset := scrollOffset;
      pointerDownPos := Zero2;
      pointerPos := Zero2;
      pointerFollowerPos := Zero2;
      pointerVelocity := Zero2;
      pointerVelocityLengthFollower := 0.0;
      pointerDown := false;
      new;
      Resize(w, h);
    }

    /** `resize` on a `w` by `h` canvas: the new viewport and grid counts. */
    method Resize(w: real, h: real)
      requires Valid() && w >= 0.0 && h >= 0.0
      modifies this`viewportSize, this`gridItemCount
      ensures Valid() && viewportSize == Vec2(w, h)
      ensures gridItemCount == GridCount(EvenCount(w, gridSpacing.x), EvenCount(h, gridSpacing.y))
    {
      viewportSize := Vec2(w, h);
      ResizeItemGrid();
    }

    /** `#resizeItemGrid`: both counts padded and rounded up to even numbers. */
    method ResizeItemGrid()
      requires Valid()
      modifies this`gridItemCount
      ensures gridItemCount == GridCount(EvenCount(viewportSize.x, gridSpacing.x), EvenCount(viewportSize.y, gridSpacing.y))
      ensures gridItemCount.x % 2 == 0 && gridItemCount.y % 2 == 0
    {
      var cx := Ceil(viewportSize.x / gridSpacing.x) + GridItemCountPadding * 2;
      var cy := Ceil(viewportSize.y / gridSpacing.y) + GridItemCountPadding * 2;
      gridItemCount := GridCount(EvenCount(viewportSize.x, gridSpacing.x), EvenCount(viewportSize.y, gridSpacing.y));
      assert gridItemCount.x == 2 * Ceil(cx as real / 2.0);
      assert gridItemCount.y == 2 * Ceil(cy as real / 2.0);
    }

    /** `pointerdown`: snapshot the scroll offset, and put the pointer and its follower at the event point. */
    method PointerDown(x: real, y: real)
      modifies this`pointerDownScrollOffset, this`pointerDownPos, this`pointerPos
      modifies this`pointerFollowerPos, this`pointerDown
      ensures pointerDownScrollOffset == scrollOffset
      ensures pointerDownPos == Vec2(x, y) && pointerPos == pointerDownPos && pointerFollowerPos == pointerPos
      ensures pointerDown
    {
      pointerDownScrollOffset := scrollOffset;
      pointerDownPos := Vec2(x, y);
      pointerPos := pointerDownPos;
      pointerFollowerPos := pointerPos;
      pointerDown := true;
    }

    /** `pointerup` and `pointerleave`: the pointer is up. */
    method PointerRelease()
      modifies this`pointerDown
      ensures !pointerDown
    {
      pointerDown := false;
    }

    /** `pointermove`: the pointer follows the event only while down. */
    method PointerMove(x: real, y: real)
      modifies this`pointerPos
      ensures pointerPos == if pointerDown then Vec2(x, y) else old(pointerPos)
    {
      if pointerDown {
        pointerPos := Vec2(x, y);
      }
    }

    /**
     * `#animate(deltaTime)`: the new velocity moves the follower, the speed
     * level is eased into the capped length follower, and the scroll offset
     * is the press-time offset moved by the follower's travel since the press.
     */
    method Animate(deltaTime: real, sqrt: real -> real)
      modifies this`pointerVelocity, this`pointerFollowerPos, this`pointerVelocityLengthFollower, this`scrollOffset
      ensures pointerVelocity == NewVelocity(pointerDown, pointerPos, old(pointerFollowerPos), old(pointerVelocity), deltaTime / 16.0)
      ensures pointerFollowerPos == Add2(old(pointerFollowerPos), pointerVelocity)
      ensures pointerVelocityLengthFollower ==
                LengthFollower(old(pointerVelocityLengthFollower), SpeedLevel(pointerVelocity, sqrt), deltaTime / 16.0)
      ensures pointerVelocityLengthFollower <= 0.1
      ensures scrollOffset == Add2(pointerDownScrollOffset, Sub2(pointerFollowerPos, pointerDownPos))
    {
      var timeScale := deltaTime / 16.0;
      StepFollower(timeScale);
      StepLengthFollower(timeScale, sqrt);
      var pointerOffset := Sub2(pointerFollowerPos, pointerDownPos);
      scrollOffset := Add2(pointerDownScrollOffset, pointerOffset);
    }

    /** The velocity and follower half of `#animate`. */
    method StepFollower(timeScale: real)
      modifies this`pointerVelocity, this`pointerFollowerPos
      ensures pointerVelocity == NewVelocity(pointerDown, pointerPos, old(pointerFollowerPos), old(pointerVelocity), timeScale)
      ensures pointerFollowerPos == Add2(old(pointerFollowerPos), pointerVelocity)
    {
      var pointerFollowerDamping := 0.3 * timeScale;
      if pointerDown {
        pointerVelocity := Vec2((pointerPos.x - pointerFollowerPos.x) * pointerFollowerDamping,
                                (pointerPos.y - pointerFollowerPos.y) * pointerFollowerDamping);
      } else {
        pointerVelocity := Scale2(pointerVelocity, 0.9);
      }
      pointerFollowerPos := Vec2(pointerFollowerPos.x + pointerVelocity.x, pointerFollowerPos.y + pointerVelocity.y);
    }

    /** The speed half of `#animate`: the eased speed level, capped at 0.1. */
    method StepLengthFollower(timeScale: real, sqrt: real -> real)
      modifies this`pointerVelocityLengthFollower
      ensures pointerVelocityLengthFollower ==
                LengthFollower(old(pointerVelocityLengthFollower), SpeedLevel(pointerVelocity, sqrt), timeScale)
    {
      var pointerVelocityLength := Min(MaxVelocity, sqrt(SqrLen2(pointerVelocity))) / MaxVelocity;
      var pointerVelocityLengthDamping := 0.4 * timeScale;
      pointerVelocityLengthFollower := pointerVelocityLengthFollower +
        (pointerVelocityLength - pointerVelocityLengthFollower) * pointerVelocityLengthDamping;
      pointerVelocityLengthFollower := Min(0.1, pointerVelocityLengthFollower);
    }

    /**
     * `run(time)`: the clamped delta, a frame count in 16 ms frames, one
     * `#animate` and one `#render`, which returns the item index of each cell.
     */
    method Run(time: real, sqrt: real -> real) returns (itemIndices: seq<nat>)
      modifies this`time, this`deltaTime, this`frames
      modifies this`pointerVelocity, this`pointerFollowerPos, this`pointerVelocityLengthFollower, this`scrollOffset
      modifies this`gridSize
      ensures deltaTime == Min(32.0, time - old(this.time)) && deltaTime <= 32.0 && this.time == time
      ensures frames == old(frames) + deltaTime / 16.0
      ensures pointerVelocity == NewVelocity(pointerDown, pointerPos, old(pointerFollowerPos), old(pointerVelocity), deltaTime / 16.0)
      ensures pointerFollowerPos == Add2(old(pointerFollowerPos), pointerVelocity)
      ensures pointerVelocityLengthFollower ==
                LengthFollower(old(pointerVelocityLengthFollower), SpeedLevel(pointerVelocity, sqrt), deltaTime / 16.0)
      ensures scrollOffset == Add2(pointerDownScrollOffset, Sub2(pointerFollowerPos, pointerDownPos))
      ensures gridSize == Vec2(gridSpacing.x * gridSpacingScale * gridItemCount.x as real,
                               gridSpacing.y * gridSpacingScale * gridItemCount.y as real)
      ensures |itemIndices| == gridItemCount.x * gridItemCount.y
      ensures forall k :: 0 <= k < |itemIndices| ==> itemIndices[k] == k % |Items|
    {
      deltaTime := Min(32.0, time - this.time);
      this.time := time;
      frames := frames + deltaTime / 16.0;
      Animate(deltaTime, sqrt);
      itemIndices := Render();
    }

    /**
     * The part of `#render` that is not drawing: the grid size becomes
     * spacing times count, and the nested loops visit row after row, giving
     * each cell the item `(iX + iY * countX) % 7`. In drawing order that is
     * the cell's position modulo 7: the items cycle through the colours.
     */
    method Render() returns (itemIndices: seq<nat>)
      modifies this`gridSize
      ensures gridSize == Vec2(gridSpacing.x * gridSpacingScale * gridItemCount.x as real,
                               gridSpacing.y * gridSpacingScale * gridItemCount.y as real)
      ensures |itemIndices| == gridItemCount.x * gridItemCount.y
      ensures forall k :: 0 <= k < |itemIndices| ==> itemIndices[k] == k % |Items|
    {
      var spacing := Vec2(gridSpacing.x * gridSpacingScale, gridSpacing.y * gridSpacingScale);
      gridSize := Vec2(spacing.x * gridItemCount.x as real, spacing.y * gridItemCount.y as real);
      var countX := gridItemCount.x;
      itemIndices := [];
      for iY := 0 to gridItemCount.y
        invariant |itemIndices| == iY * countX
        invariant forall k :: 0 <= k < |itemIndices| ==> itemIndices[k] == k % |Items|
      {
        for iX := 0 to countX
          invariant |itemIndices| == iY * countX + iX
          invariant forall k :: 0 <= k < |itemIndices| ==> itemIndices[k] == k % |Items|
        {
          var itemIndex := ItemIndex(iX, iY, countX);
          itemIndices := itemIndices + [itemIndex];
        }
      }
    }

    /** `#wrapPositionComponent(position, ndx)`: only component `ndx` of the position changes. */
    method WrapPositionComponent(position: array<real>, ndx: nat)
      requires position.Length == 2 && ndx < 2
      modifies position
      ensures ndx == 0 ==> position[0] == Wrapped(old(position[0]), viewportSize.x, gridSize.x) && position[1] == old(position[1])
      ensures ndx == 1 ==> position[1] == Wrapped(old(position[1]), viewportSize.y, gridSize.y) && position[0] == old(position[0])
    {
      var gridItemSize := GridItemRadius * 2.0;
      var viewport := if ndx == 0 then viewportSize.x else viewportSize.y;
      var size := if ndx == 0 then gridSize.x else gridSize.y;
      if position[ndx] > viewport + gridItemSize {
        position[ndx] := position[ndx] - size;
      } else if position[ndx] < -gridItemSize {
        position[ndx] := position[ndx] + size;
      }
    }
  }
}
