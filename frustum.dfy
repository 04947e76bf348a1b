/** The camera's frustum test: does a sprite at a view-space position
    overlap the visible area? Camera and sprite positions are integers;
    the render-cell sprite dimensions are parameters. */
module Frustum {
  import opened JavaInt

  /** Sprite dimensions of a render cell in view-space pixels: half the
      sprite width, the height of a cell and its depth. */
  datatype CellSize = CellSize(viewWidth2: int, viewHeight: int, viewDepth: int)

  predicate PositiveCell(c: CellSize) {
    c.viewWidth2 > 0 && c.viewHeight > 0 && c.viewDepth > 0
  }

  /** The open intervals (lo1, hi1) and (lo2, hi2) overlap. */
  predicate Overlap(lo1: int, hi1: int, lo2: int, hi2: int) {
    lo1 < hi2 && lo2 < hi1
  }

  /** The sprite at view-space height `vspY` spans from two cell heights
      below it to a cell's height and depth above it, and that span overlaps
      the camera's vertical extent around `camY`. */
  predicate VerticallyVisible(camY: int, heightAfterProj: int, vspY: int, cell: CellSize) {
    Overlap(vspY - 2 * cell.viewHeight, vspY + cell.viewHeight + cell.viewDepth,
            camY - ShiftRight1(heightAfterProj), camY + ShiftRight1(heightAfterProj))
  }

  /** Half the camera width plus half a sprite: the horizontal reach of the
      visible area from the camera's centre. */
  function HorizontalReach(widthAfterProj: int, cell: CellSize): int {
    ShiftRight1(widthAfterProj) + cell.viewWidth2
  }

  /** Comparing squares compares distances from zero. */
  lemma SquareLessIffAbsLess(a: int, b: int)
    ensures a * a < b * b <==> Abs(a) < Abs(b)
  {
    var m, n := Abs(a), Abs(b);
    assert a * a == m * m;
    assert b * b == n * n;
    if m < n {
      MulMonotone(m, n, m);
      MulStrict(m, n, n);
    } else {
      MulMonotone(n, m, n);
      MulMonotone(n, m, m);
    }
  }

  lemma MulStrict(x: nat, y: nat, z: nat)
    requires x < y && z > 0
    ensures x * z < y * z
  {
  }

  /** The frustum test with unbounded integers: the sprite is visible when
      it overlaps the camera vertically and its horizontal distance from the
      camera centre is strictly below the horizontal reach (the test compares
      squares to avoid a square root). */
  function InView(camX: int, camY: int, widthAfterProj: int, heightAfterProj: int,
                  vspX: int, vspY: int, cell: CellSize): (r: bool)
    ensures r <==> VerticallyVisible(camY, heightAfterProj, vspY, cell)
                   && Abs(vspX - camX) < Abs(HorizontalReach(widthAfterProj, cell))
  {
    if !(camY + ShiftRight1(heightAfterProj) > vspY - 2 * cell.viewHeight
         && vspY + cell.viewHeight + cell.viewDepth > camY - ShiftRight1(heightAfterProj)) then
      false
    else
      var dist := vspX - camX;
      var reach := HorizontalReach(widthAfterProj, cell);
      SquareLessIffAbsLess(dist, reach);
      dist * dist < reach * reach
  }

  /** A sprite exactly at the camera centre is visible whenever the camera's
      extents are non-negative. */
  lemma CentreIsVisible(camX: int, camY: int, widthAfterProj: int, heightAfterProj: int, cell: CellSize)
    requires PositiveCell(cell)
    requires widthAfterProj >= 0 && heightAfterProj >= 0
    ensures InView(camX, camY, widthAfterProj, heightAfterProj, camX, camY, cell)
  {
  }

  /** The horizontal bound is exclusive: a sprite at exactly the horizontal
      reach, on either side, is culled. */
  lemma ReachIsExcluded(camX: int, camY: int, widthAfterProj: int, heightAfterProj: int, vspY: int, cell: CellSize)
    requires HorizontalReach(widthAfterProj, cell) >= 0
    ensures !InView(camX, camY, widthAfterProj, heightAfterProj, camX + HorizontalReach(widthAfterProj, cell), vspY, cell)
    ensures !InView(camX, camY, widthAfterProj, heightAfterProj, camX - HorizontalReach(widthAfterProj, cell), vspY, cell)
  {
  }

  /** The test is symmetric about the camera centre horizontally. */
  lemma MirrorSymmetric(camX: int, camY: int, widthAfterProj: int, heightAfterProj: int, d: int, vspY: int, cell: CellSize)
    ensures InView(camX, camY, widthAfterProj, heightAfterProj, camX + d, vspY, cell)
        == InView(camX, camY, widthAfterProj, heightAfterProj, camX - d, vspY, cell)
  {
  }

  /** The frustum test as the source computes it: the two squares are
      32-bit `int` products and wrap around. */
  function InViewAsWritten(camX: int, camY: int, widthAfterProj: int, heightAfterProj: int,
                           vspX: int, vspY: int, cell: CellSize): (r: bool)
    ensures r ==> VerticallyVisible(camY, heightAfterProj, vspY, cell)
    ensures Abs(vspX - camX) == Abs(HorizontalReach(widthAfterProj, cell)) ==> !r
  {
    if !VerticallyVisible(camY, heightAfterProj, vspY, cell) then false
    else
      var dist := vspX - camX;
      var reach := HorizontalReach(widthAfterProj, cell);
      assert Abs(dist) == Abs(reach) ==> dist * dist == reach * reach by {
        assert dist * dist == Abs(dist) * Abs(dist);
        assert reach * reach == Abs(reach) * Abs(reach);
      }
      Int32(dist * dist) < Int32(reach * reach)
  }

  /** The largest distance whose square fits a Java `int`. */
  const MaxSquarable := 46340

  /** While distance and reach stay within 46340 pixels, the as-written test
      and the intended one agree. */
  lemma AsWrittenAgreesInRange(camX: int, camY: int, widthAfterProj: int, heightAfterProj: int,
                               vspX: int, vspY: int, cell: CellSize)
    requires Abs(vspX - camX) <= MaxSquarable
    requires Abs(HorizontalReach(widthAfterProj, cell)) <= MaxSquarable
    ensures InViewAsWritten(camX, camY, widthAfterProj, heightAfterProj, vspX, vspY, cell)
        == InView(camX, camY, widthAfterProj, heightAfterProj, vspX, vspY, cell)
  {
    var dist := vspX - camX;
    var reach := HorizontalReach(widthAfterProj, cell);
    SquareBound(dist);
    SquareBound(reach);
  }

  /** The square of an integer up to 46340 away from zero fits a Java `int`. */
  lemma SquareBound(a: int)
    requires Abs(a) <= MaxSquarable
    ensures 0 <= a * a < 0x8000_0000
  {
    var m := Abs(a);
    assert a * a == m * m;
    MulMonotone(m, MaxSquarable, m);
    MulMonotone(m, MaxSquarable, MaxSquarable);
    assert MaxSquarable * MaxSquarable == 2147395600;
  }

  lemma MulMonotone(x: nat, y: nat, z: nat)
    requires x <= y
    ensures x * z <= y * z
  {
  }

  /** A sprite 46341 pixels to the right of the camera, at a height the
      camera sees, passes the as-written test: the 32-bit square of its
      distance wraps to a negative number. The intended test culls it. */
  lemma FarSpritePassesAsWritten(camX: int, camY: int, widthAfterProj: int, heightAfterProj: int, vspY: int, cell: CellSize)
    requires VerticallyVisible(camY, heightAfterProj, vspY, cell)
    requires 0 <= HorizontalReach(widthAfterProj, cell) <= MaxSquarable
    ensures InViewAsWritten(camX, camY, widthAfterProj, heightAfterProj, camX + MaxSquarable + 1, vspY, cell)
    ensures !InView(camX, camY, widthAfterProj, heightAfterProj, camX + MaxSquarable + 1, vspY, cell)
  {
    var reach := HorizontalReach(widthAfterProj, cell);
    SquareBound(reach);
    assert (camX + MaxSquarable + 1) - camX == 46341;
    assert Int32(46341 * 46341) == -2147479015;
  }
}
