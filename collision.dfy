/**
 * Rectangular collision areas (class CollisionArea, js/app.js:198-271) and the areas the two kinds
 * of character occupy (the `collisionArea` getters, js/app.js:27-33 and 75-81).
 *
 * The four class fields are own properties of each instance and shadow the prototype getters of
 * the same names, so a collision area is just a record of four numbers.
 */
module Collision {
  import opened Constants
  import opened Ranges

  /** Inclusive pixel bounds on both axes. */
  datatype CollisionArea = CollisionArea(startX: real, endX: real, startY: real, endY: real) {

    /** The occupied range on the X axis, from startX to endX. */
    function XRange(): (r: Range)
      ensures r.Width() == endX - startX
      ensures r.WellFormed() <==> startX <= endX
      ensures startX <= endX ==> r.Contains(startX) && r.Contains(endX)
    {
      Range(startX, endX)
    }

    /** The occupied range on the Y axis, from startY to endY. */
    function YRange(): (r: Range)
      ensures r.Width() == endY - startY
      ensures r.WellFormed() <==> startY <= endY
      ensures startY <= endY ==> r.Contains(startY) && r.Contains(endY)
    {
      Range(startY, endY)
    }

    /** Both bounds are in order. */
    predicate WellFormed()
    {
      XRange().WellFormed() && YRange().WellFormed()
    }

    /** `collidesWith`: the X ranges overlap and the Y ranges overlap, each with this area as the
        receiver of the one-sided range test. */
    predicate CollidesWith(other: CollisionArea): (b: bool)
      // the X test and the Y test both ask whether an endpoint of the other area's range lies in ours
      ensures b <==> ((XRange().Contains(other.startX) || XRange().Contains(other.endX))
                      && (YRange().Contains(other.startY) || YRange().Contains(other.endY)))
      // a reported collision with a well-formed area is a shared pixel
      ensures b && other.WellFormed() ==> RectIntersects(this, other)
    {
      OverlapsSound(XRange(), other.XRange());
      OverlapsSound(YRange(), other.YRange());
      Range.RangesOverlap(XRange(), other.XRange()) && Range.RangesOverlap(YRange(), other.YRange())
    }
  }

  /** True rectangle intersection: some pixel lies in both areas. */
  ghost predicate RectIntersects(a: CollisionArea, b: CollisionArea)
  {
    Intersects(a.XRange(), b.XRange()) && Intersects(a.YRange(), b.YRange())
  }

  /** The pixel rows [yBlock * BlockHeight, (yBlock + 1) * BlockHeight - 1] of block row yBlock. */
  function RowBand(yBlock: int): (r: Range)
    ensures r.WellFormed() && r.Width() == BlockHeight - 1.0
    ensures r.start == yBlock as real * BlockHeight
  {
    Range(yBlock as real * BlockHeight, (yBlock + 1) as real * BlockHeight - 1.0)
  }

  /** An enemy at pixel x on block row yBlock occupies one full block width from x and the row's
      pixel band. */
  function EnemyArea(x: real, yBlock: int): (a: CollisionArea)
    ensures a.WellFormed()
    ensures a.startX == x && a.XRange().Width() == BlockWidth
    ensures a.YRange() == RowBand(yBlock)
  {
    CollisionArea(x, x + BlockWidth, yBlock as real * BlockHeight, (yBlock + 1) as real * BlockHeight - 1.0)
  }

  /** The player on block (xBlock, yBlock) occupies the middle half of its block horizontally
      (a quarter block is cut off on each side) and the row's pixel band. */
  function PlayerArea(xBlock: int, yBlock: int): (a: CollisionArea)
    ensures a.WellFormed()
    ensures xBlock as real * BlockWidth < a.startX && a.endX < (xBlock + 1) as real * BlockWidth
    ensures a.XRange().Width() == BlockWidth / 2.0
    ensures a.startX - xBlock as real * BlockWidth == (xBlock + 1) as real * BlockWidth - a.endX
    ensures a.YRange() == RowBand(yBlock)
  {
    CollisionArea(xBlock as real * BlockWidth + BlockWidth / 4.0,
                  (xBlock + 1) as real * BlockWidth - BlockWidth / 4.0,
                  yBlock as real * BlockHeight,
                  (yBlock + 1) as real * BlockHeight - 1.0)
  }

  /** With an area as receiver whose both ranges are at least as wide as the argument's, the
      one-sided test is exact: `collidesWith` is true rectangle intersection. */
  lemma CollidesWithNarrowerIffIntersects(a: CollisionArea, b: CollisionArea)
    requires a.WellFormed() && b.WellFormed()
    requires b.XRange().Width() <= a.XRange().Width() && b.YRange().Width() <= a.YRange().Width()
    ensures a.CollidesWith(b) <==> RectIntersects(a, b)
  {
    OverlapsNarrowerIffIntersects(a.XRange(), b.XRange());
    OverlapsNarrowerIffIntersects(a.YRange(), b.YRange());
  }

  /** At the call site of checkCollisions (enemy area as receiver, player area as argument) the
      collision test is true rectangle intersection. */
  lemma EnemyHitsPlayerIffIntersects(x: real, enemyYBlock: int, xBlock: int, yBlock: int)
    ensures EnemyArea(x, enemyYBlock).CollidesWith(PlayerArea(xBlock, yBlock))
        <==> RectIntersects(EnemyArea(x, enemyYBlock), PlayerArea(xBlock, yBlock))
  {
    CollidesWithNarrowerIffIntersects(EnemyArea(x, enemyYBlock), PlayerArea(xBlock, yBlock));
  }

  /** Two row bands overlap exactly when they are the same row. */
  lemma RowBandsOverlapIffSameRow(row1: int, row2: int)
    ensures RowBand(row1).Overlaps(Rng(RowBand(row2))) <==> row1 == row2
  {
    if row1 < row2 {
      assert row1 as real + 1.0 <= row2 as real;
    } else if row2 < row1 {
      assert row2 as real + 1.0 <= row1 as real;
    }
  }

  /** An enemy hits the player exactly when it is on the player's row and its left edge is within
      three quarters of a block of the left edge of the player's block. */
  lemma EnemyHitsPlayerIff(x: real, enemyYBlock: int, xBlock: int, yBlock: int)
    ensures EnemyArea(x, enemyYBlock).CollidesWith(PlayerArea(xBlock, yBlock))
        <==> enemyYBlock == yBlock
             && xBlock as real * BlockWidth - 3.0 * BlockWidth / 4.0 <= x
             && x <= xBlock as real * BlockWidth + 3.0 * BlockWidth / 4.0
  {
    RowBandsOverlapIffSameRow(enemyYBlock, yBlock);
    var e, p := EnemyArea(x, enemyYBlock), PlayerArea(xBlock, yBlock);
    OverlapsNarrowerIffIntersects(e.XRange(), p.XRange());
    IntersectsIff(e.XRange(), p.XRange());
  }

  /** An enemy whose left edge is more than a block away from the player's block never hits it. */
  lemma FarEnemyMisses(x: real, enemyYBlock: int, xBlock: int, yBlock: int)
    requires x < xBlock as real * BlockWidth - BlockWidth || x > xBlock as real * BlockWidth + BlockWidth
    ensures !EnemyArea(x, enemyYBlock).CollidesWith(PlayerArea(xBlock, yBlock))
  {
    EnemyHitsPlayerIff(x, enemyYBlock, xBlock, yBlock);
  }

  /** An enemy exactly on the player's block hits it. */
  lemma SameBlockHits(xBlock: int, yBlock: int)
    ensures EnemyArea(xBlock as real * BlockWidth, yBlock).CollidesWith(PlayerArea(xBlock, yBlock))
  {
    EnemyHitsPlayerIff(xBlock as real * BlockWidth, yBlock, xBlock, yBlock);
  }
}
