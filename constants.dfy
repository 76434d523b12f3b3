/**
 * The fixed dimensions of the play field and the spawn rate (js/constants.js).
 * Pixel quantities are `real`, so that fractions such as BlockWidth / 4.0 are exact;
 * grid counts are `int`, because block coordinates are whole numbers.
 */
module Constants {

  /** Width of the canvas in pixels. */
  const CanvasWidth: real := 505.0
  /** Height of the canvas in pixels. */
  const CanvasHeight: real := 606.0
  /** Number of block columns of the grid. */
  const NumCols: int := 5
  /** Number of block rows of the grid. */
  const NumRows: int := 6
  /** Width of one block in pixels. */
  const BlockWidth: real := 101.0
  /** Height of one block in pixels. */
  const BlockHeight: real := 83.0
  /** Default spawn rate, in enemies per second. */
  const EnemySpawnRate: real := 0.5

  /** A grid cell (xBlock, yBlock) lies inside the NumCols x NumRows grid. */
  predicate InGrid(xBlock: int, yBlock: int)
  {
    0 <= xBlock < NumCols && 0 <= yBlock < NumRows
  }

  /** The canvas is exactly as wide as the row of blocks. */
  lemma CanvasMatchesGrid()
    ensures CanvasWidth == NumCols as real * BlockWidth
    ensures CanvasWidth == 505.0 && NumCols == 5 && BlockWidth == 101.0
  {
  }

  /** A quarter block is not a whole number of pixels, so the player's collision area has
      fractional X bounds; half a block (the player's width) is at most one block (the enemy's). */
  lemma QuarterBlockIsFractional()
    ensures BlockWidth / 4.0 == 25.25
    ensures (BlockWidth / 4.0).Floor as real != BlockWidth / 4.0
    ensures BlockWidth / 2.0 == 50.5 && BlockWidth / 2.0 <= BlockWidth
  {
  }
}
