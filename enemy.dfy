/**
 * An enemy bug moving right along one lane (class Enemy, js/app.js:6-52).
 *
 * `#speed` and `#yBlock` are written only by the constructor, so they are `const` fields; the
 * pixel position `#x` is the one field `update` changes. Instead of calling `deleteEnemy(this)`
 * itself, `Update` reports that the enemy has left the canvas, and the session removes it
 * (Session.Game.UpdateEnemy).
 */
module EnemyEntity {
  import opened Constants
  import opened Collision

  class Enemy {
    /** Pixels per second. */
    const speed: real
    /** Block row, 1 + the lane the enemy was created on. */
    const yBlock: int
    /** Pixels from the left edge of the canvas. */
    var x: real

    /** A new enemy on lane `enemyRow` (0 is the first enemy row), one block left of the canvas. */
    constructor (enemyRow: int, speed: real)
      ensures this.speed == speed && yBlock == 1 + enemyRow
      ensures x == -BlockWidth && x + BlockWidth <= 0.0
    {
      this.speed := speed;
      x := -BlockWidth;
      yBlock := 1 + enemyRow;
    }

    /** The `collisionArea` getter: one block wide from the enemy's x, over its row's pixel band. */
    function Area(): (a: CollisionArea)
      reads this
      ensures a.WellFormed() && a.startX == x && a.endX == x + BlockWidth
      ensures a.YRange() == RowBand(yBlock)
    {
      EnemyArea(x, yBlock)
    }

    /** Moves the enemy by speed * dt pixels and reports whether it is now past the right edge of
        the canvas, which is when the source deletes it. */
    method Update(dt: real) returns (offCanvas: bool)
      modifies this
      ensures x == old(x) + speed * dt
      ensures offCanvas <==> x > CanvasWidth
      ensures speed > 0.0 && dt > 0.0 ==> x > old(x)
    {
      x := x + speed * dt;
      offCanvas := x > CanvasWidth;
    }
  }

  /** Where an enemy is after one `Update` per time delta in `dts`, starting from pixel x. */
  function PositionAfter(x: real, speed: real, dts: seq<real>): real
    decreases |dts|
  {
    if dts == [] then x else PositionAfter(x + speed * dts[0], speed, dts[1..])
  }

  /** The time deltas add up. */
  function TotalTime(dts: seq<real>): real
  {
    if dts == [] then 0.0 else dts[0] + TotalTime(dts[1..])
  }

  /** Motion is linear in elapsed time: after any sequence of updates (however the deltas are
      split) the enemy has moved
      speed times the total time, and with positive speed and positive deltas it has moved right. */
  lemma {:induction false} PositionAfterIsLinear(x: real, speed: real, dts: seq<real>)
    decreases |dts|
    ensures PositionAfter(x, speed, dts) == x + speed * TotalTime(dts)
    ensures speed > 0.0 && dts != [] && (forall i :: 0 <= i < |dts| ==> dts[i] > 0.0)
            ==> PositionAfter(x, speed, dts) > x
  {
    if dts != [] {
      PositionAfterIsLinear(x + speed * dts[0], speed, dts[1..]);
      var rest := TotalTime(dts[1..]);
      assert speed * (dts[0] + rest) == speed * dts[0] + speed * rest;
      if speed > 0.0 && (forall i :: 0 <= i < |dts| ==> dts[i] > 0.0) {
        TotalTimePositive(dts);
        assert speed * TotalTime(dts) > 0.0;
      }
    }
  }

  /** Positive deltas add up to a positive total. */
  lemma {:induction false} TotalTimePositive(dts: seq<real>)
    requires dts != [] && forall i :: 0 <= i < |dts| ==> dts[i] > 0.0
    ensures TotalTime(dts) > 0.0
  {
    if |dts| > 1 {
      assert forall i :: 0 <= i < |dts[1..]| ==> dts[1..][i] == dts[i + 1];
      TotalTimePositive(dts[1..]);
    }
  }
}
