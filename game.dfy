/**
 * The game session: the global `player` and `allEnemies` of js/app.js:341-342 and the functions
 * that act on them (js/app.js:273-326).
 */
module Session {
  import opened Constants
  import opened Collision
  import opened EnemyEntity
  import opened PlayerEntity

  /** `Array.prototype.indexOf`: the index of the first occurrence of x, or -1. */
  function IndexOf<T(==)>(s: seq<T>, x: T): (i: int)
    ensures -1 <= i < |s|
    ensures i == -1 <==> x !in s
    ensures 0 <= i ==> s[i] == x && forall j :: 0 <= j < i ==> s[j] != x
  {
    if s == [] then -1
    else if s[0] == x then 0
    else
      var j := IndexOf(s[1..], x);
      if j == -1 then -1 else j + 1
  }

  /** `s.splice(start, 1)` on a copy: a negative start counts from the end (clamped to 0), a start
      at or past the end removes nothing. */
  function SpliceOne<T>(s: seq<T>, start: int): (r: seq<T>)
    ensures 0 <= start < |s| ==> r == s[..start] + s[start + 1..]
    ensures start >= |s| ==> r == s
    ensures -|s| <= start < 0 ==> r == s[..|s| + start] + s[|s| + start + 1..]
    ensures start < -|s| ==> r == if s == [] then [] else s[1..]
  {
    var k := if start < 0 then (if |s| + start < 0 then 0 else |s| + start) else start;
    if k < |s| then s[..k] + s[k + 1..] else s
  }

  /** What `deleteEnemy(e)` leaves of the list: `splice(indexOf(e), 1)`. */
  function Deleted<T(==)>(s: seq<T>, e: T): (r: seq<T>)
    // a present element loses its first occurrence, everything else keeps its order
    ensures e in s ==> |r| == |s| - 1 && multiset(r) == multiset(s) - multiset{e}
    ensures e in s ==> exists i :: 0 <= i < |s| && s[i] == e && e !in s[..i] && r == s[..i] + s[i + 1..]
    // an absent element makes indexOf give -1, and splice(-1, 1) drops the last element
    ensures e !in s && s != [] ==> r == s[..|s| - 1]
    ensures s == [] ==> r == []
  {
    var i := IndexOf(s, e);
    assert 0 <= i ==> s == s[..i] + [s[i]] + s[i + 1..];
    SpliceOne(s, i)
  }

  /** The collision areas of the enemies, in list order. */
  function AreasOf(es: seq<Enemy>): (r: seq<CollisionArea>)
    reads set e | e in es
    ensures |r| == |es| && forall i :: 0 <= i < |es| ==> r[i] == es[i].Area()
  {
    if es == [] then [] else [es[0].Area()] + AreasOf(es[1..])
  }

  /** One step of the collision loop: a hit between this enemy and the player's current block sends
      the player to the start block. */
  function CheckOne(enemy: CollisionArea, p: Pos): (r: Pos)
    ensures r == Start || r == p
    ensures enemy.CollidesWith(PlayerArea(p.xBlock, p.yBlock)) ==> r == Start
    ensures r != p ==> enemy.CollidesWith(PlayerArea(p.xBlock, p.yBlock))
  {
    if enemy.CollidesWith(PlayerArea(p.xBlock, p.yBlock)) then Start else p
  }

  /** The collision loop over the areas in order, each enemy checked against the player's area as it
      is at that point (after an earlier hit that is the start block's area). */
  function Scan(areas: seq<CollisionArea>, p: Pos): (r: Pos)
    decreases |areas|
    ensures r == Start || r == p
  {
    if areas == [] then p else CheckOne(areas[|areas| - 1], Scan(areas[..|areas| - 1], p))
  }

  /** Some enemy hits the player's area at block p. */
  predicate AnyHits(areas: seq<CollisionArea>, p: Pos)
  {
    exists i :: 0 <= i < |areas| && areas[i].CollidesWith(PlayerArea(p.xBlock, p.yBlock))
  }

  /** The loop's outcome in closed form: the player ends on the start block exactly when some enemy
      hits its ORIGINAL area, and is untouched otherwise; a hit against the start area later in
      the loop changes nothing. */
  lemma {:induction false} ScanClosedForm(areas: seq<CollisionArea>, p: Pos)
    decreases |areas|
    ensures Scan(areas, p) == if AnyHits(areas, p) then Start else p
  {
    if areas != [] {
      var init := areas[..|areas| - 1];
      ScanClosedForm(init, p);
      assert forall i :: 0 <= i < |init| ==> init[i] == areas[i];
      if !AnyHits(init, p) && areas[|areas| - 1].CollidesWith(PlayerArea(p.xBlock, p.yBlock)) {
        assert AnyHits(areas, p);
      }
      if AnyHits(init, p) {
        var i :| 0 <= i < |init| && init[i].CollidesWith(PlayerArea(p.xBlock, p.yBlock));
        assert areas[i].CollidesWith(PlayerArea(p.xBlock, p.yBlock));
      }
    }
  }

  /** Checking collisions twice without anything moving in between is the same as checking once. */
  lemma CheckTwiceIsCheckOnce(areas: seq<CollisionArea>, p: Pos)
    ensures Scan(areas, Scan(areas, p)) == Scan(areas, p)
  {
    ScanClosedForm(areas, p);
    ScanClosedForm(areas, Scan(areas, p));
  }

  /** `Math.floor(Math.random() * 3)`: the lane of a new enemy, from a draw in [0, 1). */
  function SpawnLane(draw: real): (lane: int)
    requires 0.0 <= draw < 1.0
    ensures 0 <= lane < 3 && InGrid(Start.xBlock, 1 + lane)
    ensures lane as real <= 3.0 * draw < lane as real + 1.0
  {
    (draw * 3.0).Floor
  }

  /** `50 + Math.random() * 250`: the speed of a new enemy, from a draw in [0, 1). */
  function SpawnSpeed(draw: real): (speed: real)
    requires 0.0 <= draw < 1.0
    ensures 50.0 <= speed < 300.0
    ensures draw < 0.5 <==> speed < 175.0
  {
    50.0 + draw * 250.0
  }

  /** The spawn loop's period `1000 / spawnRate`, in milliseconds: the time for one enemy at
      `spawnRate` enemies per second. */
  function SpawnPeriod(spawnRate: real): (ms: real)
    requires spawnRate > 0.0
    ensures ms > 0.0 && ms * spawnRate == 1000.0
  {
    1000.0 / spawnRate
  }

  /** The default rate is positive, so its period is defined: one enemy every 2000 ms. */
  lemma DefaultSpawnPeriod()
    ensures EnemySpawnRate > 0.0 && SpawnPeriod(EnemySpawnRate) == 2000.0
  {
  }

  /** No element occurs twice. */
  predicate Distinct<T(==)>(s: seq<T>)
  {
    forall i, j :: 0 <= i < j < |s| ==> s[i] != s[j]
  }

  /** `deleteEnemy` takes nothing new into the list and keeps its entries distinct; on a list of
      distinct entries the deleted element is gone afterwards. */
  lemma DeletedDistinct<T>(s: seq<T>, e: T)
    ensures forall x :: x in Deleted(s, e) ==> x in s
    ensures Distinct(s) ==> Distinct(Deleted(s, e))
    ensures Distinct(s) && e in s ==> e !in Deleted(s, e)
  {
    var r := Deleted(s, e);
    if e in s {
      var i :| 0 <= i < |s| && s[i] == e && e !in s[..i] && r == s[..i] + s[i + 1..];
      assert forall k :: 0 <= k < |r| ==> r[k] == s[if k < i then k else k + 1];
    } else if s != [] {
      assert forall k :: 0 <= k < |r| ==> r[k] == s[k];
    }
  }

  /** The page's global state: one player and the list of live enemies. */
  class Game {
    const player: Player
    var enemies: seq<Enemy>

    /** The player stays on the grid, and the list holds distinct enemies, each created by
        `spawnEnemy`: on rows 1..3 with a speed in [50, 300). */
    ghost predicate Valid()
      reads this, player
    {
      player.Valid() && Distinct(enemies)
      && forall e :: e in enemies ==> 1 <= e.yBlock <= 3 && 50.0 <= e.speed < 300.0
    }

    /** `const player = new Player(...)` and `let allEnemies = []`. The spawn loop started right
        after them adds the first enemy at once; that is a SpawnEnemy call. */
    constructor ()
      ensures Valid() && fresh(player)
      ensures player.Position() == Start && enemies == []
    {
      player := new Player();
      enemies := [];
    }

    /** `handleGameWon`: the player back at the start and no enemies left. */
    method HandleGameWon()
      modifies player, this`enemies
      ensures Valid() && player.Position() == Start && enemies == []
    {
      player.Reset();
      enemies := [];
    }

    /** `handleGameLost`: the player back at the start; the enemies stay. */
    method HandleGameLost()
      modifies player
      ensures player.Valid() && player.Position() == Start
      ensures old(Valid()) ==> Valid()
      ensures unchanged(this)
    {
      player.Reset();
    }

    /** `checkCollisions`: each enemy in turn that hits the player resets it. The list and the
        enemies do not change; the player ends on the start block if some enemy hit it where it
        was, and stays where it was otherwise. */
    method CheckCollisions()
      modifies player
      ensures old(Valid()) ==> Valid()
      ensures unchanged(this)
      ensures player.Position() == Scan(old(AreasOf(enemies)), old(player.Position()))
      ensures player.Position() ==
                if AnyHits(old(AreasOf(enemies)), old(player.Position())) then Start else old(player.Position())
    {
      ghost var areas := AreasOf(enemies);
      ghost var from := player.Position();
      var i := 0;
      while i < |enemies|
        invariant 0 <= i <= |enemies| && unchanged(this)
        invariant old(Valid()) ==> Valid()
        invariant player.Position() == Scan(areas[..i], from)
      {
        var enemy := enemies[i];
        ghost var before := player.Position();
        assert enemy.Area() == areas[i] && player.Area() == PlayerArea(before.xBlock, before.yBlock);
        if enemy.Area().CollidesWith(player.Area()) {
          HandleGameLost();
        }
        assert player.Position() == CheckOne(areas[i], before);
        assert areas[..i + 1][..i] == areas[..i];
        i := i + 1;
      }
      assert areas[..i] == areas;
      ScanClosedForm(areas, from);
    }

    /** `spawnEnemy`, with the two `Math.random()` draws passed in: appends one fresh enemy with a
        lane in 0..2 and a speed in [50, 300), leaving the existing entries as they were. */
    method SpawnEnemy(laneDraw: real, speedDraw: real)
      requires 0.0 <= laneDraw < 1.0 && 0.0 <= speedDraw < 1.0
      modifies this`enemies
      ensures |enemies| == |old(enemies)| + 1 && enemies[..|old(enemies)|] == old(enemies)
      ensures fresh(enemies[|enemies| - 1])
      ensures enemies[|enemies| - 1].x == -BlockWidth
      ensures enemies[|enemies| - 1].yBlock == 1 + SpawnLane(laneDraw)
      ensures enemies[|enemies| - 1].yBlock in {1, 2, 3}
      ensures enemies[|enemies| - 1].speed == SpawnSpeed(speedDraw)
      ensures 50.0 <= enemies[|enemies| - 1].speed < 300.0
      ensures old(Valid()) ==> Valid()
    {
      var e := new Enemy(SpawnLane(laneDraw), SpawnSpeed(speedDraw));
      assert e !in enemies;
      enemies := enemies + [e];
    }

    /** `deleteEnemy`: removes the first occurrence of `e`; an absent `e` takes the last enemy. */
    method DeleteEnemy(e: Enemy)
      modifies this`enemies
      ensures enemies == Deleted(old(enemies), e)
      ensures old(Valid()) ==> Valid()
      ensures old(Valid()) && e in old(enemies) ==> e !in enemies
    {
      DeletedDistinct(enemies, e);
      var i := IndexOf(enemies, e);
      enemies := SpliceOne(enemies, i);
    }

    /** `player.update(dt)` with its call of the win handler. */
    method UpdatePlayer(dt: real)
      modifies player, this`enemies
      ensures old(Valid()) ==> Valid()
      ensures old(player.yBlock) == 0 ==> player.Position() == Start && enemies == []
      ensures old(player.yBlock) != 0 ==> player.Position() == old(player.Position()) && enemies == old(enemies)
    {
      var won := player.Update(dt);
      if won {
        HandleGameWon();
      }
    }

    /** `enemy.update(dt)` with its call of `deleteEnemy` once the enemy is past the canvas. */
    method UpdateEnemy(e: Enemy, dt: real)
      modifies e, this`enemies
      ensures e.x == old(e.x) + e.speed * dt
      ensures enemies == if e.x > CanvasWidth then Deleted(old(enemies), e) else old(enemies)
      ensures old(Valid()) ==> Valid()
      // an enemy of the game moves right, and once past the canvas it is gone from the list
      ensures old(Valid()) && e in old(enemies) && dt > 0.0 ==> e.x > old(e.x)
      ensures old(Valid()) && e in old(enemies) && e.x > CanvasWidth ==> e !in enemies
    {
      var offCanvas := e.Update(dt);
      if offCanvas {
        DeleteEnemy(e);
      }
    }
  }
}
