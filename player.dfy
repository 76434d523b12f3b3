/**
 * The player character (class Player, js/app.js:57-140): a position on the block grid that moves
 * one block per keyboard input, clamped at the edges of the grid.
 */
module PlayerEntity {
  import opened Constants
  import opened Collision

  /** A block position: column xBlock, row yBlock, both counted from the top-left corner. */
  datatype Pos = Pos(xBlock: int, yBlock: int)

  /** Where the player starts and where every reset puts it. */
  const Start: Pos := Pos(2, 4)

  /** The argument of `handleInput`: the key listener passes `undefined` for keys it does not
      map, otherwise a string. */
  datatype Input = Absent | Token(name: string) {
    /** JavaScript falsiness: `undefined` and the empty string. */
    predicate Falsy()
    {
      Absent? || name == ""
    }
  }

  /** The direction names `handleInput` recognises. */
  const Directions: set<string> := {"up", "down", "left", "right"}

  /** The outcome of `handleInput`: it returns normally or throws an Error with a message. */
  datatype Outcome = Completed | Raised(message: string)

  /** The effect of one `handleInput` on a position: the new position, or the thrown error. */
  datatype Step = Moved(pos: Pos) | Threw(message: string)

  /** The two positions are one block apart along exactly one axis. */
  predicate UnitStep(p: Pos, q: Pos)
  {
    (p.xBlock == q.xBlock && (q.yBlock == p.yBlock + 1 || q.yBlock == p.yBlock - 1))
    || (p.yBlock == q.yBlock && (q.xBlock == p.xBlock + 1 || q.xBlock == p.xBlock - 1))
  }

  /** The position is on the edge of the grid that `direction` points at. */
  predicate AtEdge(p: Pos, direction: string)
  {
    (direction == "up" && p.yBlock == 0)
    || (direction == "down" && p.yBlock == NumRows - 1)
    || (direction == "left" && p.xBlock == 0)
    || (direction == "right" && p.xBlock == NumCols - 1)
  }

  /** The movement rule of `handleInput`, on values. */
  function Move(p: Pos, direction: Input): (r: Step)
    // a falsy argument is ignored
    ensures direction.Falsy() ==> r == Moved(p)
    // exactly the unknown non-empty strings throw, with the source's message
    ensures r.Threw? <==> !direction.Falsy() && direction.name !in Directions
    ensures r.Threw? ==> r.message == "Unknown direction passed to handleInput(): " + direction.name
    // a move stays in the grid, goes one block or nowhere, and stays put only at the edge it aims at
    ensures r.Moved? && InGrid(p.xBlock, p.yBlock) ==> InGrid(r.pos.xBlock, r.pos.yBlock)
    ensures r.Moved? ==> r.pos == p || UnitStep(p, r.pos)
    ensures r.Moved? && !direction.Falsy() ==> (r.pos == p <==> AtEdge(p, direction.name))
    // and it goes the way the name says
    ensures direction == Token("up") ==> r.Moved? && r.pos.xBlock == p.xBlock && r.pos.yBlock <= p.yBlock
    ensures direction == Token("down") ==> r.Moved? && r.pos.xBlock == p.xBlock && r.pos.yBlock >= p.yBlock
    ensures direction == Token("left") ==> r.Moved? && r.pos.yBlock == p.yBlock && r.pos.xBlock <= p.xBlock
    ensures direction == Token("right") ==> r.Moved? && r.pos.yBlock == p.yBlock && r.pos.xBlock >= p.xBlock
  {
    if direction.Falsy() then Moved(p)
    else if direction.name == "up" then
      Moved(if p.yBlock != 0 then p.(yBlock := p.yBlock - 1) else p)
    else if direction.name == "down" then
      Moved(if p.yBlock != NumRows - 1 then p.(yBlock := p.yBlock + 1) else p)
    else if direction.name == "left" then
      Moved(if p.xBlock != 0 then p.(xBlock := p.xBlock - 1) else p)
    else if direction.name == "right" then
      Moved(if p.xBlock != NumCols - 1 then p.(xBlock := p.xBlock + 1) else p)
    else Threw("Unknown direction passed to handleInput(): " + direction.name)
  }

  class Player {
    var xBlock: int
    var yBlock: int

    /** The block position as a value. */
    function Position(): Pos
      reads this
    {
      Pos(xBlock, yBlock)
    }

    /** The player is on the grid. */
    ghost predicate Valid()
      reads this
    {
      InGrid(xBlock, yBlock)
    }

    /** A new player at the start block (the sprite URL is only used for drawing). */
    constructor ()
      ensures Position() == Start && Valid()
    {
      xBlock := 2;
      yBlock := 4;
    }

    /** The `collisionArea` getter: the middle half of the player's block, over its row's pixel
        band. */
    function Area(): (a: CollisionArea)
      reads this
      ensures a.WellFormed() && a.XRange().Width() == BlockWidth / 2.0
      ensures xBlock as real * BlockWidth < a.startX && a.endX < (xBlock + 1) as real * BlockWidth
      ensures a.startX - xBlock as real * BlockWidth == (xBlock + 1) as real * BlockWidth - a.endX
      ensures a.YRange() == RowBand(yBlock)
    {
      PlayerArea(xBlock, yBlock)
    }

    /** `update`: the player does not move with time; it reports a win, upon which the source
        calls the win handler (Session.Game.UpdatePlayer), exactly when it is on the top row. */
    method Update(dt: real) returns (won: bool)
      ensures won <==> yBlock == 0
    {
      won := yBlock == 0;
    }

    /** `reset`: back to the start block, wherever the player was. */
    method Reset()
      modifies this
      ensures Position() == Start && Valid()
    {
      xBlock := 2;
      yBlock := 4;
    }

    /** `handleInput`: applies Move to the position; a throw leaves the position as it was. */
    method HandleInput(direction: Input) returns (outcome: Outcome)
      modifies this
      ensures Move(old(Position()), direction).Moved? ==>
                outcome == Completed && Position() == Move(old(Position()), direction).pos
      ensures Move(old(Position()), direction).Threw? ==>
                outcome == Raised(Move(old(Position()), direction).message) && Position() == old(Position())
      ensures old(Valid()) ==> Valid()
    {
      outcome := Completed;
      if direction.Falsy() {
        return;
      }
      if direction.name == "up" {
        if yBlock != 0 {
          yBlock := yBlock - 1;
        }
      } else if direction.name == "down" {
        if yBlock != NumRows - 1 {
          yBlock := yBlock + 1;
        }
      } else if direction.name == "left" {
        if xBlock != 0 {
          xBlock := xBlock - 1;
        }
      } else if direction.name == "right" {
        if xBlock != NumCols - 1 {
          xBlock := xBlock + 1;
        }
      } else {
        outcome := Raised("Unknown direction passed to handleInput(): " + direction.name);
      }
    }
  }

  /** The start block and the enemy rows 1, 2, 3 (1 + lane for lanes 0, 1, 2) lie in the grid,
      and the start row is neither an enemy row nor the goal row 0. */
  lemma StartAndLanesInGrid()
    ensures InGrid(Start.xBlock, Start.yBlock)
    ensures InGrid(Start.xBlock, 1) && InGrid(Start.xBlock, 2) && InGrid(Start.xBlock, 3)
    ensures Start.yBlock !in {0, 1, 2, 3}
  {
  }

  /** The position after handling the inputs one after another. Each key press is a call of its
      own, so a throw aborts only that call and the next input starts from the unchanged position. */
  function MoveAll(p: Pos, inputs: seq<Input>): Pos
    decreases |inputs|
  {
    if inputs == [] then p
    else match Move(p, inputs[0])
         case Moved(q) => MoveAll(q, inputs[1..])
         case Threw(_) => MoveAll(p, inputs[1..])
  }

  /** Any sequence of key inputs from a grid position ends in the grid. */
  lemma {:induction false} MoveAllInGrid(p: Pos, inputs: seq<Input>)
    requires InGrid(p.xBlock, p.yBlock)
    decreases |inputs|
    ensures InGrid(MoveAll(p, inputs).xBlock, MoveAll(p, inputs).yBlock)
  {
    if inputs != [] {
      match Move(p, inputs[0])
      case Moved(q) => MoveAllInGrid(q, inputs[1..]);
      case Threw(_) => MoveAllInGrid(p, inputs[1..]);
    }
  }

  /** From the start block the goal row 0 is four "up" inputs away: three reach row 1. */
  lemma FourUpsReachGoal()
    ensures MoveAll(Start, [Token("up"), Token("up"), Token("up")]) == Pos(2, 1)
    ensures MoveAll(Start, [Token("up"), Token("up"), Token("up"), Token("up")]) == Pos(2, 0)
    // an unknown name in between changes nothing
    ensures MoveAll(Start, [Token("up"), Token("jump"), Token("up")]) == Pos(2, 2)
  {
  }
}
