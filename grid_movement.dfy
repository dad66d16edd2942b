/**
  The grid-movement controller as an object whose methods update its fields
  in place, one method per operation of the original component. Each
  method's postcondition ties the new field values to the transition
  function of module GridState applied to the old ones, and keeps the
  invariant GridState.Valid.
*/
module GridMovement {
  import opened GridState
  import GridProperties

  class GridMovementBase {
    /** The integer z of the character's transform; the z of every candidate cell. */
    const layer: int
    /** Left and Right swapped. */
    const controlsInverted: bool
    /** A step-counter display is attached. */
    const hasStepsText: bool
    /** The cells of the walkable tilemap that hold a tile. */
    const tiles: set<Cell>

    var pos: Cell
    var canMove: bool
    var isSpinning: bool
    var steps: nat
    var targetCell: Cell
    var flipX: bool
    var facingUp: bool
    var facingDown: bool
    var walking: bool
    var stepSounds: nat

    function Cfg(): Config {
      Config(layer, controlsInverted, hasStepsText, tiles)
    }

    /** The current field values as one state value. */
    function Snapshot(): State
      reads this
    {
      State(pos, canMove, isSpinning, steps, targetCell, flipX, facingUp, facingDown, walking, stepSounds)
    }

    ghost predicate Valid()
      reads this
    {
      GridState.Valid(Cfg(), Snapshot())
    }

    /**
      Start-up: `start` is the cell under the character's position and
      `origin` the cell of the world origin, where the target position lies
      before any move.
    */
    constructor (start: Cell, origin: Cell, layer: int, controlsInverted: bool,
                 hasStepsText: bool, flipX: bool, tiles: set<Cell>)
      ensures Valid()
      ensures Cfg() == Config(layer, controlsInverted, hasStepsText, tiles)
      ensures Snapshot() == Initial(start, origin, flipX)
    {
      this.layer := layer;
      this.controlsInverted := controlsInverted;
      this.hasStepsText := hasStepsText;
      this.tiles := tiles;
      pos := start;
      canMove := true;
      isSpinning := false;
      steps := 0;
      targetCell := origin;
      this.flipX := flipX;
      facingUp := false;
      facingDown := false;
      walking := false;
      stepSounds := 0;
    }

    method SetCanMove(newCanMove: bool)
      requires Valid()
      modifies this
      ensures Valid()
      ensures Snapshot() == GridState.SetCanMove(old(Snapshot()), newCanMove)
    {
      canMove := newCanMove;
    }

    method GetCanMove() returns (b: bool)
      ensures b == canMove
    {
      b := canMove;
    }

    /** Starts the spin animation; the latch stays set until a move completes. */
    method Spin()
      requires Valid()
      modifies this
      ensures Valid()
      ensures Snapshot() == GridState.Spin(old(Snapshot()))
    {
      isSpinning := true;
    }

    /**
      Starts a move into `target` if that cell is walkable; reports whether it did.
      This and the four arm methods below are internal steps of `Move` (protected
      or inline in the original); `Valid()` is an invariant of the public
      operations only, which a bare `TryMove` can break.
    */
    method TryMove(target: Cell) returns (moved: bool)
      modifies this`canMove, this`targetCell, this`walking, this`stepSounds
      ensures moved == (target in tiles)
      ensures Snapshot() == GridState.TryMove(Cfg(), old(Snapshot()), target)
    {
      if target in tiles {
        canMove := false;
        targetCell := target;
        walking := true;
        stepSounds := stepSounds + 1;
        moved := true;
      } else {
        moved := false;
      }
    }

    /** One press of `d`: count the step if idle, then run the arm of the switch for `d`. */
    method Move(d: Direction)
      requires Valid()
      modifies this
      ensures Valid()
      ensures Snapshot() == GridState.Move(Cfg(), old(Snapshot()), d)
    {
      ghost var s0 := Snapshot();
      GridProperties.MovePreservesValid(Cfg(), s0, d);
      if !canMove {
        return;
      }
      steps := if hasStepsText then steps + 1 else steps;
      ghost var s1 := Snapshot();
      assert s1 == Counted(Cfg(), s0);
      match d
      case Left => MoveLeft(); assert Snapshot() == GridState.Move(Cfg(), s0, d);
      case Right => MoveRight(); assert Snapshot() == GridState.Move(Cfg(), s0, d);
      case Up => MoveUp(); assert Snapshot() == GridState.Move(Cfg(), s0, d);
      case Down => MoveDown(); assert Snapshot() == GridState.Move(Cfg(), s0, d);
      case Max =>
    }

    /** The Left arm of the switch in `Move`. */
    method MoveLeft()
      modifies this
      ensures Snapshot() == LeftCase(Cfg(), old(Snapshot()))
    {
      facingUp, facingDown := false, false;
      flipX := true;
      var moved: bool;
      if controlsInverted {
        moved := TryMove(Cell(pos.x + 1, pos.y, layer));
        flipX := false;
      } else {
        moved := TryMove(Cell(pos.x - 1, pos.y, layer));
        flipX := true;
      }
    }

    /** The Right arm of the switch in `Move`. */
    method MoveRight()
      modifies this
      ensures Snapshot() == RightCase(Cfg(), old(Snapshot()))
    {
      facingUp, facingDown := false, false;
      var moved: bool;
      if controlsInverted {
        moved := TryMove(Cell(pos.x - 1, pos.y, layer));
        flipX := true;
      } else {
        moved := TryMove(Cell(pos.x + 1, pos.y, layer));
        flipX := false;
      }
    }

    /** The Up arm of the switch in `Move`. */
    method MoveUp()
      modifies this
      ensures Snapshot() == UpCase(Cfg(), old(Snapshot()))
    {
      facingUp, facingDown := true, false;
      var moved := TryMove(Cell(pos.x, pos.y + 1, layer));
    }

    /** The Down arm of the switch in `Move`. */
    method MoveDown()
      modifies this
      ensures Snapshot() == DownCase(Cfg(), old(Snapshot()))
    {
      facingUp, facingDown := false, true;
      var moved := TryMove(Cell(pos.x, pos.y - 1, layer));
    }

    /** Recomputes the logical cell from the position, which sits on the target cell's centre. */
    method UpdatePosition()
      modifies this`pos
      ensures pos == targetCell
    {
      pos := targetCell;
    }

    /** Completes the move in flight, if there is one. */
    method Arrive()
      requires Valid()
      modifies this
      ensures Valid()
      ensures Snapshot() == GridState.Arrive(old(Snapshot()))
    {
      if !canMove {
        canMove := true;
        UpdatePosition();
        walking := false;
        if isSpinning {
          isSpinning := false;
        }
      }
    }

    /** One input pass over the keys pressed this frame, in the order Up, Down, Left, Right. */
    method HandleInput(keys: Keys)
      requires Valid()
      modifies this
      ensures Valid()
      ensures Snapshot() == GridState.HandleInput(Cfg(), old(Snapshot()), keys)
    {
      if keys.up {
        Move(Up);
      }
      if keys.down {
        Move(Down);
      }
      if keys.left {
        Move(Left);
      }
      if keys.right {
        Move(Right);
      }
    }

    /** One frame: complete the move in flight if it has arrived, then handle input. */
    method Update(arrived: bool, keys: Keys)
      requires Valid()
      modifies this
      ensures Valid()
      ensures Snapshot() == GridState.Update(Cfg(), old(Snapshot()), arrived, keys)
    {
      if !canMove && arrived {
        Arrive();
      }
      HandleInput(keys);
    }
  }
}
