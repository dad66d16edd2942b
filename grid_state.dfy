/**
  The grid-movement state machine of a tile-based character, as pure
  transition functions over one snapshot of the controller's state.

  A character stands on a logical cell. While it accepts input (`canMove`),
  a direction turns into a neighbouring candidate cell; if that cell is
  walkable a move starts and `canMove` drops until the move completes.
  Facing and flip flags follow every accepted direction press, walkable or
  not, and an optional step counter counts every press made while idle.

  The class in module GridMovement updates its fields in place; each of its
  methods is specified by one of the functions below. What the functions
  promise is stated and proved in module GridProperties.
*/
module GridState {

  /** The direction enum of the source, including its sentinel `kMax`. */
  datatype Direction = Left | Right | Up | Down | Max

  /** A cell of the walkable tilemap. */
  datatype Cell = Cell(x: int, y: int, z: int)

  datatype Option<T> = None | Some(value: T)

  /**
    What stays fixed for a controller's lifetime:
    - `layer` is the integer z of the character's transform, used as the z
      of every candidate cell;
    - `controlsInverted` swaps Left and Right;
    - `hasStepsText` is whether a step-counter display is attached;
    - `tiles` is the set of cells of the walkable tilemap that hold a tile.
  */
  datatype Config = Config(
    layer: int,
    controlsInverted: bool,
    hasStepsText: bool,
    tiles: set<Cell>)

  /**
    The mutable state of one controller:
    - `pos`: the logical cell, changed only when a move completes;
    - `canMove`: idle and accepting a move (also the external lock);
    - `isSpinning`: the spin latch;
    - `steps`: the step counter;
    - `targetCell`: the cell the character is moving toward;
    - `flipX`, `facingUp`, `facingDown`, `walking`: presentation flags;
    - `stepSounds`: how many times the step sound was started.
  */
  datatype State = State(
    pos: Cell,
    canMove: bool,
    isSpinning: bool,
    steps: nat,
    targetCell: Cell,
    flipX: bool,
    facingUp: bool,
    facingDown: bool,
    walking: bool,
    stepSounds: nat)

  /** The keys pressed in one frame (either the letter key or the arrow). */
  datatype Keys = Keys(up: bool, down: bool, left: bool, right: bool)

  /** Two cells one unit apart along exactly one of x and y. */
  predicate Adjacent(a: Cell, b: Cell) {
    (a.x == b.x && (b.y == a.y + 1 || b.y == a.y - 1)) ||
    (a.y == b.y && (b.x == a.x + 1 || b.x == a.x - 1))
  }

  /** The direction actually moved: inversion swaps Left and Right only. */
  function Effective(d: Direction, inverted: bool): Direction {
    match d
    case Left => if inverted then Right else Left
    case Right => if inverted then Left else Right
    case _ => d
  }

  /** Unit offset (dx, dy) of a direction; the sentinel has none. */
  function Offset(d: Direction): (int, int) {
    match d
    case Left => (-1, 0)
    case Right => (1, 0)
    case Up => (0, 1)
    case Down => (0, -1)
    case Max => (0, 0)
  }

  /**
    Reference definition of the cell a press of `d` tries to enter from
    `pos`: the effective direction's unit offset, on the character's layer.
  */
  function Candidate(cfg: Config, pos: Cell, d: Direction): Option<Cell> {
    if d == Max then None
    else
      var (dx, dy) := Offset(Effective(d, cfg.controlsInverted));
      Some(Cell(pos.x + dx, pos.y + dy, cfg.layer))
  }

  /** A press of `d` from `pos` would start a move. */
  predicate Starts(cfg: Config, pos: Cell, d: Direction) {
    var c := Candidate(cfg, pos, d);
    c.Some? && c.value in cfg.tiles
  }

  /**
    The controller's invariant: the two facing flags are never both set, a
    walking character is heading for a walkable cell, and, with a counter
    attached, every started move was counted as a step.
  */
  predicate Valid(cfg: Config, s: State) {
    && !(s.facingUp && s.facingDown)
    && (s.walking ==> s.targetCell in cfg.tiles)
    && (cfg.hasStepsText ==> s.stepSounds <= s.steps)
  }

  /**
    The state right after start-up: standing on `start`, idle, nothing
    counted, and heading for `origin`, the cell of the world origin, which
    is where the default target position lies.
  */
  function Initial(start: Cell, origin: Cell, flipX: bool): State {
    State(start, true, false, 0, origin, flipX, false, false, false, 0)
  }

  /** The step counter after one counted press: raised only when a counter is attached. */
  function Counted(cfg: Config, s: State): State {
    s.(steps := if cfg.hasStepsText then s.steps + 1 else s.steps)
  }

  /**
    Try to start a move into `target`: when the cell is walkable the move
    starts (input is locked, the target is recorded, walking starts and the
    step sound plays); otherwise nothing changes.
  */
  function TryMove(cfg: Config, s: State, target: Cell): State {
    if target in cfg.tiles then
      s.(canMove := false, targetCell := target, walking := true, stepSounds := s.stepSounds + 1)
    else
      s
  }

  /**
    The facing and flip flags a press of `d` leaves behind: Up and Down set
    the matching facing flag and keep the flip; Left and Right clear both
    facing flags and flip exactly when the move goes toward smaller x; the
    sentinel changes none of them.
  */
  predicate Faces(cfg: Config, before: State, after: State, d: Direction) {
    match d
    case Up => after.facingUp && !after.facingDown && after.flipX == before.flipX
    case Down => !after.facingUp && after.facingDown && after.flipX == before.flipX
    case Left | Right =>
      && !after.facingUp && !after.facingDown
      && (after.flipX <==> Candidate(cfg, before.pos, d).value.x == before.pos.x - 1)
    case Max =>
      && after.facingUp == before.facingUp && after.facingDown == before.facingDown
      && after.flipX == before.flipX
  }

  /**
    The Left arm of a press: face sideways, flip, and try the cell one to
    the left, or, with inverted controls, one to the right with the flip
    undone.
  */
  function LeftCase(cfg: Config, s: State): State {
    var turned := s.(facingUp := false, facingDown := false, flipX := true);
    if cfg.controlsInverted then
      TryMove(cfg, turned, Cell(s.pos.x + 1, s.pos.y, cfg.layer)).(flipX := false)
    else
      TryMove(cfg, turned, Cell(s.pos.x - 1, s.pos.y, cfg.layer)).(flipX := true)
  }

  /**
    The Right arm: face sideways and try the cell one to the right
    (unflipped), or, with inverted controls, one to the left (flipped).
  */
  function RightCase(cfg: Config, s: State): State {
    var turned := s.(facingUp := false, facingDown := false);
    if cfg.controlsInverted then
      TryMove(cfg, turned, Cell(s.pos.x - 1, s.pos.y, cfg.layer)).(flipX := true)
    else
      TryMove(cfg, turned, Cell(s.pos.x + 1, s.pos.y, cfg.layer)).(flipX := false)
  }

  /** The Up arm: face up and try the cell above. */
  function UpCase(cfg: Config, s: State): State {
    TryMove(cfg, s.(facingUp := true, facingDown := false), Cell(s.pos.x, s.pos.y + 1, cfg.layer))
  }

  /** The Down arm: face down and try the cell below. */
  function DownCase(cfg: Config, s: State): State {
    TryMove(cfg, s.(facingUp := false, facingDown := true), Cell(s.pos.x, s.pos.y - 1, cfg.layer))
  }

  /**
    One press of `d`, written as the source's switch. While a move is in
    flight (or input is locked) nothing happens. Otherwise the step is
    counted (if a counter is attached) and the arm for `d` runs; the
    sentinel's arm does nothing.
  */
  function Move(cfg: Config, s: State, d: Direction): State {
    if !s.canMove then s
    else
      var counted := Counted(cfg, s);
      match d
      case Left => LeftCase(cfg, counted)
      case Right => RightCase(cfg, counted)
      case Up => UpCase(cfg, counted)
      case Down => DownCase(cfg, counted)
      case Max => counted
  }

  /**
    Completion of a move in flight: input is accepted again, the logical
    cell becomes the target cell, and walking and spinning stop. With no
    move in flight (`canMove` set) there is nothing to complete.
  */
  function Arrive(s: State): State {
    if s.canMove then s
    else
      var moved := s.(canMove := true, pos := s.targetCell, walking := false);
      if moved.isSpinning then moved.(isSpinning := false) else moved
  }

  /** Start the spin animation; allowed in any state. */
  function Spin(s: State): State {
    s.(isSpinning := true)
  }

  /** The external lock: overwrite `canMove`. */
  function SetCanMove(s: State, canMove: bool): State {
    s.(canMove := canMove)
  }

  /**
    One input pass: the pressed directions are tried in the order Up,
    Down, Left, Right. Only the first walkable one starts a move, since a
    started move locks input.
  */
  function HandleInput(cfg: Config, s: State, keys: Keys): State {
    var afterUp := if keys.up then Move(cfg, s, Up) else s;
    var afterDown := if keys.down then Move(cfg, afterUp, Down) else afterUp;
    var afterLeft := if keys.left then Move(cfg, afterDown, Left) else afterDown;
    if keys.right then Move(cfg, afterLeft, Right) else afterLeft
  }

  /**
    One frame: if a move is in flight and the character has reached its
    target this frame (`arrived`, standing for the interpolation coming
    within its tolerance), the move completes; then input is handled.
  */
  function Update(cfg: Config, s: State, arrived: bool, keys: Keys): State {
    HandleInput(cfg, if arrived then Arrive(s) else s, keys)
  }
}
