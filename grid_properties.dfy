/**
  Properties of the grid-movement state machine: what one press does, what
  a whole input pass does, and what holds over any run of frames and calls.
*/
module GridProperties {
  import opened GridState

  // ---------------------------------------------------------------------
  // Target cells
  // ---------------------------------------------------------------------

  /** The candidate cell per direction, with and without inversion. */
  lemma CandidateTable(cfg: Config, p: Cell)
    ensures Candidate(cfg, p, Up) == Some(Cell(p.x, p.y + 1, cfg.layer))
    ensures Candidate(cfg, p, Down) == Some(Cell(p.x, p.y - 1, cfg.layer))
    ensures Candidate(cfg, p, Left) ==
      Some(Cell(if cfg.controlsInverted then p.x + 1 else p.x - 1, p.y, cfg.layer))
    ensures Candidate(cfg, p, Right) ==
      Some(Cell(if cfg.controlsInverted then p.x - 1 else p.x + 1, p.y, cfg.layer))
    ensures Candidate(cfg, p, Max) == None
  {
  }

  /** With inverted controls Left goes where Right goes without, and the reverse. */
  lemma InversionSwapsLeftRight(cfg: Config, p: Cell)
    ensures Candidate(cfg.(controlsInverted := true), p, Left) ==
            Candidate(cfg.(controlsInverted := false), p, Right)
    ensures Candidate(cfg.(controlsInverted := true), p, Right) ==
            Candidate(cfg.(controlsInverted := false), p, Left)
  {
  }

  /** Up and Down are opposite: going up and then down returns to the same x and y. */
  lemma UpDownOpposite(cfg: Config, p: Cell)
    ensures var up := Candidate(cfg, p, Up).value;
      Candidate(cfg, up, Down) == Some(Cell(p.x, p.y, cfg.layer))
  {
  }

  /**
    Only the sentinel has no candidate cell; every other direction's
    candidate is a neighbour of the current cell, on the character's layer.
  */
  lemma CandidateIsAdjacent(cfg: Config, p: Cell, d: Direction)
    ensures Candidate(cfg, p, d).None? <==> d == Max
    ensures Candidate(cfg, p, d).Some? ==>
      Adjacent(p, Candidate(cfg, p, d).value) && Candidate(cfg, p, d).value.z == cfg.layer
  {
  }

  // ---------------------------------------------------------------------
  // One press
  // ---------------------------------------------------------------------

  /**
    What trying `c` did to `s`, giving `r`: a walkable `c` starts a move
    toward it and plays the step sound once; any other cell leaves the lock,
    the target, walking and the sound alone. The logical cell, the step
    counter and the spin latch are never touched.
  */
  predicate Tried(cfg: Config, s: State, r: State, c: Cell) {
    && r.pos == s.pos && r.steps == s.steps && r.isSpinning == s.isSpinning
    && (c in cfg.tiles ==>
          !r.canMove && r.targetCell == c && r.walking && r.stepSounds == s.stepSounds + 1)
    && (c !in cfg.tiles ==>
          r.canMove == s.canMove && r.targetCell == s.targetCell
          && r.walking == s.walking && r.stepSounds == s.stepSounds)
  }

  /** Trying a cell does what `Tried` says and leaves the facing flags; a refused cell changes nothing. */
  lemma TryMoveEffect(cfg: Config, s: State, target: Cell)
    ensures var r := TryMove(cfg, s, target);
      && Tried(cfg, s, r, target)
      && r.flipX == s.flipX && r.facingUp == s.facingUp && r.facingDown == s.facingDown
      && (target !in cfg.tiles ==> r == s)
  {
  }

  /**
    The Left and Right arms try the candidate cell of their direction,
    clear both facing flags, and flip exactly when that cell lies toward
    smaller x.
  */
  lemma SideCaseEffect(cfg: Config, s: State, d: Direction)
    requires d == Left || d == Right
    ensures var r := if d == Left then LeftCase(cfg, s) else RightCase(cfg, s);
      var c := Candidate(cfg, s.pos, d).value;
      && Tried(cfg, s, r, c)
      && !r.facingUp && !r.facingDown && (r.flipX <==> c.x == s.pos.x - 1)
  {
    if d == Left {
      var turned := s.(facingUp := false, facingDown := false, flipX := true);
      TryMoveEffect(cfg, turned, Candidate(cfg, s.pos, d).value);
    } else {
      var turned := s.(facingUp := false, facingDown := false);
      TryMoveEffect(cfg, turned, Candidate(cfg, s.pos, d).value);
    }
  }

  /** The Up and Down arms try the candidate cell of their direction, facing that way, flip kept. */
  lemma VerticalCaseEffect(cfg: Config, s: State, d: Direction)
    requires d == Up || d == Down
    ensures var r := if d == Up then UpCase(cfg, s) else DownCase(cfg, s);
      && Tried(cfg, s, r, Candidate(cfg, s.pos, d).value)
      && r.facingUp == (d == Up) && r.facingDown == (d == Down) && r.flipX == s.flipX
  {
    TryMoveEffect(cfg, s.(facingUp := d == Up, facingDown := d == Down), Candidate(cfg, s.pos, d).value);
  }

  /** While a move is in flight, or input is locked, a press changes nothing. */
  lemma MoveWhileLocked(cfg: Config, s: State, d: Direction)
    requires !s.canMove
    ensures Move(cfg, s, d) == s
  {
  }

  /**
    What one press does while idle: it counts a step (with a counter
    attached) and starts a move exactly when the candidate cell is walkable,
    heading for that cell; a blocked press leaves the target, walking and
    the sound alone; either way the facing and flip flags are set for the
    direction, and the logical cell and the spin latch stay.
  */
  lemma MoveWhileIdle(cfg: Config, s: State, d: Direction)
    requires s.canMove
    ensures var r := Move(cfg, s, d);
      && (r.canMove <==> !Starts(cfg, s.pos, d))
      && (Starts(cfg, s.pos, d) ==>
            r.targetCell == Candidate(cfg, s.pos, d).value && r.walking
            && r.stepSounds == s.stepSounds + 1)
      && (!Starts(cfg, s.pos, d) ==>
            r.targetCell == s.targetCell && r.walking == s.walking
            && r.stepSounds == s.stepSounds)
      && Faces(cfg, s, r, d)
      && r.pos == s.pos && r.isSpinning == s.isSpinning
      && r.steps == s.steps + (if cfg.hasStepsText then 1 else 0)
  {
    var counted := Counted(cfg, s);
    match d
    case Left => SideCaseEffect(cfg, counted, Left);
    case Right => SideCaseEffect(cfg, counted, Right);
    case Up => VerticalCaseEffect(cfg, counted, Up);
    case Down => VerticalCaseEffect(cfg, counted, Down);
    case Max =>
  }

  /** Every press keeps the invariant. */
  lemma MovePreservesValid(cfg: Config, s: State, d: Direction)
    requires Valid(cfg, s)
    ensures Valid(cfg, Move(cfg, s, d))
  {
    if s.canMove {
      MoveWhileIdle(cfg, s, d);
    } else {
      MoveWhileLocked(cfg, s, d);
    }
  }

  /** No press moves the logical cell or touches the spin latch. */
  lemma MoveKeepsCellAndSpin(cfg: Config, s: State, d: Direction)
    ensures Move(cfg, s, d).pos == s.pos && Move(cfg, s, d).isSpinning == s.isSpinning
  {
    if s.canMove {
      MoveWhileIdle(cfg, s, d);
    } else {
      MoveWhileLocked(cfg, s, d);
    }
  }

  /** A started move, once completed, leaves the character on the candidate cell, idle again. */
  lemma StartedMoveArrivesAtCandidate(cfg: Config, s: State, d: Direction)
    requires s.canMove && Starts(cfg, s.pos, d)
    ensures var r := Arrive(Move(cfg, s, d));
      r.canMove && r.pos == Candidate(cfg, s.pos, d).value && !r.walking && !r.isSpinning
  {
    MoveWhileIdle(cfg, s, d);
    ArriveEffect(Move(cfg, s, d));
  }

  /** Once a press has started a move, every further press is a no-op until the move completes. */
  lemma StartedMoveLocksInput(cfg: Config, s: State, d: Direction, next: Direction)
    requires s.canMove && Starts(cfg, s.pos, d)
    ensures Move(cfg, Move(cfg, s, d), next) == Move(cfg, s, d)
  {
    MoveWhileIdle(cfg, s, d);
    MoveWhileLocked(cfg, Move(cfg, s, d), next);
  }

  /** A blocked press followed by a completion event changes neither the cell nor the lock. */
  lemma BlockedMoveStaysPut(cfg: Config, s: State, d: Direction)
    requires s.canMove && !Starts(cfg, s.pos, d)
    ensures var r := Arrive(Move(cfg, s, d));
      r.canMove && r.pos == s.pos && r.targetCell == s.targetCell
  {
    MoveWhileIdle(cfg, s, d);
    ArriveEffect(Move(cfg, s, d));
  }

  /**
    Up and then Down, both accepted and completed, bring the character back
    to its starting x and y (on its layer).
  */
  lemma UpThenDownReturns(cfg: Config, s: State)
    requires s.canMove
    requires Cell(s.pos.x, s.pos.y + 1, cfg.layer) in cfg.tiles
    requires Cell(s.pos.x, s.pos.y, cfg.layer) in cfg.tiles
    ensures Arrive(Move(cfg, Arrive(Move(cfg, s, Up)), Down)).pos == Cell(s.pos.x, s.pos.y, cfg.layer)
  {
    CandidateTable(cfg, s.pos);
    StartedMoveArrivesAtCandidate(cfg, s, Up);
    var mid := Arrive(Move(cfg, s, Up));
    CandidateTable(cfg, mid.pos);
    StartedMoveArrivesAtCandidate(cfg, mid, Down);
  }

  /**
    The completion event: with a move in flight the character stands on its
    target cell, idle, not walking and not spinning, with the counters,
    target and facing flags kept; with none in flight nothing changes.
  */
  lemma ArriveEffect(s: State)
    ensures var r := Arrive(s);
      && (s.canMove ==> r == s)
      && (!s.canMove ==>
            && r.canMove && r.pos == s.targetCell && !r.walking && !r.isSpinning
            && r.targetCell == s.targetCell && r.steps == s.steps
            && r.stepSounds == s.stepSounds && r.flipX == s.flipX
            && r.facingUp == s.facingUp && r.facingDown == s.facingDown)
  {
  }

  /** The completion event keeps the invariant. */
  lemma ArrivePreservesValid(cfg: Config, s: State)
    requires Valid(cfg, s)
    ensures Valid(cfg, Arrive(s))
  {
    ArriveEffect(s);
  }

  /** The spin call sets the latch and changes nothing else; the lock overwrites only `canMove`. */
  lemma SettersEffect(s: State, b: bool)
    ensures Spin(s).isSpinning && Spin(s).(isSpinning := s.isSpinning) == s
    ensures SetCanMove(s, b).canMove == b && SetCanMove(s, b).(canMove := s.canMove) == s
  {
  }

  /**
    Locking input from outside while idle makes the next completion event
    carry the character to whatever the recorded target is, and unlock it.
  */
  lemma LockThenArriveGoesToTarget(s: State)
    ensures var r := Arrive(SetCanMove(s, false));
      r.canMove && r.pos == s.targetCell && !r.walking && !r.isSpinning
  {
  }

  // ---------------------------------------------------------------------
  // A sequence of presses
  // ---------------------------------------------------------------------

  /** The presses `ds`, applied one after the other with no frame in between. */
  function MoveAll(cfg: Config, s: State, ds: seq<Direction>): State
    decreases |ds|
  {
    if ds == [] then s else MoveAll(cfg, Move(cfg, s, ds[0]), ds[1..])
  }

  /** No run of presses moves the logical cell or touches the spin latch. */
  lemma {:induction false} MoveAllKeepsCellAndSpin(cfg: Config, s: State, ds: seq<Direction>)
    ensures MoveAll(cfg, s, ds).pos == s.pos && MoveAll(cfg, s, ds).isSpinning == s.isSpinning
    decreases |ds|
  {
    if ds != [] {
      MoveKeepsCellAndSpin(cfg, s, ds[0]);
      MoveAllKeepsCellAndSpin(cfg, Move(cfg, s, ds[0]), ds[1..]);
    }
  }

  /** The directions tried by one input pass, in the order they are tried. */
  function Pressed(keys: Keys): seq<Direction> {
    (if keys.up then [Up] else []) + (if keys.down then [Down] else []) +
    (if keys.left then [Left] else []) + (if keys.right then [Right] else [])
  }

  /**
    Index of the first direction in `ds` that would start a move from
    `pos`, or |ds| when none would.
  */
  function FirstStart(cfg: Config, pos: Cell, ds: seq<Direction>): (k: nat)
    ensures k <= |ds|
    ensures forall j | 0 <= j < k :: !Starts(cfg, pos, ds[j])
    ensures k < |ds| ==> Starts(cfg, pos, ds[k])
    decreases |ds|
  {
    if ds == [] then 0
    else if Starts(cfg, pos, ds[0]) then 0
    else 1 + FirstStart(cfg, pos, ds[1..])
  }

  lemma {:induction false} MoveAllAppend(cfg: Config, s: State, a: seq<Direction>, b: seq<Direction>)
    ensures MoveAll(cfg, s, a + b) == MoveAll(cfg, MoveAll(cfg, s, a), b)
    decreases |a|
  {
    if a == [] {
      assert a + b == b;
    } else {
      assert (a + b)[0] == a[0];
      assert (a + b)[1..] == a[1..] + b;
      MoveAllAppend(cfg, Move(cfg, s, a[0]), a[1..], b);
    }
  }

  /** While input is locked every press is a no-op. */
  lemma {:induction false} MoveAllWhileLocked(cfg: Config, s: State, ds: seq<Direction>)
    requires !s.canMove
    ensures MoveAll(cfg, s, ds) == s
    decreases |ds|
  {
    if ds != [] {
      MoveWhileLocked(cfg, s, ds[0]);
      MoveAllWhileLocked(cfg, Move(cfg, s, ds[0]), ds[1..]);
    }
  }

  /**
    Presses made while idle: every press up to and including the first one
    that starts a move counts a step; exactly that one starts a move, toward
    its candidate cell; the presses after it change nothing. When none starts
    a move, the character stays idle and its target and walking flag stay.
  */
  lemma {:induction false} MoveAllFirstStartWins(cfg: Config, s: State, ds: seq<Direction>)
    requires s.canMove
    ensures var k := FirstStart(cfg, s.pos, ds);
      var done := if k < |ds| then k + 1 else |ds|;
      var r := MoveAll(cfg, s, ds);
      && r.steps == s.steps + (if cfg.hasStepsText then done else 0)
      && (r.canMove <==> k == |ds|)
      && r.stepSounds == s.stepSounds + (if k < |ds| then 1 else 0)
      && (k < |ds| ==> r.targetCell == Candidate(cfg, s.pos, ds[k]).value && r.walking)
      && (k == |ds| ==> r.targetCell == s.targetCell && r.walking == s.walking)
      && r == MoveAll(cfg, s, ds[..done])
    decreases |ds|
  {
    if ds == [] {
      assert ds[..0] == ds;
    } else {
      var s1 := Move(cfg, s, ds[0]);
      MoveWhileIdle(cfg, s, ds[0]);
      if Starts(cfg, s.pos, ds[0]) {
        MoveAllWhileLocked(cfg, s1, ds[1..]);
        assert ds[..1][1..] == [];
      } else {
        MoveAllFirstStartWins(cfg, s1, ds[1..]);
        var k1 := FirstStart(cfg, s1.pos, ds[1..]);
        var done1 := if k1 < |ds| - 1 then k1 + 1 else |ds| - 1;
        assert ds[..done1 + 1][1..] == ds[1..][..done1];
      }
    }
  }

  /** A run of presses that are all blocked counts one step each and moves nothing. */
  lemma BlockedPressesCountSteps(cfg: Config, s: State, ds: seq<Direction>)
    requires s.canMove
    requires forall i | 0 <= i < |ds| :: !Starts(cfg, s.pos, ds[i])
    ensures var r := MoveAll(cfg, s, ds);
      && r.canMove && r.pos == s.pos && r.targetCell == s.targetCell
      && r.walking == s.walking && r.stepSounds == s.stepSounds
      && r.steps == s.steps + (if cfg.hasStepsText then |ds| else 0)
  {
    MoveAllFirstStartWins(cfg, s, ds);
    MoveAllKeepsCellAndSpin(cfg, s, ds);
    assert FirstStart(cfg, s.pos, ds) == |ds|;
  }

  lemma {:induction false} MoveAllPreservesValid(cfg: Config, s: State, ds: seq<Direction>)
    requires Valid(cfg, s)
    ensures Valid(cfg, MoveAll(cfg, s, ds))
    decreases |ds|
  {
    if ds != [] {
      MovePreservesValid(cfg, s, ds[0]);
      MoveAllPreservesValid(cfg, Move(cfg, s, ds[0]), ds[1..]);
    }
  }

  // ---------------------------------------------------------------------
  // One input pass
  // ---------------------------------------------------------------------

  lemma MoveAllSingle(cfg: Config, s: State, pressed: bool, d: Direction)
    ensures MoveAll(cfg, s, if pressed then [d] else []) == if pressed then Move(cfg, s, d) else s
  {
    if pressed {
      assert [d][1..] == [];
    }
  }

  /** An input pass is the pressed directions applied in the order Up, Down, Left, Right. */
  lemma HandleInputIsMoveAll(cfg: Config, s: State, keys: Keys)
    ensures HandleInput(cfg, s, keys) == MoveAll(cfg, s, Pressed(keys))
  {
    var u := if keys.up then [Up] else [];
    var dn := if keys.down then [Down] else [];
    var l := if keys.left then [Left] else [];
    var rt := if keys.right then [Right] else [];
    MoveAllAppend(cfg, s, u + dn + l, rt);
    MoveAllAppend(cfg, s, u + dn, l);
    MoveAllAppend(cfg, s, u, dn);
    MoveAllSingle(cfg, s, keys.up, Up);
    var s1 := MoveAll(cfg, s, u);
    MoveAllSingle(cfg, s1, keys.down, Down);
    var s2 := MoveAll(cfg, s1, dn);
    MoveAllSingle(cfg, s2, keys.left, Left);
    var s3 := MoveAll(cfg, s2, l);
    MoveAllSingle(cfg, s3, keys.right, Right);
  }

  /**
    One input pass starts at most one move: the step sound plays once if the
    pass left input locked having found it open, and never otherwise. The
    logical cell and the spin latch are untouched.
  */
  lemma HandleInputStartsAtMostOne(cfg: Config, s: State, keys: Keys)
    ensures var r := HandleInput(cfg, s, keys);
      && r.pos == s.pos && r.isSpinning == s.isSpinning
      && r.stepSounds == s.stepSounds + (if s.canMove && !r.canMove then 1 else 0)
      && (!s.canMove ==> r == s)
  {
    HandleInputIsMoveAll(cfg, s, keys);
    MoveAllKeepsCellAndSpin(cfg, s, Pressed(keys));
    if s.canMove {
      MoveAllFirstStartWins(cfg, s, Pressed(keys));
    } else {
      MoveAllWhileLocked(cfg, s, Pressed(keys));
    }
  }

  /**
    One input pass while idle: the pressed directions before the first
    walkable one, and that one, each count a step; the move that starts is
    toward the first walkable direction's candidate cell; the directions
    pressed after it do nothing.
  */
  lemma HandleInputFirstWalkableWins(cfg: Config, s: State, keys: Keys)
    requires s.canMove
    ensures var ds := Pressed(keys);
      var k := FirstStart(cfg, s.pos, ds);
      var done := if k < |ds| then k + 1 else |ds|;
      var r := HandleInput(cfg, s, keys);
      && r.steps == s.steps + (if cfg.hasStepsText then done else 0)
      && (k < |ds| ==> !r.canMove && r.targetCell == Candidate(cfg, s.pos, ds[k]).value)
      && (k == |ds| ==> r.canMove && r.targetCell == s.targetCell)
      && r == MoveAll(cfg, s, ds[..done])
  {
    HandleInputIsMoveAll(cfg, s, keys);
    MoveAllFirstStartWins(cfg, s, Pressed(keys));
  }

  // ---------------------------------------------------------------------
  // Runs of frames and calls
  // ---------------------------------------------------------------------

  /** What can happen to a controller: a frame, or a call of one of its public setters. */
  datatype Event = Frame(arrived: bool, keys: Keys) | SpinCall | SetCanMoveCall(canMove: bool)

  function Apply(cfg: Config, s: State, e: Event): State {
    match e
    case Frame(arrived, keys) => Update(cfg, s, arrived, keys)
    case SpinCall => Spin(s)
    case SetCanMoveCall(b) => SetCanMove(s, b)
  }

  function Run(cfg: Config, s: State, es: seq<Event>): State
    decreases |es|
  {
    if es == [] then s else Run(cfg, Apply(cfg, s, es[0]), es[1..])
  }

  /**
    One frame: a completion (only possible with a move in flight) puts the
    character on its target cell and clears the spin latch; otherwise the
    frame keeps both the cell and the latch.
  */
  lemma UpdateCommitsArrival(cfg: Config, s: State, arrived: bool, keys: Keys)
    ensures var r := Update(cfg, s, arrived, keys);
      && (arrived && !s.canMove ==> r.pos == s.targetCell && !r.isSpinning)
      && (!(arrived && !s.canMove) ==> r.pos == s.pos && r.isSpinning == s.isSpinning)
  {
    ArriveEffect(s);
    HandleInputStartsAtMostOne(cfg, if arrived then Arrive(s) else s, keys);
  }

  lemma ApplyPreservesValid(cfg: Config, s: State, e: Event)
    requires Valid(cfg, s)
    ensures Valid(cfg, Apply(cfg, s, e))
  {
    match e
    case Frame(arrived, keys) =>
      var a := if arrived then Arrive(s) else s;
      ArrivePreservesValid(cfg, s);
      HandleInputIsMoveAll(cfg, a, keys);
      MoveAllPreservesValid(cfg, a, Pressed(keys));
    case SpinCall =>
    case SetCanMoveCall(b) =>
  }

  /** From a valid state, every run of frames and calls keeps the invariant. */
  lemma {:induction false} RunPreservesValid(cfg: Config, s: State, es: seq<Event>)
    requires Valid(cfg, s)
    ensures Valid(cfg, Run(cfg, s, es))
    decreases |es|
  {
    if es != [] {
      ApplyPreservesValid(cfg, s, es[0]);
      RunPreservesValid(cfg, Apply(cfg, s, es[0]), es[1..]);
    }
  }

  /** The start-up state satisfies the invariant. */
  lemma InitialIsValid(cfg: Config, start: Cell, origin: Cell, flipX: bool)
    ensures Valid(cfg, Initial(start, origin, flipX))
  {
  }

  /**
    The spin latch: once set, it stays set through any frames and calls in
    which no move completes.
  */
  lemma {:induction false} SpinLatch(cfg: Config, s: State, es: seq<Event>)
    requires s.isSpinning
    requires forall i | 0 <= i < |es| :: !(es[i].Frame? && es[i].arrived)
    ensures Run(cfg, s, es).isSpinning
    decreases |es|
  {
    if es != [] {
      var s1 := Apply(cfg, s, es[0]);
      if es[0].Frame? {
        UpdateCommitsArrival(cfg, s, es[0].arrived, es[0].keys);
      }
      SpinLatch(cfg, s1, es[1..]);
    }
  }

  /**
    Presses made one at a time, each followed by the completion of whatever
    move it started: every press is made while idle, so every one counts a
    step whether or not its cell was walkable.
  */
  function Walk(cfg: Config, s: State, ds: seq<Direction>): State
    decreases |ds|
  {
    if ds == [] then s else Walk(cfg, Arrive(Move(cfg, s, ds[0])), ds[1..])
  }

  lemma {:induction false} WalkCountsEveryPress(cfg: Config, s: State, ds: seq<Direction>)
    requires s.canMove
    ensures Walk(cfg, s, ds).canMove
    ensures Walk(cfg, s, ds).steps == s.steps + (if cfg.hasStepsText then |ds| else 0)
    decreases |ds|
  {
    if ds != [] {
      MoveWhileIdle(cfg, s, ds[0]);
      ArriveEffect(Move(cfg, s, ds[0]));
      var s1 := Arrive(Move(cfg, s, ds[0]));
      WalkCountsEveryPress(cfg, s1, ds[1..]);
    }
  }

  // ---------------------------------------------------------------------
  // A worked scenario
  // ---------------------------------------------------------------------

  /**
    Starting idle on (0,0) on a tilemap that has a tile at (0,1) but none at
    (1,0): Right is refused (the character stays, idle, unflipped); Up is
    accepted and heads for (0,1); on completion the character stands on
    (0,1), idle.
  */
  lemma BlockedRightThenUp(s: State, tiles: set<Cell>, hasStepsText: bool)
    requires s.pos == Cell(0, 0, 0) && s.canMove
    requires Cell(1, 0, 0) !in tiles && Cell(0, 1, 0) in tiles
    ensures var cfg := Config(0, false, hasStepsText, tiles);
      var right := Move(cfg, s, Right);
      var up := Move(cfg, right, Up);
      var done := Arrive(up);
      && right.canMove && right.pos == Cell(0, 0, 0) && !right.flipX
      && !up.canMove && up.targetCell == Cell(0, 1, 0) && up.walking
      && done.canMove && done.pos == Cell(0, 1, 0) && !done.walking
  {
    var cfg := Config(0, false, hasStepsText, tiles);
    MoveWhileIdle(cfg, s, Right);
    var right := Move(cfg, s, Right);
    MoveWhileIdle(cfg, right, Up);
    ArriveEffect(Move(cfg, right, Up));
  }
}
