# Grid movement of the Reflection puzzle game

This project models the grid-movement controller `GridMovementBase` of the
Unity puzzle game Reflection, and proves properties of that model.

- **Cell.** A character stands on a logical cell of a walkable tilemap.
- **Moving.** While it accepts input (`canMove`), a direction press turns
  into a neighbouring candidate cell. Left and Right are swapped when the
  controls are inverted. If the candidate cell holds a tile, a move
  starts. Input then stays locked until the move completes.
- **Every press.** Each press made while idle counts a step, when a step
  counter is attached, whether the cell was walkable or not. It also sets
  the facing and flip flags.
- **Completion.** A completed move puts the character on its target cell,
  unlocks input, and stops the walking and spin animations.

The project has three modules:

- `GridState` (`grid_state.dfy`) holds the controller's state as a datatype.
  Each operation is a pure transition function, written branch for branch
  like the source:
  - `TryMove`, `Move` with one function per arm of its switch (`LeftCase`,
    `RightCase`, `UpCase`, `DownCase`);
  - `Arrive`, the arrival branch of `Update`;
  - `Spin`, `SetCanMove`, `HandleInput` and `Update`;
  - the reference definition `Candidate` of the cell a press tries to enter;
  - the invariant `Valid`.
- `GridProperties` (`grid_properties.dfy`) proves what those functions
  promise:
  - one press, and each arm of the switch;
  - a sequence of presses (`MoveAll`), and one input pass;
  - arbitrary runs of frames and setter calls (`Run`).
- `GridMovement` (`grid_movement.dfy`) is the controller as a class. Its
  fields are updated in place, with one method per operation of the
  source. Each method's postcondition ties the new fields, read together
  as `Snapshot()`, to the matching `GridState` function applied to the old
  ones. Methods that the source's callers reach also keep `Valid()`.

Walkability is a parameter: `tiles` is the set of cells whose tile is not
null. The tilemap's world-to-cell and cell-centre conversions are treated
as inverse maps. So `TryMove` checks `target in tiles`, and arrival sets
the logical cell to the target cell. The integer z of the character's
transform is a fixed `layer`, and it is the z of every candidate cell. The
animator and sprite flags become boolean fields: `flipX`, `facingUp`,
`facingDown`, `walking` and `isSpinning`. The audio source becomes a
counter, `stepSounds`, of how often the step sound was started.

Behaviour of the code that the model keeps:

- The step counter rises only when a counter display is attached
  (Reflection/Assets/Scripts/GridMovementBase.cs:126-127).
- Blocked presses and the sentinel direction `kMax` still count a step.
- Under inverted controls, `flipX` follows the x offset actually moved,
  not the key pressed. It is set exactly when the move goes toward smaller
  x (lines 135-157).
- The move in flight and the external lock share the one flag `canMove`.

## Model

The transition functions of `GridState` (`Candidate`, `TryMove`,
`LeftCase` to `DownCase`, `Move`, `Arrive`, `Spin`, `SetCanMove`,
`HandleInput`, `Update`, and the predicates `Faces` and `Valid`) carry no
contracts of their own. The class-method rows below stand for them, and the
`GridProperties` rows state what they promise.

| member | source | states |
|---|---|---|
| `GridMovement.GridMovementBase.constructor` | Reflection/Assets/Scripts/GridMovementBase.cs:40-50 | Start-up state: on the start cell, idle, not spinning, zero steps, target at the world-origin cell, no facing flag, not walking; satisfies the invariant |
| `GridMovement.GridMovementBase.SetCanMove` | Reflection/Assets/Scripts/GridMovementBase.cs:59 | Overwrites only `canMove`, and keeps the invariant |
| `GridMovement.GridMovementBase.GetCanMove` | Reflection/Assets/Scripts/GridMovementBase.cs:60 | Returns `canMove` |
| `GridMovement.GridMovementBase.Spin` | Reflection/Assets/Scripts/GridMovementBase.cs:65 | Sets the spin latch in any state, changing nothing else |
| `GridMovement.GridMovementBase.TryMove` | Reflection/Assets/Scripts/GridMovementBase.cs:175-194 | Returns true exactly when the target cell is walkable; the new fields are `GridState.TryMove` of the old ones |
| `GridMovement.GridMovementBase.Move` | Reflection/Assets/Scripts/GridMovementBase.cs:122-173 | The new fields are `GridState.Move` of the old ones (guard, step count, switch), and the invariant is kept |
| `GridMovement.GridMovementBase.MoveLeft` | Reflection/Assets/Scripts/GridMovementBase.cs:131-145 | The Left arm: fields become `LeftCase` of the old ones |
| `GridMovement.GridMovementBase.MoveRight` | Reflection/Assets/Scripts/GridMovementBase.cs:146-159 | The Right arm: fields become `RightCase` of the old ones |
| `GridMovement.GridMovementBase.MoveUp` | Reflection/Assets/Scripts/GridMovementBase.cs:160-164 | The Up arm: fields become `UpCase` of the old ones |
| `GridMovement.GridMovementBase.MoveDown` | Reflection/Assets/Scripts/GridMovementBase.cs:165-169 | The Down arm: fields become `DownCase` of the old ones |
| `GridMovement.GridMovementBase.UpdatePosition` | Reflection/Assets/Scripts/GridMovementBase.cs:196-199 | The logical cell becomes the target cell, with nothing else changed |
| `GridMovement.GridMovementBase.Arrive` | Reflection/Assets/Scripts/GridMovementBase.cs:76-91 | The arrival branch: fields become `GridState.Arrive` of the old ones, and the invariant is kept |
| `GridMovement.GridMovementBase.HandleInput` | Reflection/Assets/Scripts/GridMovementBase.cs:98-115 | Presses Up, Down, Left, Right in that order; fields become `GridState.HandleInput` of the old ones |
| `GridMovement.GridMovementBase.Update` | Reflection/Assets/Scripts/GridMovementBase.cs:74-96 | One frame: arrival (if in flight and arrived), then input; fields become `GridState.Update` of the old ones |
| `GridProperties.CandidateTable` | Reflection/Assets/Scripts/GridMovementBase.cs:129-171 | Up is (x, y+1) and Down (x, y-1); Left is (x-1, y), or (x+1, y) inverted; Right is (x+1, y), or (x-1, y) inverted; all on the layer; `kMax` has no candidate |
| `GridProperties.InversionSwapsLeftRight` | Reflection/Assets/Scripts/GridMovementBase.cs:135-157 | Inverted Left targets the cell of non-inverted Right, and the reverse |
| `GridProperties.UpDownOpposite` | Reflection/Assets/Scripts/GridMovementBase.cs:160-168 | The Down candidate of the Up candidate has the starting x and y |
| `GridProperties.CandidateIsAdjacent` | Reflection/Assets/Scripts/GridMovementBase.cs:129-171 | Only `kMax` has no candidate; every other candidate is a grid neighbour on the layer |
| `GridProperties.TryMoveEffect` | Reflection/Assets/Scripts/GridMovementBase.cs:175-194 | Walkable: locks input, records the target, starts walking, plays the sound once. Not walkable: changes nothing. Cell, steps, spin and facing are never touched |
| `GridProperties.SideCaseEffect` | Reflection/Assets/Scripts/GridMovementBase.cs:131-159 | The Left/Right arms try their candidate cell, clear both facing flags, and flip exactly when that cell has smaller x |
| `GridProperties.VerticalCaseEffect` | Reflection/Assets/Scripts/GridMovementBase.cs:160-169 | The Up/Down arms try their candidate cell, set that facing flag and clear the other, and keep the flip |
| `GridProperties.MoveWhileLocked` | Reflection/Assets/Scripts/GridMovementBase.cs:124 | A press while `canMove` is false changes no field at all |
| `GridProperties.MoveWhileIdle` | Reflection/Assets/Scripts/GridMovementBase.cs:122-173 | A press while idle: raises steps by exactly 1 with a counter (by 0 without, for `kMax` too); starts a move iff the candidate is walkable, then toward it with one sound; otherwise leaves target, walking and sound; sets facing/flip as `Faces` says; keeps cell and spin latch |
| `GridProperties.MovePreservesValid` | Reflection/Assets/Scripts/GridMovementBase.cs:122-194 | Every press keeps the invariant: facing flags exclusive, walking toward a walkable cell, step sounds at most steps when counted |
| `GridProperties.MoveKeepsCellAndSpin` | Reflection/Assets/Scripts/GridMovementBase.cs:122-173 | No press changes the logical cell or the spin latch |
| `GridProperties.StartedMoveLocksInput` | Reflection/Assets/Scripts/GridMovementBase.cs:179-187 | After a press that started a move, any further press is a no-op |
| `GridProperties.StartedMoveArrivesAtCandidate` | Reflection/Assets/Scripts/GridMovementBase.cs:76-91 | A started move, once completed, leaves the character idle on the candidate cell, not walking, not spinning |
| `GridProperties.BlockedMoveStaysPut` | Reflection/Assets/Scripts/GridMovementBase.cs:189-193 | A blocked press then an arrival event leaves input open, the cell and the target unchanged |
| `GridProperties.UpThenDownReturns` | Reflection/Assets/Scripts/GridMovementBase.cs:160-169 | Up then Down, both walkable and completed, bring the character back to its start x and y |
| `GridProperties.ArriveEffect` | Reflection/Assets/Scripts/GridMovementBase.cs:76-91 | With a move in flight: idle, on the target cell, not walking, not spinning, all else kept. With none: nothing changes |
| `GridProperties.ArrivePreservesValid` | Reflection/Assets/Scripts/GridMovementBase.cs:76-91 | Arrival keeps the invariant |
| `GridProperties.SettersEffect` | Reflection/Assets/Scripts/GridMovementBase.cs:59-65 | `Spin` sets only the spin latch; `SetCanMove` sets only `canMove` |
| `GridProperties.LockThenArriveGoesToTarget` | Reflection/Assets/Scripts/GridMovementBase.cs:76-82 | `SetCanMove(false)` makes the next arrival carry the character to the recorded target and unlock it |
| `GridProperties.MoveAllKeepsCellAndSpin` | Reflection/Assets/Scripts/GridMovementBase.cs:122-173 | No sequence of presses changes the logical cell or the spin latch |
| `GridProperties.FirstStart` | Reflection/Assets/Scripts/GridMovementBase.cs:100-115 | The index of the first press that would start a move: every earlier one is blocked, and that one is walkable (or the index is the length) |
| `GridProperties.MoveAllWhileLocked` | Reflection/Assets/Scripts/GridMovementBase.cs:124 | While input is locked, any sequence of presses changes nothing |
| `GridProperties.MoveAllFirstStartWins` | Reflection/Assets/Scripts/GridMovementBase.cs:122-194 | Presses from idle: each up to and including the first walkable one counts a step; exactly that one starts a move, toward its candidate, with one sound; the rest are no-ops; if none is walkable the character stays idle with target and walking kept |
| `GridProperties.BlockedPressesCountSteps` | Reflection/Assets/Scripts/GridMovementBase.cs:126-127 | Presses that are all blocked count one step each and move nothing |
| `GridProperties.MoveAllPreservesValid` | Reflection/Assets/Scripts/GridMovementBase.cs:122-194 | Any sequence of presses keeps the invariant |
| `GridProperties.HandleInputIsMoveAll` | Reflection/Assets/Scripts/GridMovementBase.cs:98-115 | An input pass is the pressed directions applied in the order Up, Down, Left, Right |
| `GridProperties.HandleInputStartsAtMostOne` | Reflection/Assets/Scripts/GridMovementBase.cs:98-115 | An input pass starts at most one move (one sound, only if it locked open input), keeps cell and spin, and is a no-op while locked |
| `GridProperties.HandleInputFirstWalkableWins` | Reflection/Assets/Scripts/GridMovementBase.cs:98-115 | From idle: the first walkable pressed direction starts the move; it and those before it count steps; those after do nothing |
| `GridProperties.UpdateCommitsArrival` | Reflection/Assets/Scripts/GridMovementBase.cs:74-96 | A frame with an arrival puts the character on its target and clears spin; any other frame keeps cell and spin |
| `GridProperties.ApplyPreservesValid` | Reflection/Assets/Scripts/GridMovementBase.cs:59-96 | A frame, a spin call or a lock call keeps the invariant |
| `GridProperties.RunPreservesValid` | Reflection/Assets/Scripts/GridMovementBase.cs:59-96 | Any run of frames and calls from a valid state keeps the invariant |
| `GridProperties.InitialIsValid` | Reflection/Assets/Scripts/GridMovementBase.cs:40-50 | The start-up state satisfies the invariant |
| `GridProperties.SpinLatch` | Reflection/Assets/Scripts/GridMovementBase.cs:65-91 | Once set, the spin latch stays set through any frames and calls in which no move completes |
| `GridProperties.WalkCountsEveryPress` | Reflection/Assets/Scripts/GridMovementBase.cs:124-127 | Presses made one at a time, each followed by completion, leave the character idle and count one step per press with a counter |
| `GridProperties.BlockedRightThenUp` | Reflection/Assets/Scripts/GridMovementBase.cs:146-164 | Worked case on (0,0): Right into a missing tile is refused (idle, unflipped); Up into (0,1) starts; arrival stands on (0,1), idle |

## Left out

- Floating-point interpolation in `Update` (`Vector3.MoveTowards`, the
  0.001 distance test, `Time.deltaTime`, `m_moveSpeed`). It is numerics,
  not logic. Arrival is an abstract boolean `arrived` per frame.
- Tilemap internals (`WorldToCell`, `GetCellCenterWorld`, `GetTile`) are
  engine calls. Walkability is the set `tiles`, and cell centre and
  world-to-cell are taken as inverse maps. The float-to-int cast of the
  transform's z is the fixed integer `layer`.
- Animator, SpriteRenderer and AudioSource calls become boolean fields
  and a play counter. The animator's `isFacingUp`, `isFacingDown` and
  `isWalking` are assumed to start false. The initial `flipX` is a
  constructor parameter.
- `Input.GetKeyDown` polling is input. A frame's keys are a `Keys` value;
  a letter key and its arrow are folded into one flag.
- The restart key and `RestartScene` are engine scene control.
- `m_partner`, `m_isAtGoal` with `SetAtGoal`/`GetAtGoal`, `m_direction`,
  and `m_atDestination` are inert: `Move` and `Update` never read them.
- `m_intendedTargetPosition` is not a separate field. `TryMove` writes the
  target cell's centre there and copies it into `m_targetPosition`
  (lines 177-182). The model folds that flow into `targetCell`. The zero
  written on a refused target (line 191) is never read back.
- `SetTargetPosition` and `GetTargetPosition` take world-space floats.
  The target is kept only as a cell.
- GridProperties.MoveWhileIdle: the step counter is an unbounded `nat`,
  so the model does not capture the 32-bit `int` wrap-around of `m_steps`
  after 2^31 - 1 counted presses.
- The engine handles (animator, sprite renderer, audio source, walkable
  tilemap) are assumed present, so the null-reference paths are not
  modelled. For example, a missing AudioSource would throw at line 186
  after `m_canMove` is already false, and skip the flip that follows the
  `TryMove` call. The counter display update `ChangeSore` (line 127) is a
  presentation effect; only the rise of `m_steps` is modelled.
- The `(int)transform.position.z` cast is read once as `layer`. The model
  assumes the transform's z never changes.
