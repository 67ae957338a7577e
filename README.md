# Ray caster movement and collision step

This project models the CPU side of a small SDL/OpenGL ray caster: the part of its
game loop in `main` that does not draw. It covers:

- the 5 x 5 x 3 `worldMap` table of 75 entries. Every collision test reads index
  `int(x) + int(y) * MAP_WIDTH`, where C++ `int()` truncates toward zero. Rows
  0-4 of that formula fall in the first layer; rows 5-14 fall in layers 2 and 3,
  which the formula treats as further rows of the same 5-wide grid;
- the 128-entry key table `m_keys`, written by key-down and key-up events. A quit
  event sets the `quit` flag, and so does a held Escape key;
- the per-frame movement step. From W/S/A/D it picks a step length, `MOVESPEED` or
  `MOVESPEED * 0.70710678118`. It then moves `pos` one coordinate at a time, and
  each coordinate update is committed only when the map cell at the candidate
  position is 0. W wins over S and A wins over D. Each test reads the position
  left by the statements before it;
- the frame-time update, computed from two clock readings.

The modules are:

- `GridMap`: the map, truncation, the index formula and the layout of the open
  cells.
- `KeyState`: the key table as a value and the effect of a sequence of events.
- `Movement`: the step as functions of the map, the key table, `pos` and `dir`,
  plus the lemmas about them.
- `Game`: the whole loop as a function `RunFrom` of its inputs, and a class
  `RayCaster` holding `pos`, `dir`, the key array, the quit flag and the clocks.
  The class methods make the same statement-by-statement updates as the source.
  The event, movement and loop methods are proved equal to the `KeyState`,
  `Movement` and `RunFrom` functions. `CheckEscape` and `Tick` state their new
  fields directly.

In C++ a read outside `worldMap` is undefined behaviour. The model makes it
explicit: `MoveX` and `MoveY` return `OutOfMap(index)` for such a read. The class
methods require that the functions return `Moved`, so every array read in
`Game` is proved to be in range. `RunFrom` reports such a read as
`ReadOutside(frame, index)`.

Each frame of the loop takes three inputs from outside the program:

- the polled events;
- the view direction that the frame's mouse motion leaves;
- the clock reading at the end of the frame.

Two behaviours of the code that a reader might expect otherwise; the model
follows the code:

- The movement step is not scaled by `frameTime`: every frame moves by the
  constant `MOVESPEED`. `frameTime` is used only by the mouse rotation.
- The y test of each branch reads the x coordinate that the x statement just
  updated, rather than testing both axes against the old position.

## Model

| member | source | states |
|---|---|---|
| GridMap.Trunc | Source.cpp:227 | C++ `int()` on a real: the result is within 1 of the argument on the zero side, i.e. the floor for non-negative values and the ceiling for negative ones |
| GridMap.MapIndexCell | Source.cpp:227 | for a position with 0 <= x < 5 and y >= 0, the index read is non-negative and decodes back to its cell: column `int(x)` (the index mod 5) and row `int(y)` (the index div 5) |
| GridMap.WorldMapLayout | Source.cpp:24-43 | the map has 75 entries, and in its first layer the cell in column c and row r is 0 exactly when c and r both lie in 1..3 |
| GridMap.OpenExactlyInside | Source.cpp:227 | for a position in [0,5) x [0,5), the index `int(x)+int(y)*5` lies within the map, and its cell is 0 exactly when both coordinates lie in [1,4) |
| KeyState.SetKey | Source.cpp:183-190 | the table keeps 128 entries; a code below 128 gets the new value and every other entry is unchanged; a code of 128 or more leaves the table as it was |
| KeyState.ApplyEvent | Source.cpp:181-207 | one polled event keeps the table at 128 entries; what it writes is stated by `SetKey` and `LastEventWins` |
| KeyState.ApplyEvents | Source.cpp:179-208 | the events of one polling loop, applied in arrival order, keep the table at 128 entries; `LastEventWins` states what each entry then holds |
| KeyState.LastEventWins | Source.cpp:179-190 | after a sequence of events, each key's entry is the state given by the last key event for that code, or the old entry if there was none |
| KeyState.HighCodesIgnored | Source.cpp:183-190 | events whose codes are all 128 or more leave the table unchanged |
| Movement.Multiplier | Source.cpp:214-223 | the step length is `MOVESPEED * 0.70710678118` exactly when (W or S) and (A or D) are held, and `MOVESPEED` otherwise |
| Movement.MoveX | Source.cpp:227-245 | one x statement: the result is out of map exactly when the index at (x+dx, y) is outside the 75 entries; a 0 cell commits `x + dx`; a nonzero cell leaves the position exactly as it was; y never changes |
| Movement.MoveY | Source.cpp:228-245 | one y statement, the mirror of `MoveX`: it reads the current x and changes only y |
| Movement.Slide | Source.cpp:227-228 | the two tests of one key: an out-of-map result names an index outside the map, and otherwise each coordinate either stays or moves by exactly its signed step |
| Movement.Forward | Source.cpp:225-234 | with neither W nor S the position is unchanged; with W each coordinate stays or moves by `+dir * multiplier`; with S alone, by `-dir * multiplier` |
| Movement.Strafe | Source.cpp:235-246 | with neither A nor D the position is unchanged; with A each coordinate stays or moves by the step turned left, `(-dir.y, dir.x) * multiplier`; with D alone, by the step turned right |
| Movement.StepVector | Source.cpp:214-227 | for a direction in the unit box, both components of `dir * multiplier` are at most `MOVESPEED` in size |
| Movement.StepSpec | Source.cpp:213-246 | an out-of-map outcome names an index outside the map; the lemmas below state what the step does |
| Movement.NoKeysNoMove | Source.cpp:225-246 | with none of W, S, A, D held, the position is unchanged and no cell is read |
| Movement.ForwardWins | Source.cpp:225-234 | with W held, the step is the same whether or not S is held |
| Movement.LeftWins | Source.cpp:235-246 | with A held, the step is the same whether or not D is held |
| Movement.SourceStartReadsOutside | Source.cpp:105-106 | from the start state `pos = (22, 13.5)`, `dir = (-1, 0)`, the step stays in the map exactly when no movement key is held; with W held its first read is index 86 of a 75-entry table |
| Movement.StartForward | Source.cpp:225-234 | from the source start, W reads index 86, S reads index 87, and neither key leaves the position in place |
| Movement.StartStrafe | Source.cpp:235-246 | from the source start, A or D reads index 87, and neither key leaves the position in place |
| Movement.MoveXInside | Source.cpp:227 | from the open interior, an x statement with \|dx\| <= 1 reads in range and moves x to x+dx exactly when that stays in [1,4) |
| Movement.MoveYInside | Source.cpp:228 | the same for a y statement |
| Movement.SlideInside | Source.cpp:227-228 | a two-statement branch from the interior stays in range and in the interior |
| Movement.ForwardInside | Source.cpp:225-234 | the W/S half of the step from the interior with a short step vector stays in range and in the interior |
| Movement.StrafeInside | Source.cpp:235-246 | the A/D half of the step does the same |
| Movement.StepKeepsInterior | Source.cpp:213-246 | for any key table, from the open interior with a direction in the unit box, every read of the step is in range and the player ends in the interior |
| Movement.SequentialOrderMatters | Source.cpp:227-228 | a concrete step from (0.99, 1.5), inside wall cell 5, by (0.02, 0.02): it ends at (1.01, 1.52) under the sequential tests, but at (1.01, 1.5) if both tests read the old position. By `OrderInvisibleInside` no interior start can show the difference |
| Movement.OrderInvisibleInside | Source.cpp:227-228 | the two orders agree when both candidate coordinates stay inside the open cells, so the order shows only at walls |
| Movement.UnitComponents | Source.cpp:106 | helper arithmetic, no statement of its own: a unit direction such as `dir = (-1, 0)` has both components in [-1,1] |
| Movement.ShortStep | Source.cpp:214-223 | helper arithmetic for `StepVector`: a unit-box component times either of the two step lengths is at most `MOVESPEED` in size |
| Movement.FreeSlide | Source.cpp:227-228 | away from the walls, a branch commits both coordinates by exactly the signed step |
| Movement.FreeForward | Source.cpp:225-234 | away from the walls, W adds the step vector, S subtracts it, and with neither the position is unchanged |
| Movement.FreeStrafe | Source.cpp:235-246 | away from the walls, A adds the step vector turned left, D adds it turned right, and with neither the position is unchanged |
| Movement.FreeStep | Source.cpp:213-246 | away from the walls, the whole step adds the sum of the forward part and the strafe part |
| Movement.RotatedSum | Source.cpp:238-239 | helper arithmetic for `DiagonalDisplacement`: for a unit direction, the forward step plus the step turned left has squared length 2·m² |
| Movement.ForwardDisplacement | Source.cpp:214-229 | with W held and no strafe key, the displacement has squared length `MOVESPEED²` |
| Movement.DiagonalDisplacement | Source.cpp:214-240 | with W and A held, the displacement has squared length 2·0.70710678118²·`MOVESPEED²` |
| Movement.ShiftDistance | Source.cpp:227-245 | helper arithmetic for the speed lemmas: moving by d puts the new position at squared distance \|d\|² from the old one |
| Movement.ForwardSpeed | Source.cpp:214-229 | away from the walls, a W-only frame along a unit direction moves exactly `MOVESPEED` |
| Movement.DiagonalSpeed | Source.cpp:213-240 | away from the walls, a W+A frame moves a squared distance of 2·0.70710678118²·`MOVESPEED²`, strictly between 0.9999999999 and 1 times that of a W-only frame |
| Game.FrameSeconds | Source.cpp:266 | the frame time times 1000 is the difference of the two clock readings, and it is non-negative when the clock did not go back |
| Game.FrameSpec | Source.cpp:179-266 | one pass of the loop body on values: its key table keeps 128 entries, and a faulting frame names an index outside the map |
| Game.RunFrom | Source.cpp:171-268 | `while (!quit)` on values: a run that stops has run at most all the frames; if it stopped early its state has `quit` set; if it ran no frame its state is the start; a fault names a frame of the input and an index outside the map |
| Game.RunStopsAtFirstQuit | Source.cpp:172 | a run of n frames runs exactly the first n frames, and every shorter prefix ends with `quit` clear, which is why the loop enters the next frame |
| Game.SafeRunStops | Source.cpp:171-268 | from the open interior, with every frame's direction in the unit box, the loop never reads outside the map and ends in the interior |
| Game.SourceStartFaults | Source.cpp:105-110 | from the state the program starts in, a first frame that presses W without moving the mouse reads `worldMap[86]` |
| Game.RayCaster.FromSource | Source.cpp:105-110 | the start state as written: `pos = (22, 13.5)`, `dir = (-1, 0)`, all keys up, not quitting, clocks at 0; as a value, `InitialState(SourceStart)` |
| Game.RayCaster.constructor | Source.cpp:105-110 | the corrected start state at the centre (2.5, 2.5), `InitialState(CenterStart)`, which satisfies the safety invariant |
| Game.RayCaster.KeyEvent | Source.cpp:183-190 | the key array after the event is `SetKey` of the array before it |
| Game.RayCaster.HandleEvent | Source.cpp:181-207 | one event: key array as `ApplyEvent`, and `quit` set exactly by a quit event |
| Game.RayCaster.PollEvents | Source.cpp:179-208 | after the polling loop, the key array is the events applied in order, and `quit` is set exactly when it was set already or a quit event arrived |
| Game.RayCaster.CheckEscape | Source.cpp:210-211 | `quit` is set exactly when it was already set or Escape is held |
| Game.RayCaster.StepLength | Source.cpp:214-223 | the multiplier the statements compute equals `Multiplier` of the held keys |
| Game.RayCaster.CommitX | Source.cpp:227-245 | the in-place x statement produces the `MoveX` position |
| Game.RayCaster.CommitY | Source.cpp:228-245 | the in-place y statement produces the `MoveY` position |
| Game.RayCaster.MoveForwardBack | Source.cpp:225-234 | the W/S statements produce the `Forward` position |
| Game.RayCaster.MoveSideways | Source.cpp:235-246 | the A/D statements, reading the position the W/S statements left, produce the `Strafe` position |
| Game.RayCaster.Step | Source.cpp:213-246 | the in-place step produces the `StepSpec` position and keeps the player in the open interior |
| Game.RayCaster.Tick | Source.cpp:264-266 | `oldTime` takes the previous `time`, `time` the clock reading, and `frameTime` their difference in seconds |
| Game.RayCaster.Frame | Source.cpp:172-267 | one pass of the loop gives the `FrameSpec` state: the keys after the events, `dir` as the mouse left it, `quit` from quit events or Escape, the position by `StepSpec`, and the clocks updated; safety is preserved when the new direction lies in the unit box |
| Game.RayCaster.Run | Source.cpp:171-268 | the `while (!quit)` loop from a safe state ends in exactly the state and frame count `RunFrom` gives, so it stops before the first frame that finds `quit` set. Every frame's reads are in range, the state stays safe, and `time` holds the last frame's clock reading |

## Left out

- Mouse rotation (Source.cpp:191-200). It rotates `dir` and `plane` with `cos`/`sin` on doubles, which has no exact counterpart over reals. The model passes in the direction each frame's mouse motion leaves (`FrameInput.dir`), and `Frame` sets `dir` to it after the events. The safety results require each such direction to lie in the unit box, which a rotation of the unit start direction keeps.
- The camera plane `plane`. Only the shader reads it.
- SDL and OpenGL setup, shader compilation (`CompileShaders`, `checkCompileErrors`), uniform uploads, drawing, buffer swap and cleanup. These are foreign library calls and file I/O. The GPU ray casting lives in shader files, which are not part of this model.
- `SDL_PollEvent` is replaced by a given sequence of events: `KeyDown(code)`, `KeyUp(code)` and `QuitRequest`. Mouse motion enters only through the frame's direction, as above. Other events do not touch the modelled state.
- Game.RayCaster.Tick: `SDL_GetTicks` is an external clock, passed in as a natural number. Its 32-bit wrap-around is not modelled.
- IEEE rounding. `pos` and `dir` are exact reals, so the model does not capture the `float` storage of `pos` and `dir`, nor the fact that a test is computed in `double` while the stored value is a `float`.
- Key codes are natural numbers. The negative values a C `int` could hold do not arise from SDL key symbols.
- The index formula reaches layers 2 and 3 as rows 5-14, and `MoveX`/`MoveY` read them like any other entry. The `Layout` predicate, and the safety results built on it, describe only the first layer, which holds the open interior. `m_mouse`, `mouse_move` and `xlast` are not used by the modelled code.
- Game.RayCaster.Step: the method requires every map read to be in range (`StepSpec(...).Moved?`), where the C++ code would have undefined behaviour. The out-of-range case is stated on values by `Movement.SourceStartReadsOutside`.

## Findings

| source | as written | input that shows it | evidently intended | confidence | as-written member | corrected member |
|---|---|---|---|---|---|---|
| Source.cpp:105 | the start position `pos = {22, 13.5}` lies outside the 5 x 5 map, so the first movement frame reads past the end of the 75-entry `worldMap` | W held in the first frame with `dir = (-1, 0)`: the x test reads index `int(21.98) + 13*5 = 86`; S, A or D read index 87 | a start position inside the open 3 x 3 interior, such as its centre (2.5, 2.5), from which every read stays in range | high, not executed | Movement.SourceStartReadsOutside | Game.RayCaster.constructor |
