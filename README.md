# Falling-sand simulation core in Dafny

This project models the simulation core of a falling-sand cellular automaton
and proves properties of that model. The grid is `ROWS` x `COLS` cells. Each
cell is either `null` or holds one particle object, and every particle knows
its own `x`/`y`.

There are two materials:

- Sand is a Powder. Its `update` falls straight down, or else slides to a free
  lower diagonal picked by `Math.random()`, or else stays.
- Cobble is a Solid. It has no `update` at all.

Two whole-grid passes drive the world:

- `Grid.update` scans the rows top-down.
- `updateGrid` in `main.js` scans them bottom-up. The animation `loop` runs it
  twice per frame.

A disc-shaped `ParticleSpawner` decides which cells around a centre get a
`createParticle` call.

The model has two layers:

- **Specification functions.** One particle update is `Powder.Update`. A
  `move_to` is `Particles.MoveTo`. The passes are `Passes.TopDown`,
  `Passes.BottomUp` and `Passes.Ticks`; they work on a `State` made of the
  cells, the particles' stored positions (`pos`) and the next fresh particle
  identity. The spawner's calls are `Spawner.Gate(Spawner.Candidates(...))`.
  The properties of the source are lemmas about these functions.
- **Imperative code.** The source's own objects are written as classes and
  methods. `Grid.Grid` holds the grid and the position fields. Its methods
  `MoveTo`, `PowderUpdate`, `VisitCell`, `ScanCells` and `Update` change
  those fields in place. `App` holds the `main.js` functions, and
  `Spawner.ParticleSpawner.Spawn` holds the spawner's two nested loops. Each
  method's postcondition equates its new state and its outputs with the
  specification function applied to the old state.

`Math.random()` is an input: the stream `rand: nat -> real` with every value in
[0, 1), together with a counter of the draws used so far. A Powder update takes
a draw only when it reaches the diagonal choice, exactly as the source does.
Spawner calls are returned as a sequence of cells in call order.

The two passes scan in opposite directions. The comment on `updateGrid` at
src/main.js:36 says the rows run from bottom to top so that particles fall
correctly, while `Grid.update` at src/core/Grid.ts:82 runs them from row 0
upward; `Grid.Grid.Update` follows that top-down loop. The lemma
`TopDownFacts.TopDownUpdatesFallenTwice` shows one consequence: with a top-down
scan, one particle's `update` can be called twice in a single pass.
`TopDownFacts.TopDownReachesFloor` shows another: a Powder with every row below
it empty reaches the floor in one pass. The bottom-up pass of `main.js` has
neither effect: it calls each `update` at most once and moves each particle at
most one row.

Modules, one per file:

- elements.dfy – the material table.
- particles.dfy – cells, bounds and `move_to`.
- powder.dfy – the Powder rule.
- passes.dfy – the pass functions; Cobble is kept.
- bottomup.dfy and topdown.dfy – what each scan order guarantees.
- conservation.dfy – particle count.
- world.dfy – the blank grid and `createParticle`.
- falling.dfy – the lone-particle scenarios.
- grid.dfy – the `Grid` class.
- app.dfy – `main.js`.
- spawner.dfy and spawnfacts.dfy – the spawner.

## Model

| member | source | states |
|---|---|---|
| Elements.SpawnDensity | src/engine/elements/Sand.ts:6 | the spawn density is 0.1 for Sand and 0.6 for Cobble (Cobble.ts line 6), always strictly between 0 and 1 |
| Elements.HasUpdate | src/core/Grid.ts:87 | the `cell?.update` test: a material has an `update` when its kind is Powder; `Elements.MaterialTable` proves this is Sand and not Cobble |
| Elements.Color | src/engine/elements/Sand.ts:7 | the colour is goldenrod for Sand and gray for Cobble (Cobble.ts line 7) |
| Elements.MaterialTable | src/engine/elements/Cobble.ts:3-8 | Sand has an `update` (it extends Powder) and Cobble has none (it extends Solid); the colours are goldenrod and gray |
| Particles.InBounds | src/engine/Particle.ts:19-28 | `inbounds`: row y exists and has a column x; `Particles.InBoundsOfRect` gives the box form on a rows x cols grid |
| Particles.IsFree | src/engine/Particle.ts:38 | the guard of `move_to`: in bounds and holding `null` |
| Particles.Consistent | src/engine/Particle.ts:39-42 | the position invariant: every occupied cell holds a particle whose stored x/y is that cell |
| Particles.Wf | src/core/Grid.ts:15 | the grid invariant: a rows x cols grid, `Consistent`, and every particle identity below the counter of fresh ones |
| Particles.Put | src/engine/Particle.ts:39 | a single-cell assignment keeps the grid's shape, sets the target cell and leaves every other cell as it was |
| Particles.InBoundsOfRect | src/engine/Particle.ts:19-28 | on a rows x cols grid, `inbounds` holds exactly for 0 <= x < cols and 0 <= y < rows |
| Particles.MoveTo | src/engine/Particle.ts:37-44 | `move_to` keeps the grid's shape, the set of particle objects and the identity counter |
| Particles.MoveToAccepted | src/engine/Particle.ts:38-43 | a move into an in-bounds empty cell: the old cell becomes null, the particle's x/y become the target, the particle is in the target cell, and no other cell or particle changes |
| Particles.MoveToRejected | src/engine/Particle.ts:38 | a move out of bounds or onto an occupied cell changes no field and no cell, so the occupant is not overwritten |
| Particles.MoveToConsistent | src/engine/Particle.ts:39-42 | if every occupied cell holds a particle whose stored position is that cell, that still holds after `move_to` |
| Particles.MoveToPopulation | src/engine/Particle.ts:39-42 | an accepted move replaces the source cell by the target in the set of occupied cells; a rejected one changes nothing; the number of occupied cells is unchanged |
| Particles.MoveToSelf | src/engine/Particle.ts:38 | a move onto the particle's own cell is a no-op |
| Powder.Diagonals | src/engine/Powder.ts:23-39 | `directions` holds -1 exactly when the lower-left cell is free and 1 exactly when the lower-right one is; left comes before right |
| Powder.ChoiceIndex | src/engine/Powder.ts:43-44 | `Math.floor(r * n)` for r in [0, 1) is an index below n, with i <= r*n < i+1 |
| Powder.Update | src/engine/Powder.ts:14-48 | `update` keeps the grid's shape and the particle set; the particle stays or moves one row down and at most one column sideways; no other particle moves; and only an empty cell of the row below can be filled |
| Powder.DrawsRandom | src/engine/Powder.ts:42-44 | `Math.random()` is called exactly when the cell below is not free and `directions` is non-empty |
| Powder.FallsStraight | src/engine/Powder.ts:16-20 | with the cell below free, the particle moves exactly there whatever the draw, the old cell is cleared, and no draw is taken |
| Powder.SlidesEitherWay | src/engine/Powder.ts:26-46 | below blocked and both diagonals free: the particle moves to the lower left when the draw is below 0.5, otherwise to the lower right; it never stays; a draw is taken |
| Powder.SlidesToOnlyFree | src/engine/Powder.ts:23-46 | below blocked and exactly one diagonal free: the particle moves to that diagonal whatever the draw |
| Powder.OnlyFreeTarget | src/engine/Powder.ts:23-46 | with exactly one free diagonal d, `directions` is [d] and `update` is the move to that diagonal |
| Powder.Slides | src/engine/Powder.ts:41-46 | below blocked and some diagonal free: `update` is the move to the diagonal the draw selects from `directions` |
| Powder.StaysWhenBlocked | src/engine/Powder.ts:21-47 | below and both diagonals blocked or out of bounds: the state is unchanged and no draw is taken |
| Powder.BottomRowStays | src/engine/Powder.ts:14-48 | a particle in the bottom row never moves |
| Powder.UpdateConsistent | src/engine/Powder.ts:14-48 | `update` keeps every stored position consistent with its cell |
| Powder.UpdatePopulation | src/engine/Powder.ts:14-48 | `update` keeps the number of occupied cells |
| Passes.Visit | src/core/Grid.ts:84-89 | one cell of either pass: `update` is called, and one draw taken exactly when `DrawsRandom`, only for a cell holding a particle that has `update`; ensures the result is well formed (`Particles.Wf`): still a rows x cols grid, every occupied cell holds a particle whose stored position is that cell, and every identity is below the counter |
| Passes.ScanRow | src/core/Grid.ts:83-90 | the inner `for x` loop, columns x to COLS-1 of one row; ensures the result is well formed |
| Passes.TopDownFrom | src/core/Grid.ts:82-91 | the rows y to ROWS-1 of `Grid.update`; ensures the result is well formed |
| Passes.TopDown | src/core/Grid.ts:81-92 | one `Grid.update()`, rows 0 to ROWS-1; ensures the result is well formed (`Particles.Wf`): still a rows x cols grid, every occupied cell holds a particle whose stored position is that cell, and every identity is below the counter, so the pass keeps the position invariant |
| Passes.BottomUpFrom | src/main.js:37-44 | the remaining rows n-1 down to 0 of `updateGrid`; ensures the result is well formed |
| Passes.BottomUp | src/main.js:35-45 | one `updateGrid()`, rows ROWS-1 down to 0; ensures the result is well formed (`Particles.Wf`): still a rows x cols grid, every occupied cell holds a particle whose stored position is that cell, and every identity is below the counter, so the pass keeps the position invariant |
| Passes.Ticks | src/main.js:53-55 | n successive `updateGrid()` passes, two per frame of `loop`; ensures the result is well formed (`Particles.Wf`): still a rows x cols grid, every occupied cell holds a particle whose stored position is that cell, and every identity is below the counter |
| Passes.VisitFrame | src/core/Grid.ts:84-89 | visiting a cell changes no other cell, except an empty cell of the next row; visiting a cell without an updatable particle changes nothing |
| Passes.VisitKeepsSolid | src/core/Grid.ts:87-89 | a visit anywhere leaves a particle without `update` in its cell |
| Passes.TopDownKeepsSolid | src/core/Grid.ts:81-92 | `Grid.update` leaves a Cobble in its cell, with its stored position |
| Passes.BottomUpFromKeepsSolid | src/main.js:37-44 | the bottom-up rows leave a Cobble in its cell |
| Passes.TicksKeepSolid | src/main.js:53-55 | any number of `updateGrid` passes leave a Cobble in its cell, with its stored position |
| BottomUpFacts.VisitUpInv | src/main.js:38-42 | one visit of the bottom-up scan keeps its invariant: unscanned cells as at the start of the pass, every particle at most one Powder move away, calls distinct and from the scanned part |
| BottomUpFacts.ScanRowUpInv | src/main.js:38-43 | scanning one row keeps that invariant |
| BottomUpFacts.BottomUpFromUpInv | src/main.js:37-44 | scanning the remaining rows keeps that invariant |
| BottomUpFacts.BottomUpMovesAtMostOnce | src/main.js:35-45 | one `updateGrid` pass calls each particle's `update` at most once, only on particles created before the pass began, and leaves every particle in place or one Powder move away |
| BottomUpFacts.FrameMovesAtMostTwoRows | src/main.js:53-55 | the two passes of one frame move a particle at most two rows down and two columns across, never up |
| TopDownFacts.ScanRowFrame | src/core/Grid.ts:83-90 | scanning one row changes only that row and the row below it |
| TopDownFacts.ScanBottomRow | src/core/Grid.ts:83-90 | scanning the bottom row leaves the state exactly as it was |
| TopDownFacts.FallsToFloor | src/core/Grid.ts:82-91 | from the row of a Powder with only empty rows below it, the rest of the top-down pass takes that Powder to the bottom row |
| TopDownFacts.FallsFromAbove | src/core/Grid.ts:82-91 | the same from any earlier row |
| TopDownFacts.TopDownReachesFloor | src/core/Grid.ts:81-92 | one `Grid.update()` takes a Powder with every row below it empty straight to the bottom row of its column, with its stored position |
| TopDownFacts.TopDownUpdatesFallenTwice | src/core/Grid.ts:82-89 | on a 1 x 2 grid with a Sand on top, one top-down pass calls that Sand's `update` twice |
| Conservation.VisitPopulation | src/core/Grid.ts:87-89 | one visit keeps the number of occupied cells |
| Conservation.ScanRowPopulation | src/core/Grid.ts:83-90 | one row scan keeps the number of occupied cells |
| Conservation.TopDownPopulation | src/core/Grid.ts:81-92 | `Grid.update` keeps the number of occupied cells |
| Conservation.BottomUpPopulation | src/main.js:35-45 | `updateGrid` keeps the number of occupied cells |
| Conservation.TicksPopulation | src/main.js:53-55 | any number of `updateGrid` passes keep the number of occupied cells |
| World.Blank | src/main.js:17-19 | the initial grid is a well-formed rows x cols grid of nulls |
| World.BlankIsEmpty | src/core/Grid.ts:46-48 | the initial grid holds no particle |
| World.Create | src/main.js:47-49 | `grid[y][x] = new M(x, y)` puts a fresh particle whose position is (x, y) into (x, y), replacing any occupant without a check; no other cell and no other particle's position changes |
| World.CreatePreserves | src/main.js:47-49 | creating a particle keeps the grid well formed |
| World.CreatePopulation | src/main.js:47-49 | creating adds (x, y) to the occupied cells, so the count grows by one for an empty cell and stays the same for an occupied one |
| LoneFall.BottomUpMovesLoneOneRow | src/main.js:35-45 | one `updateGrid` pass moves a lone Powder exactly one row down, or not at all on the floor; its `update` is called exactly once and takes no draw |
| LoneFall.TicksMoveLone | src/main.js:53-55 | after n passes a lone Powder that started in row y is in row min(y + n, ROWS - 1) |
| LoneFall.CreatedSandFalls | src/main.js:47-55 | a Sand created in the top row of a blank grid is in row min(n, ROWS - 1) after n passes |
| LoneFall.SandReachesFloorOfFiveByFive | src/main.js:35-58 | on a 5 x 5 grid, a Sand created at (2, 0) is at (2, 1) after one pass and on the floor (2, 4) after four and after five |
| Grid.Grid.constructor | src/core/Grid.ts:25-49 | the grid has HEIGHT/PIXEL_SIZE rows of WIDTH/PIXEL_SIZE cells, all null |
| Grid.Grid.MoveTo | src/engine/Particle.ts:37-44 | the in-place `move_to` leaves the cells and positions that `Particles.MoveTo` specifies |
| Grid.Grid.PowderUpdate | src/engine/Powder.ts:14-48 | the in-place `update` leaves the state `Powder.Update` specifies and takes a draw exactly when it reaches the diagonal choice |
| Grid.Grid.VisitCell | src/core/Grid.ts:84-89 | one cell of a pass calls `update` exactly when the cell holds a particle that has one, and keeps the grid well formed |
| Grid.Grid.ScanCells | src/core/Grid.ts:83-90 | the column loop over one row produces the specified row scan |
| Grid.Grid.Update | src/core/Grid.ts:81-92 | the nested loops leave the state, the draws used and the call order of the top-down pass `Passes.TopDown` |
| App.Setup | src/main.js:7-19 | the 512 x 512 canvas with 4-pixel cells gives a blank 128 x 128 grid |
| App.UpdateGrid | src/main.js:35-45 | the loops from row ROWS-1 down to 0 leave the state, the draws used and the call order of the bottom-up pass `Passes.BottomUp` |
| App.CreateParticle | src/main.js:47-49 | `createParticle(x, y)` places a new Sand as `World.Create` specifies and keeps the grid well formed |
| App.Frame | src/main.js:53-55 | one frame of `loop` is two `updateGrid` passes, `Passes.Ticks` with n = 2 |
| Spawner.InDisc | src/engine/input/particleSpawner.ts:34-35 | the distance test `sqrt(dx^2 + dy^2) <= radius` as the integer test dx^2 + dy^2 <= radius^2, for a non-negative radius |
| Spawner.IsCandidate | src/engine/input/particleSpawner.ts:34-38 | an offset gets a draw when it passes the distance test and (centre + offset) passes the bounds test |
| Spawner.Candidates | src/engine/input/particleSpawner.ts:32-38 | the cells that get a draw, in loop order; `SpawnFacts.CandidatesIff`, `CandidatesAscending` and `CandidatesSize` state what they are |
| Spawner.Gate | src/engine/input/particleSpawner.ts:39-41 | the candidates whose draw, taken in order, is below the density; `SpawnFacts.GateMembers` and `GateAscending` state what it keeps |
| Spawner.SeenStep | src/engine/input/particleSpawner.ts:33-38 | one more offset of the inner loop joins the candidates exactly when it passes the distance and bounds tests |
| Spawner.GateStep | src/engine/input/particleSpawner.ts:39-41 | a candidate takes one draw and is emitted when that draw is below the density |
| Spawner.Offer | src/engine/input/particleSpawner.ts:34-43 | the body of the inner loop takes a draw exactly for a candidate and emits it exactly when the draw is below the density |
| Spawner.ParticleSpawner.constructor | src/engine/input/particleSpawner.ts:20-22 | the spawner stores its radius |
| Spawner.ParticleSpawner.Spawn | src/engine/input/particleSpawner.ts:24-47 | the cells passed to `createParticle` are the gated candidates in loop order, and one draw is taken per candidate |
| SpawnFacts.CandidateOffsets | src/engine/input/particleSpawner.ts:34-35 | an offset inside the disc lies within the radius on both axes, so the square loops reach every disc point |
| SpawnFacts.SeenMembers | src/engine/input/particleSpawner.ts:32-38 | after row m, offset n, the cells seen are exactly the candidates whose offsets come earlier in loop order |
| SpawnFacts.CandidatesIff | src/engine/input/particleSpawner.ts:32-38 | a cell is a candidate exactly when its offset from the centre is inside the disc and it is inside the grid |
| SpawnFacts.SeenAscending | src/engine/input/particleSpawner.ts:32-33 | the cells seen come in row-major order, dy outer and dx inner, both ascending |
| SpawnFacts.CandidatesAscending | src/engine/input/particleSpawner.ts:32-33 | all candidates come in that order |
| SpawnFacts.SeenSize | src/engine/input/particleSpawner.ts:32-33 | at most one candidate per offset visited |
| SpawnFacts.CandidatesSize | src/engine/input/particleSpawner.ts:32-35 | there are at most (2 * radius + 1)^2 candidates |
| SpawnFacts.SmallRadius | src/engine/input/particleSpawner.ts:32-38 | radius 0 yields only the centre, when it is inside the grid; a negative radius yields nothing |
| SpawnFacts.GateMembers | src/engine/input/particleSpawner.ts:39-41 | a cell is emitted exactly when it is candidate number i and draw number k + i is below the density |
| SpawnFacts.GateAscending | src/engine/input/particleSpawner.ts:39-41 | the emitted cells are a subsequence of the candidates, so they are in the same order and no more numerous |
| SpawnFacts.GateDensity | src/engine/input/particleSpawner.ts:40 | density 0 emits nothing; density 1, with draws in [0, 1), emits every candidate |
| SpawnFacts.SpawnCalls | src/engine/input/particleSpawner.ts:24-47 | every `createParticle` call is a grid cell inside the disc; the calls are in loop order; there are at most (2 * radius + 1)^2 of them; a candidate is called exactly when its draw is below the density |
| SpawnFacts.AscendingDistinct | src/engine/input/particleSpawner.ts:32-33 | cells in loop order are pairwise distinct, so no cell gets two calls |

## Left out

- Rendering: `Grid.draw`, `draw`, the canvas setup and `requestAnimationFrame` in src/main.js are canvas I/O. `App.Frame` models one iteration of `loop` without the drawing and without the self-scheduling.
- Input handling: src/engine/input/inputHandler.ts and src/utils/inputHandler.js are not part of this model. Neither is the `setupInput` registration in src/main.js line 51. They are DOM events, timers and floating-point line interpolation. `spawn` is modelled on its own, and its calls are returned as a sequence.
- The distribution of `Math.random()`: draws are an input stream in [0, 1). The 50/50 fairness of the diagonal choice is a statistical claim and is not stated.
- Duplicate variants: src/engine/Particle.js, src/engine/Powder.js, src/main.ts and src/particles/Sand.ts are not part of this model.
- Colours are opaque strings handed to the renderer. `Particle`'s colour field and the per-object `spawnDensity` field are read from the material table rather than stored per object.
- Particle objects are references. The model identifies each by a number. Its `x`/`y` fields live in the `pos` map owned by the grid, so aliasing between the grid and the objects is captured only through that map.
- Grid.Grid: its rows are a `seq<seq<Cell>>` field that is reassigned rather than nested arrays updated in place. The in-place order of `move_to`'s three writes (clear, set x/y, fill) is kept, but array aliasing is not modelled.
- Grid.Grid.MoveTo: requires the particle's stored position to be in bounds. A stored position off the grid never occurs under the grid's invariant; JavaScript would write a stray property or throw.
- Grid.Grid.constructor: requires a positive `pixelSize` that divides both dimensions. If it does not divide the width, `Array(COLS)` throws on the fractional length. If it divides the width but not the height, the grid gets floor(ROWS) rows and `update()`/`draw()` throw on the missing row.
- App.CreateParticle: requires (x, y) to be in bounds. For other cells `grid[y][x] = …` either throws or writes outside the rows. Its one caller is the mouse handler that src/main.js:51 registers through `setupInput` (src/utils/inputHandler.js), whose `createParticlesAround` calls it only after the bounds test at src/utils/inputHandler.js:60, with `setupInput`'s `WIDTH`/`HEIGHT` bound to `COLS`/`ROWS`.
- Spawner.ParticleSpawner.Spawn: the radius is an integer. The source's `number` radius could be fractional. `sqrt(dx^2 + dy^2) <= r` is written as the exact integer test `dx^2 + dy^2 <= r^2`, so floating-point rounding of the square root is not modelled.
- Spawner.Offer: requires a non-negative radius. It is only called from the loops, which for a negative radius do not run.
- `spawn` never reads the grid. This holds by construction: the spawner has no grid parameter.
- The separate `maxParticles` parameter of the `spawn` interface is declared but never used by the class, so it is not modelled.
